/** The Markdown subset of the prompt pages, line by line: which block each line belongs to. */
module Markdown {
  import opened Text

  // ---- Lines ----

  predicate IsWord(c: char) { IsLetter(c) || IsDigit(c) || c == '_' }

  /** What `.` does not match. */
  predicate IsTerminator(c: char) { c == '\n' || c == '\r' || c == '\U{2028}' || c == '\U{2029}' }

  predicate OneLine(s: string) { forall k | 0 <= k < |s| :: !IsTerminator(s[k]) }

  predicate IsBlank(line: string) { AllSpace(line) }

  predicate HasTicks(line: string) { |line| >= 3 && line[..3] == "```" }

  predicate IsFence(line: string) {
    HasTicks(line) && var rest := line[3..]; AllSpace(rest[Span(IsWord, rest)..])
  }

  predicate IsClosingFence(line: string) { HasTicks(line) && AllSpace(line[3..]) }

  predicate IsHash(c: char) { c == '#' }

  function Hashes(line: string): (n: nat)
    ensures n <= |line|
  {
    Span(IsHash, line)
  }

  predicate StartsHeading(line: string) {
    var n := Hashes(line);
    1 <= n <= 6 && n < |line| && IsSpace(line[n])
  }

  /** The text after white space, when it has no line terminator in it. */
  function Spaced(s: string): Option<string> {
    var k := Span(IsSpace, s);
    if k >= 1 && OneLine(s[k..]) then Some(s[k..]) else None
  }

  datatype Heading = Heading(level: nat, text: string)

  function HeadingOf(line: string): Option<Heading> {
    var n := Hashes(line);
    if !StartsHeading(line) || Spaced(line[n..]).None? then None
    else Some(Heading(if n + 2 < 6 then n + 2 else 6, Spaced(line[n..]).value))
  }

  datatype Item = Item(ordered: bool, deep: bool, text: string)

  function ListItem(line: string): Option<Item> {
    var w := Span(IsSpace, line);
    var rest := line[w..];
    var d := Span(IsDigit, rest);
    var bullet := rest != "" && (rest[0] == '-' || rest[0] == '*');
    var number := !bullet && d >= 1 && d < |rest| && rest[d] == '.';
    if !bullet && !number then None
    else
      var text := Spaced(rest[if bullet then 1 else d + 1..]);
      if text.None? then None else Some(Item(number, w > 0, text.value))
  }

  predicate StartsBlock(line: string) { StartsHeading(line) || HasTicks(line) }

  /** Whether a paragraph goes on with this line. */
  predicate InParagraph(line: string) { !IsBlank(line) && ListItem(line).None? && !StartsBlock(line) }

  // ---- Table rows ----

  /** Split at every pipe that no backslash precedes; `escaped` tells whether one precedes `s`. */
  function SplitPipes(s: string, escaped: bool): (parts: seq<string>)
    ensures parts != []
  {
    if s == "" then [""]
    else
      var rest := SplitPipes(s[1..], s[0] == '\\');
      if s[0] == '|' && !escaped then [""] + rest else [[s[0]] + rest[0]] + rest[1..]
  }

  function TrimAll(parts: seq<string>): seq<string> {
    if parts == [] then [] else [Trim(parts[0])] + TrimAll(parts[1..])
  }

  function DropFirst(parts: seq<string>): seq<string> {
    if parts != [] && AllSpace(parts[0]) then parts[1..] else parts
  }

  function DropLast(parts: seq<string>): seq<string> {
    if parts != [] && AllSpace(parts[|parts| - 1]) then parts[..|parts| - 1] else parts
  }

  function SplitTableRow(line: string): seq<string> {
    TrimAll(DropLast(DropFirst(SplitPipes(Trim(line), false))))
  }

  function AfterColon(s: string): string { if s != "" && s[0] == ':' then s[1..] else s }

  function BeforeColon(s: string): string { if s != "" && s[|s| - 1] == ':' then s[..|s| - 1] else s }

  predicate IsDashes(s: string) { s != "" && forall k | 0 <= k < |s| :: s[k] == '-' }

  /** Dashes with an optional colon at either end. */
  predicate IsRule(cell: string) { IsDashes(BeforeColon(AfterColon(cell))) }

  predicate IsTableSeparatorRow(line: string) {
    '|' in line && var cells := SplitTableRow(line); cells != [] && forall c | c in cells :: IsRule(c)
  }

  predicate StartsTable(lines: seq<string>) {
    |lines| > 1 && '|' in lines[0] && IsTableSeparatorRow(lines[1])
  }

  predicate IsTableRow(line: string) { !IsBlank(line) && '|' in line }

  // ---- Blocks ----

  datatype Content =
    | Fence(body: seq<string>)
    | Blank
    | Title(heading: Heading)
    | Table(head: seq<string>, rows: seq<seq<string>>)
    | Bullet(item: Item)
    | Paragraph(lines: seq<string>)

  /** A block and the source lines it is made of. */
  datatype Block = Block(content: Content, source: seq<string>)

  /** How many of the first lines satisfy `p`. */
  function Count(p: string -> bool, lines: seq<string>): (n: nat)
    ensures n <= |lines|
    ensures forall k | 0 <= k < n :: p(lines[k])
    ensures n < |lines| ==> !p(lines[n])
  {
    if lines != [] && p(lines[0]) then 1 + Count(p, lines[1..]) else 0
  }

  function Rows(lines: seq<string>): seq<seq<string>> {
    if lines == [] then [] else [SplitTableRow(lines[0])] + Rows(lines[1..])
  }

  /** The block that begins with the first line, or none: then the program makes no progress. */
  function FirstBlock(lines: seq<string>): (b: Option<Block>)
    requires lines != []
    ensures b.Some? ==> b.value.source != [] && b.value.source <= lines
  {
    var line := lines[0];
    if IsFence(line) then
      var n := Count((l: string) => !IsClosingFence(l), lines[1..]);
      Some(Block(Fence(lines[1..][..n]), lines[..Min(n + 2, |lines|)]))
    else if IsBlank(line) then Some(Block(Blank, lines[..1]))
    else if HeadingOf(line).Some? then Some(Block(Title(HeadingOf(line).value), lines[..1]))
    else if StartsTable(lines) then
      var n := Count(IsTableRow, lines[2..]);
      Some(Block(Table(SplitTableRow(line), Rows(lines[2..][..n])), lines[..n + 2]))
    else if ListItem(line).Some? then Some(Block(Bullet(ListItem(line).value), lines[..1]))
    else
      var n := Count(InParagraph, lines);
      if n == 0 then None else Some(Block(Paragraph(lines[..n]), lines[..n]))
  }

  /** All blocks, or none if the program does not come to an end. */
  function Blocks(lines: seq<string>): Option<seq<Block>>
    decreases |lines|
  {
    if lines == [] then Some([])
    else
      var b := FirstBlock(lines);
      if b.None? then None
      else
        var rest := Blocks(lines[|b.value.source|..]);
        if rest.None? then None else Some([b.value] + rest.value)
  }

  // ---- What is written ----

  datatype Token = OpenList(ordered: bool) | CloseList(ordered: bool) | Write(content: Content)

  /** Closing the innermost lists down to `depth`. */
  function Closing(open: seq<bool>, depth: nat): seq<Token> {
    if |open| <= depth then [] else [CloseList(open[|open| - 1])] + Closing(open[..|open| - 1], depth)
  }

  function Opening(ordered: bool, n: nat): seq<Token> {
    if n == 0 then [] else [OpenList(ordered)] + Opening(ordered, n - 1)
  }

  function Depth(item: Item): nat { if item.deep then 2 else 1 }

  /** The open lists an item leaves open before it opens its own. */
  function Kept(open: seq<bool>, item: Item): (k: seq<bool>)
    ensures |k| <= |open| && |k| <= Depth(item)
  {
    var depth := Depth(item);
    var o := if |open| > depth then open[..depth] else open;
    if |o| == depth && o[depth - 1] != item.ordered then o[..depth - 1] else o
  }

  function Repeat(ordered: bool, n: nat): seq<bool> { if n == 0 then [] else [ordered] + Repeat(ordered, n - 1) }

  function Tokens(b: Block, open: seq<bool>): seq<Token> {
    match b.content
    case Blank => Closing(open, 0)
    case Bullet(item) =>
      var kept := Kept(open, item);
      Closing(open, |kept|) + Opening(item.ordered, Depth(item) - |kept|) + [Write(b.content)]
    case _ => Closing(open, 0) + [Write(b.content)]
  }

  function OpenAfter(b: Block, open: seq<bool>): seq<bool> {
    match b.content
    case Bullet(item) => var kept := Kept(open, item); kept + Repeat(item.ordered, Depth(item) - |kept|)
    case _ => []
  }

  function Emit(bs: seq<Block>, open: seq<bool>): seq<Token>
    decreases |bs|
  {
    if bs == [] then Closing(open, 0) else Tokens(bs[0], open) + Emit(bs[1..], OpenAfter(bs[0], open))
  }

  /** What the program ends up with when it has `out` and `open` with `lines` still to go. */
  function Onward(out: seq<Token>, open: seq<bool>, lines: seq<string>): Option<seq<Token>> {
    var bs := Blocks(lines);
    if bs.None? then None else Some(out + Emit(bs.value, open))
  }

  function Rendered(lines: seq<string>): Option<seq<Token>> { Onward([], [], lines) }

  // ---- The code ----

  method CloseLists(out0: seq<Token>, open0: seq<bool>, toDepth: nat) returns (out: seq<Token>, open: seq<bool>)
    ensures out == out0 + Closing(open0, toDepth)
    ensures open == if |open0| <= toDepth then open0 else open0[..toDepth]
  {
    out, open := out0, open0;
    while |open| > toDepth
      invariant |open| <= |open0| && open == open0[..|open|] && (|open0| > toDepth ==> |open| >= toDepth)
      invariant |open0| <= toDepth ==> open == open0
      invariant out + Closing(open, toDepth) == out0 + Closing(open0, toDepth)
    {
      var n := |open| - 1;
      var tag := open[n];
      assert out + [CloseList(tag)] + Closing(open[..n], toDepth) == out + Closing(open, toDepth);
      open := open[..n];
      out := out + [CloseList(tag)];
    }
    assert out + [] == out;
  }

  lemma NextBlock(out: seq<Token>, open: seq<bool>, lines: seq<string>)
    requires lines != []
    ensures var b := FirstBlock(lines);
            Onward(out, open, lines) ==
            if b.None? then None
            else Onward(out + Tokens(b.value, open), OpenAfter(b.value, open), lines[|b.value.source|..])
  {
    hide FirstBlock, Tokens, OpenAfter;
    var b := FirstBlock(lines);
    if b.Some? {
      var rest := Blocks(lines[|b.value.source|..]);
      if rest.Some? {
        var bs := [b.value] + rest.value;
        assert bs[1..] == rest.value;
        Assoc3(out, Tokens(b.value, open), Emit(rest.value, OpenAfter(b.value, open)));
      }
    }
  }

  lemma Assoc3<T>(a: seq<T>, b: seq<T>, c: seq<T>)
    ensures a + b + c == a + (b + c)
  {
  }

  method CountLines(p: string -> bool, lines: seq<string>, i: nat) returns (j: nat)
    requires i <= |lines|
    ensures j == i + Count(p, lines[i..])
    ensures j <= |lines|
  {
    j := i;
    while j < |lines| && p(lines[j])
      invariant i <= j <= |lines|
      invariant i + Count(p, lines[i..]) == j + Count(p, lines[j..])
    {
      assert lines[j..][1..] == lines[j + 1..];
      j := j + 1;
    }
  }

  /** Closing what an item cannot be in. */
  method KeepLists(out0: seq<Token>, open0: seq<bool>, item: Item) returns (out: seq<Token>, open: seq<bool>)
    ensures open == Kept(open0, item) && out == out0 + Closing(open0, |open|)
  {
    hide Closing;
    var depth := Depth(item);
    out, open := out0, open0;
    CloseTwice(open0, depth);
    assert out0 + [] == out0;
    if |open| > depth {
      out, open := CloseLists(out, open, depth);
    }
    NothingToClose(open);
    if |open| == depth && open[depth - 1] != item.ordered {
      Assoc3(out0, Closing(open0, depth), Closing(open, depth - 1));
      out, open := CloseLists(out, open, depth - 1);
    }
  }

  lemma NothingToClose(open: seq<bool>)
    ensures Closing(open, |open|) == []
  {
  }

  method OpenLists(out0: seq<Token>, open0: seq<bool>, ordered: bool, depth: nat) returns (out: seq<Token>,
      open: seq<bool>)
    requires |open0| <= depth
    ensures out == out0 + Opening(ordered, depth - |open0|)
    ensures open == open0 + Repeat(ordered, depth - |open0|)
  {
    out, open := out0, open0;
    while |open| < depth
      invariant |open0| <= |open| <= depth
      invariant out + Opening(ordered, depth - |open|) == out0 + Opening(ordered, depth - |open0|)
      invariant open + Repeat(ordered, depth - |open|) == open0 + Repeat(ordered, depth - |open0|)
    {
      Assoc3(out, [OpenList(ordered)], Opening(ordered, depth - |open| - 1));
      Assoc3(open, [ordered], Repeat(ordered, depth - |open| - 1));
      out := out + [OpenList(ordered)];
      open := open + [ordered];
    }
    assert out + [] == out && open + [] == open;
  }

  /** Where the lines of a fence, a table or a paragraph are, seen from the whole text. */
  lemma FromHere(lines: seq<string>, i: nat, n: nat)
    requires i < |lines|
    ensures lines[i..][0] == lines[i] && lines[i..][1..] == lines[i + 1..]
    ensures i + 1 < |lines| ==> lines[i..][1] == lines[i + 1] && lines[i..][2..] == lines[i + 2..]
    ensures i + n <= |lines| ==> lines[i..][..n] == lines[i..i + n]
  {
  }

  lemma FenceIs(lines: seq<string>, i: nat, j: nat)
    requires i < |lines| && IsFence(lines[i])
    requires j == i + 1 + Count((l: string) => !IsClosingFence(l), lines[i + 1..])
    ensures FirstBlock(lines[i..]) == Some(Block(Fence(lines[i + 1..j]), lines[i..Min(j + 1, |lines|)]))
  {
    hide IsFence, IsClosingFence;
    FromHere(lines, i, Min(j + 1, |lines|) - i);
    assert lines[i + 1..][..j - i - 1] == lines[i + 1..j];
  }

  lemma TableIs(lines: seq<string>, i: nat, j: nat)
    requires i + 1 < |lines| && !IsFence(lines[i]) && !IsBlank(lines[i]) && HeadingOf(lines[i]).None?
    requires '|' in lines[i] && IsTableSeparatorRow(lines[i + 1])
    requires j == i + 2 + Count(IsTableRow, lines[i + 2..])
    ensures FirstBlock(lines[i..]) == Some(Block(Table(SplitTableRow(lines[i]), Rows(lines[i + 2..j])), lines[i..j]))
  {
    hide IsFence, IsBlank, HeadingOf, IsTableSeparatorRow, IsTableRow, SplitTableRow, Rows;
    FromHere(lines, i, j - i);
    assert lines[i + 2..][..j - i - 2] == lines[i + 2..j];
  }

  predicate IsPlain(lines: seq<string>) {
    lines != [] && !IsFence(lines[0]) && !IsBlank(lines[0]) && HeadingOf(lines[0]).None? && !StartsTable(lines)
  }

  lemma ParagraphIs(lines: seq<string>, i: nat, j: nat)
    requires i < |lines| && IsPlain(lines[i..]) && ListItem(lines[i]).None?
    requires j == i + Count(InParagraph, lines[i..])
    ensures FirstBlock(lines[i..]) == if j == i then None else Some(Block(Paragraph(lines[i..j]), lines[i..j]))
  {
    hide IsFence, IsBlank, HeadingOf, StartsTable, ListItem, InParagraph;
    FromHere(lines, i, j - i);
  }

  lemma OneLineIs(lines: seq<string>, i: nat)
    requires i < |lines| && !IsFence(lines[i])
    ensures var line := lines[i];
            && (IsBlank(line) ==> FirstBlock(lines[i..]) == Some(Block(Blank, lines[i..i + 1])))
            && (!IsBlank(line) && HeadingOf(line).Some? ==>
                  FirstBlock(lines[i..]) == Some(Block(Title(HeadingOf(line).value), lines[i..i + 1])))
            && (IsPlain(lines[i..]) && ListItem(line).Some? ==>
                  FirstBlock(lines[i..]) == Some(Block(Bullet(ListItem(line).value), lines[i..i + 1])))
  {
    hide IsFence, IsBlank, HeadingOf, StartsTable, ListItem;
    FromHere(lines, i, 1);
  }

  /** One block of the text; no progress when there is none. */
  method RenderBlock(lines: seq<string>, i: nat, out0: seq<Token>, open0: seq<bool>)
    returns (out: seq<Token>, open: seq<bool>, j: nat)
    requires i < |lines|
    ensures var b := FirstBlock(lines[i..]);
            if b.None? then j == i
            else
              && out == out0 + Tokens(b.value, open0) && open == OpenAfter(b.value, open0)
              && i < j == i + |b.value.source| <= |lines|
  {
    hide IsFence, IsClosingFence, IsTableSeparatorRow, HeadingOf, ListItem, InParagraph, IsTableRow, SplitTableRow,
        Closing, IsBlank, Onward, Opening, Repeat, Rows, Count, Kept, FirstBlock;
    var line := lines[i];
    FromHere(lines, i, 1);
    if IsFence(line) {
      out, open := CloseLists(out0, open0, 0);
      j := CountLines((l: string) => !IsClosingFence(l), lines, i + 1);
      FenceIs(lines, i, j);
      Assoc3(out0, Closing(open0, 0), [Write(Fence(lines[i + 1..j]))]);
      out := out + [Write(Fence(lines[i + 1..j]))];
      j := Min(j + 1, |lines|);
      return;
    }
    OneLineIs(lines, i);
    if IsBlank(line) {
      out, open := CloseLists(out0, open0, 0);
      j := i + 1;
      return;
    }
    if HeadingOf(line).Some? {
      out, open := CloseLists(out0, open0, 0);
      var title := Title(HeadingOf(line).value);
      Assoc3(out0, Closing(open0, 0), [Write(title)]);
      out := out + [Write(title)];
      j := i + 1;
      return;
    }
    if '|' in line && i + 1 < |lines| && IsTableSeparatorRow(lines[i + 1]) {
      out, open := CloseLists(out0, open0, 0);
      j := CountLines(IsTableRow, lines, i + 2);
      TableIs(lines, i, j);
      var table := Table(SplitTableRow(line), Rows(lines[i + 2..j]));
      Assoc3(out0, Closing(open0, 0), [Write(table)]);
      out := out + [Write(table)];
      return;
    }
    if ListItem(line).Some? {
      var item := ListItem(line).value;
      out, open := KeepLists(out0, open0, item);
      ghost var kept := open;
      Assoc3(out0, Closing(open0, |kept|), Opening(item.ordered, Depth(item) - |kept|));
      out, open := OpenLists(out, open, item.ordered, Depth(item));
      Assoc3(out0, Closing(open0, |kept|) + Opening(item.ordered, Depth(item) - |kept|), [Write(Bullet(item))]);
      out := out + [Write(Bullet(item))];
      j := i + 1;
      return;
    }
    out, open := CloseLists(out0, open0, 0);
    j := CountLines(InParagraph, lines, i);
    ParagraphIs(lines, i, j);
    Assoc3(out0, Closing(open0, 0), [Write(Paragraph(lines[i..j]))]);
    out := out + [Write(Paragraph(lines[i..j]))];
  }

  lemma AtTheEnd(out: seq<Token>, open: seq<bool>, lines: seq<string>)
    requires lines == []
    ensures Onward(out, open, lines) == Some(out + Closing(open, 0))
  {
  }

  /** Block after block; none when the program never comes to an end. */
  method RenderMarkdown(lines: seq<string>) returns (r: Option<seq<Token>>)
    ensures r == Rendered(lines)
  {
    hide Onward, FirstBlock, Tokens, OpenAfter;
    var out: seq<Token>, open: seq<bool> := [], [];
    var i := 0;
    while i < |lines|
      invariant 0 <= i <= |lines|
      invariant Onward(out, open, lines[i..]) == Rendered(lines)
    {
      NextBlock(out, open, lines[i..]);
      var out1, open1, j := RenderBlock(lines, i, out, open);
      if j == i {
        // An empty paragraph was written and no line consumed: the next round is this one again.
        return None;
      }
      assert lines[i..][j - i..] == lines[j..];
      out, open, i := out1, open1, j;
    }
    AtTheEnd(out, open, lines[i..]);
    out, open := CloseLists(out, open, 0);
    r := Some(out);
  }

  /** Closing to a depth and then one further is closing one further. */
  lemma CloseTwice(open: seq<bool>, depth: nat)
    requires depth >= 1
    ensures |open| > depth ==> Closing(open, depth - 1) == Closing(open, depth) + Closing(open[..depth], depth - 1)
    ensures |open| <= depth ==> Closing(open, depth) == []
  {
    if |open| > depth {
      var n := |open| - 1;
      if n > depth {
        CloseTwice(open[..n], depth);
        assert open[..n][..depth] == open[..depth];
      } else {
        assert open[..n] == open[..depth];
        assert Closing(open[..n], depth) == [];
      }
    }
  }
}
