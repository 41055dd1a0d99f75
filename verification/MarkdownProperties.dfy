/** What rendering Markdown keeps, and exactly when it never comes to an end. */
module MarkdownProperties {
  import opened Text
  import opened Markdown

  // ---- Every line in one block ----

  function Sources(bs: seq<Block>): seq<string> {
    if bs == [] then [] else bs[0].source + Sources(bs[1..])
  }

  /** The blocks' source lines, one block after the other, are the text's lines. */
  lemma {:induction false} BlocksCoverLines(lines: seq<string>)
    ensures var bs := Blocks(lines);
            bs.Some? ==> Sources(bs.value) == lines && forall b | b in bs.value :: b.source != []
    decreases |lines|
  {
    hide FirstBlock;
    if lines != [] {
      var b := FirstBlock(lines);
      if b.Some? {
        var n := |b.value.source|;
        BlocksCoverLines(lines[n..]);
        assert lines == lines[..n] + lines[n..];
        var rest := Blocks(lines[n..]);
        if rest.Some? {
          var bs := [b.value] + rest.value;
          assert bs[1..] == rest.value;
        }
      }
    }
  }

  function Shown(bs: seq<Block>): seq<Token> {
    if bs == [] then [] else (if bs[0].content.Blank? then [] else [Write(bs[0].content)]) + Shown(bs[1..])
  }

  function WithoutLists(ts: seq<Token>): seq<Token> {
    if ts == [] then [] else if ts[0].Write? then [ts[0]] + WithoutLists(ts[1..]) else WithoutLists(ts[1..])
  }

  lemma {:induction false} WithoutListsSplit(a: seq<Token>, b: seq<Token>)
    ensures WithoutLists(a + b) == WithoutLists(a) + WithoutLists(b)
  {
    if a == [] {
      assert a + b == b;
    } else {
      assert (a + b)[0] == a[0] && (a + b)[1..] == a[1..] + b;
      WithoutListsSplit(a[1..], b);
      assert [a[0]] + WithoutLists(a[1..]) + WithoutLists(b) == [a[0]] + (WithoutLists(a[1..]) + WithoutLists(b));
    }
  }

  lemma {:induction false} ClosingWritesNothing(open: seq<bool>, depth: nat)
    ensures WithoutLists(Closing(open, depth)) == []
    decreases |open|
  {
    if |open| > depth {
      ClosingWritesNothing(open[..|open| - 1], depth);
    }
  }

  lemma {:induction false} OpeningWritesNothing(ordered: bool, n: nat)
    ensures WithoutLists(Opening(ordered, n)) == []
  {
    if n > 0 {
      OpeningWritesNothing(ordered, n - 1);
    }
  }

  lemma OneWrite(c: Content)
    ensures WithoutLists([Write(c)]) == [Write(c)]
  {
    assert [Write(c)][1..] == [];
  }

  lemma TokensWrite(b: Block, open: seq<bool>)
    ensures WithoutLists(Tokens(b, open)) == if b.content.Blank? then [] else [Write(b.content)]
  {
    hide Closing, Opening, Kept, WithoutLists;
    OneWrite(b.content);
    ClosingWritesNothing(open, 0);
    match b.content
    case Bullet(item) =>
      var kept := Kept(open, item);
      ClosingWritesNothing(open, |kept|);
      OpeningWritesNothing(item.ordered, Depth(item) - |kept|);
      WithoutListsSplit(Closing(open, |kept|), Opening(item.ordered, Depth(item) - |kept|));
      WithoutListsSplit(Closing(open, |kept|) + Opening(item.ordered, Depth(item) - |kept|), [Write(b.content)]);
    case Blank =>
    case _ => WithoutListsSplit(Closing(open, 0), [Write(b.content)]);
  }

  /** Apart from the list tags, the output is the blocks' contents, each once and in order. */
  lemma {:induction false} EveryBlockIsWritten(bs: seq<Block>, open: seq<bool>)
    ensures WithoutLists(Emit(bs, open)) == Shown(bs)
    decreases |bs|
  {
    hide Tokens, OpenAfter, WithoutLists, Closing;
    if bs == [] {
      ClosingWritesNothing(open, 0);
    } else {
      EveryBlockIsWritten(bs[1..], OpenAfter(bs[0], open));
      TokensWrite(bs[0], open);
      WithoutListsSplit(Tokens(bs[0], open), Emit(bs[1..], OpenAfter(bs[0], open)));
    }
  }

  // ---- Lists ----

  /**
   * The tags of lists nest, at most two deep; an item is in a list of its own kind, at its own depth;
   * everything else is outside every list.
   */
  predicate WellNested(ts: seq<Token>, open: seq<bool>)
    decreases |ts|
  {
    if ts == [] then open == []
    else match ts[0]
      case OpenList(ordered) => |open| < 2 && WellNested(ts[1..], open + [ordered])
      case CloseList(ordered) => open != [] && open[|open| - 1] == ordered && WellNested(ts[1..], open[..|open| - 1])
      case Write(c) => IsAtHome(c, open) && WellNested(ts[1..], open)
  }

  predicate IsAtHome(c: Content, open: seq<bool>) {
    if c.Bullet? then |open| == Depth(c.item) && open[|open| - 1] == c.item.ordered else open == []
  }

  lemma CloseOneNests(open: seq<bool>, ts: seq<Token>)
    requires open != [] && WellNested(ts, open[..|open| - 1])
    ensures WellNested([CloseList(open[|open| - 1])] + ts, open)
  {
    assert ([CloseList(open[|open| - 1])] + ts)[1..] == ts;
  }

  lemma {:induction false} ClosingNests(open: seq<bool>, depth: nat, ts: seq<Token>)
    requires depth <= |open| && WellNested(ts, open[..depth])
    ensures WellNested(Closing(open, depth) + ts, open)
    decreases |open|
  {
    hide WellNested;
    if |open| <= depth {
      assert Closing(open, depth) + ts == ts && open[..depth] == open;
    } else {
      var shorter := open[..|open| - 1];
      assert shorter[..depth] == open[..depth];
      ClosingNests(shorter, depth, ts);
      CloseOneNests(open, Closing(shorter, depth) + ts);
      assert Closing(open, depth) + ts == [CloseList(open[|open| - 1])] + (Closing(shorter, depth) + ts);
    }
  }

  lemma OpenOneNests(open: seq<bool>, ordered: bool, ts: seq<Token>)
    requires |open| < 2 && WellNested(ts, open + [ordered])
    ensures WellNested([OpenList(ordered)] + ts, open)
  {
    assert ([OpenList(ordered)] + ts)[1..] == ts;
  }

  lemma {:induction false} OpeningNests(open: seq<bool>, ordered: bool, n: nat, ts: seq<Token>)
    requires |open| + n <= 2 && WellNested(ts, open + Repeat(ordered, n))
    ensures WellNested(Opening(ordered, n) + ts, open)
    decreases n
  {
    hide WellNested;
    if n == 0 {
      assert Opening(ordered, n) + ts == ts && open + Repeat(ordered, n) == open;
    } else {
      assert open + [ordered] + Repeat(ordered, n - 1) == open + Repeat(ordered, n);
      OpeningNests(open + [ordered], ordered, n - 1, ts);
      OpenOneNests(open, ordered, Opening(ordered, n - 1) + ts);
      assert Opening(ordered, n) + ts == [OpenList(ordered)] + (Opening(ordered, n - 1) + ts);
    }
  }

  lemma WriteNests(c: Content, open: seq<bool>, ts: seq<Token>)
    requires IsAtHome(c, open) && WellNested(ts, open)
    ensures WellNested([Write(c)] + ts, open)
  {
    assert ([Write(c)] + ts)[1..] == ts;
  }

  lemma {:induction false} RepeatLength(ordered: bool, n: nat)
    ensures |Repeat(ordered, n)| == n && forall k | 0 <= k < n :: Repeat(ordered, n)[k] == ordered
  {
    if n > 0 {
      RepeatLength(ordered, n - 1);
    }
  }

  lemma ItemIsAtHome(open: seq<bool>, item: Item)
    ensures IsAtHome(Bullet(item), OpenAfter(Block(Bullet(item), []), open))
    ensures var kept := Kept(open, item); kept == open[..|kept|]
  {
    hide Repeat;
    var kept := Kept(open, item);
    RepeatLength(item.ordered, Depth(item) - |kept|);
  }

  lemma ItemNests(open: seq<bool>, item: Item, ts: seq<Token>)
    requires WellNested(ts, OpenAfter(Block(Bullet(item), []), open))
    ensures WellNested(Tokens(Block(Bullet(item), []), open) + ts, open)
  {
    hide Closing, Opening, Repeat, WellNested, IsAtHome, Kept;
    var kept := Kept(open, item);
    var n := Depth(item) - |kept|;
    ItemIsAtHome(open, item);
    WriteNests(Bullet(item), kept + Repeat(item.ordered, n), ts);
    var written := [Write(Bullet(item))] + ts;
    OpeningNests(kept, item.ordered, n, written);
    ClosingNests(open, |kept|, Opening(item.ordered, n) + written);
    assert Tokens(Block(Bullet(item), []), open) + ts == Closing(open, |kept|) + (Opening(item.ordered, n) + written);
  }

  lemma BlockNests(b: Block, open: seq<bool>, ts: seq<Token>)
    requires WellNested(ts, OpenAfter(b, open))
    ensures WellNested(Tokens(b, open) + ts, open)
  {
    hide Closing, WellNested, Opening, Repeat, Kept;
    assert open[..0] == [];
    match b.content
    case Bullet(item) =>
      ItemNests(open, item, ts);
    case Blank =>
      ClosingNests(open, 0, ts);
    case _ =>
      WriteNests(b.content, [], ts);
      ClosingNests(open, 0, [Write(b.content)] + ts);
      assert Tokens(b, open) + ts == Closing(open, 0) + ([Write(b.content)] + ts);
  }

  /** Whatever the blocks, the output's list tags are balanced. */
  lemma {:induction false} OutputIsWellNested(bs: seq<Block>, open: seq<bool>)
    ensures WellNested(Emit(bs, open), open)
    decreases |bs|
  {
    hide WellNested, Tokens, OpenAfter, Closing;
    if bs == [] {
      NothingNests();
      assert open[..0] == [];
      ClosingNests(open, 0, []);
      assert Closing(open, 0) + [] == Closing(open, 0);
    } else {
      OutputIsWellNested(bs[1..], OpenAfter(bs[0], open));
      BlockNests(bs[0], open, Emit(bs[1..], OpenAfter(bs[0], open)));
    }
  }

  lemma NothingNests()
    ensures WellNested([], [])
  {
  }

  // ---- When it ends ----

  /** A line that starts a block for the paragraph loop and is none. */
  predicate IsTrap(line: string) { StartsBlock(line) && !IsFence(line) && HeadingOf(line).None? }

  /** Where a line stands, reading from the top one line at a time. */
  datatype Where = Outside | Fenced | Separator | Tabled | Prose

  /** Some line outside fences and tables is a trap. */
  predicate Traps(lines: seq<string>, w: Where)
    decreases |lines|, if w.Tabled? || w.Prose? then 1 else 0
  {
    if lines == [] then false
    else
      var line, rest := lines[0], lines[1..];
      match w
      case Fenced => Traps(rest, if IsClosingFence(line) then Outside else Fenced)
      case Separator => Traps(rest, Tabled)
      case Tabled => if IsTableRow(line) then Traps(rest, Tabled) else Traps(lines, Outside)
      case Prose => if InParagraph(line) then Traps(rest, Prose) else Traps(lines, Outside)
      case Outside =>
        if IsFence(line) then Traps(rest, Fenced)
        else if IsBlank(line) || HeadingOf(line).Some? then Traps(rest, Outside)
        else if StartsTable(lines) then Traps(rest, Separator)
        else if ListItem(line).Some? then Traps(rest, Outside)
        else IsTrap(line) || Traps(rest, Prose)
  }

  /** How many lines belong to the block that is being read. */
  function Resume(lines: seq<string>, w: Where): (n: nat)
    ensures n <= |lines|
  {
    match w
    case Outside => 0
    case Fenced => Min(Count((l: string) => !IsClosingFence(l), lines) + 1, |lines|)
    case Separator => if lines == [] then 0 else 1 + Count(IsTableRow, lines[1..])
    case Tabled => Count(IsTableRow, lines)
    case Prose => Count(InParagraph, lines)
  }

  lemma TrapIsNoItem(line: string)
    requires StartsBlock(line)
    ensures ListItem(line).None? && !IsBlank(line)
  {
    hide OneLine;
    assert line[0] == '#' || line[0] == '`';
    assert Span(IsSpace, line) == 0 && line[0..] == line;
    assert Span(IsDigit, line) == 0;
  }

  lemma TrapIsPlain(line: string)
    ensures IsTrap(line) ==> ListItem(line).None? && !IsBlank(line)
    ensures !IsFence(line) && !IsBlank(line) && HeadingOf(line).None? && ListItem(line).None? ==>
              (IsTrap(line) <==> !InParagraph(line))
  {
    hide IsFence, HeadingOf, ListItem, StartsBlock, IsBlank;
    if StartsBlock(line) {
      TrapIsNoItem(line);
    }
  }

  /** What is left when the block that is being read is done, one line further. */
  function Rest(lines: seq<string>, w: Where): seq<string> { lines[Resume(lines, w)..] }

  lemma RestStep(lines: seq<string>, w: Where)
    requires lines != []
    ensures var line, rest := lines[0], lines[1..];
            Rest(lines, w) ==
            match w
            case Outside => lines
            case Fenced => if IsClosingFence(line) then rest else Rest(rest, Fenced)
            case Separator => Rest(rest, Tabled)
            case Tabled => if IsTableRow(line) then Rest(rest, Tabled) else lines
            case Prose => if InParagraph(line) then Rest(rest, Prose) else lines
  {
    hide IsClosingFence, IsTableRow, InParagraph;
  }

  /** What is left when the first block is done. */
  lemma AfterFirst(lines: seq<string>)
    requires lines != []
    ensures var line, b := lines[0], FirstBlock(lines);
            b.None? <==> IsPlain(lines) && ListItem(line).None? && IsTrap(line)
    ensures var line, rest, b := lines[0], lines[1..], FirstBlock(lines);
            b.None? || lines[|b.value.source|..] ==
            if IsFence(line) then Rest(rest, Fenced)
            else if IsBlank(line) || HeadingOf(line).Some? then rest
            else if StartsTable(lines) then Rest(rest, Separator)
            else if ListItem(line).Some? then rest
            else Rest(rest, Prose)
  {
    hide IsClosingFence, IsFence, IsTableRow, InParagraph, IsBlank, HeadingOf, ListItem, StartsTable, IsTrap,
        SplitTableRow, Rows, Rest, Count;
    var rest := lines[1..];
    TrapIsPlain(lines[0]);
    TableHasTwo(lines);
    AfterFence(lines);
    AfterTable(lines);
    AfterProse(lines);
  }

  lemma TableHasTwo(lines: seq<string>)
    requires lines != []
    ensures StartsTable(lines) ==> |lines| > 1
  {
  }

  lemma AfterFence(lines: seq<string>)
    requires lines != []
    ensures var n := Count((l: string) => !IsClosingFence(l), lines[1..]);
            lines[Min(n + 2, |lines|)..] == Rest(lines[1..], Fenced)
  {
    hide IsClosingFence, Count;
    var n := Count((l: string) => !IsClosingFence(l), lines[1..]);
    assert Resume(lines[1..], Fenced) == Min(n + 1, |lines| - 1);
  }

  lemma AfterTable(lines: seq<string>)
    requires lines != []
    ensures |lines| > 1 ==> lines[Count(IsTableRow, lines[2..]) + 2..] == Rest(lines[1..], Separator)
  {
    hide IsTableRow, Count;
    if |lines| > 1 {
      assert lines[1..][1..] == lines[2..];
    }
  }

  lemma AfterProse(lines: seq<string>)
    requires lines != []
    ensures InParagraph(lines[0]) ==> lines[Count(InParagraph, lines)..] == Rest(lines[1..], Prose)
    ensures InParagraph(lines[0]) <==> Count(InParagraph, lines) > 0
  {
    hide InParagraph;
  }

  lemma NoneLeft(lines: seq<string>)
    requires lines != []
    ensures var b := FirstBlock(lines); Blocks(lines).None? <==> b.None? || Blocks(lines[|b.value.source|..]).None?
  {
    hide FirstBlock;
  }

  lemma {:induction false} ScanInside(lines: seq<string>, w: Where)
    requires !w.Outside?
    ensures Traps(lines, w) <==> Blocks(Rest(lines, w)).None?
    decreases |lines|, 1
  {
    hide Blocks, IsClosingFence, IsFence, IsTableRow, InParagraph, IsBlank, HeadingOf, ListItem, StartsTable, IsTrap,
        Rest;
    if lines == [] {
      NoLines(w);
    } else {
      var rest := lines[1..];
      RestStep(lines, w);
      match w {
        case Fenced =>
          ScanInside(rest, Fenced);
          ScanOutside(rest);
        case Separator => ScanInside(rest, Tabled);
        case Tabled =>
          ScanInside(rest, Tabled);
          ScanOutside(lines);
        case Prose =>
          ScanInside(rest, Prose);
          ScanOutside(lines);
      }
    }
  }

  lemma NoLines(w: Where)
    ensures Rest([], w) == [] && Blocks([]).Some? && !Traps([], w)
  {
  }

  lemma {:induction false} ScanOutside(lines: seq<string>)
    ensures Traps(lines, Outside) <==> Blocks(lines).None?
    decreases |lines|, 0
  {
    hide Blocks, FirstBlock, IsClosingFence, IsFence, IsTableRow, InParagraph, IsBlank, HeadingOf, ListItem,
        StartsTable, IsTrap, Rest;
    if lines == [] {
      NoLines(Outside);
    } else {
      var rest := lines[1..];
      AfterFirst(lines);
      NoneLeft(lines);
      ScanOutside(rest);
      ScanInside(rest, Fenced);
      ScanInside(rest, Separator);
      ScanInside(rest, Prose);
      TrapIsPlain(lines[0]);
    }
  }

  /** The program never comes to an end if and only if some line outside fences and tables is a trap. */
  lemma HangsIff(lines: seq<string>)
    ensures Rendered(lines).None? <==> Traps(lines, Outside)
  {
    hide Blocks, Traps, Emit;
    ScanOutside(lines);
  }

  /**
   * A text none of whose lines is a trap is rendered: its blocks cover its lines, everything but blank
   * lines is written in order, and the lists nest.
   */
  lemma PlainTextIsRendered(lines: seq<string>)
    requires forall line | line in lines :: !IsTrap(line)
    ensures Rendered(lines).Some? && Blocks(lines).Some?
    ensures var out, bs := Rendered(lines).value, Blocks(lines).value;
            WellNested(out, []) && WithoutLists(out) == Shown(bs) && Sources(bs) == lines
  {
    hide Traps, IsTrap, Blocks, WellNested, Emit, Sources, WithoutLists, Shown;
    NoTraps(lines, Outside);
    ScanOutside(lines);
    var bs := Blocks(lines).value;
    BlocksCoverLines(lines);
    EveryBlockIsWritten(bs, []);
    OutputIsWellNested(bs, []);
    assert [] + Emit(bs, []) == Emit(bs, []);
  }

  lemma {:induction false} NoTraps(lines: seq<string>, w: Where)
    requires forall line | line in lines :: !IsTrap(line)
    ensures !Traps(lines, w)
    decreases |lines|, if w.Tabled? || w.Prose? then 1 else 0
  {
    hide IsTrap, IsClosingFence, IsFence, IsTableRow, InParagraph, IsBlank, HeadingOf, ListItem, StartsTable;
    if lines != [] {
      var rest := lines[1..];
      assert lines[0] in lines;
      match w {
        case Fenced =>
          NoTraps(rest, Outside);
          NoTraps(rest, Fenced);
        case Separator => NoTraps(rest, Tabled);
        case Tabled =>
          NoTraps(rest, Tabled);
          NoTraps(lines, Outside);
        case Prose =>
          NoTraps(rest, Prose);
          NoTraps(lines, Outside);
        case Outside =>
          NoTraps(rest, Fenced);
          NoTraps(rest, Outside);
          NoTraps(rest, Separator);
          NoTraps(rest, Prose);
      }
    }
  }

  /** A line of three backticks and more than a word, or a heading with a line terminator, is a trap. */
  lemma TrapIff(line: string)
    ensures IsTrap(line) <==>
            || (HasTicks(line) && !IsFence(line))
            || (StartsHeading(line) && Spaced(line[Hashes(line)..]).None?)
  {
    hide Spaced;
    if HasTicks(line) {
      assert line[0] == '`';
      assert Hashes(line) == 0;
    }
    if StartsHeading(line) {
      assert line[0] == '#';
    }
  }

  /** A heading whose line ends in a carriage return hangs the program, unless it has no text. */
  lemma CarriageReturnHangs(title: string, more: seq<string>)
    requires '|' !in title
    ensures Rendered(["# " + title + "\r"] + more).None? || AllSpace(title)
  {
    hide Traps, Rendered;
    var line := "# " + title + "\r";
    if !AllSpace(title) {
      HeadingTrap(title);
      HangsIff([line] + more);
      TrapFirst([line] + more);
    }
  }

  lemma HeadingTrap(title: string)
    requires !AllSpace(title) && '|' !in title
    ensures IsTrap("# " + title + "\r") && '|' !in "# " + title + "\r"
  {
    hide IsFence;
    var line := "# " + title + "\r";
    var at :| 0 <= at < |title| && !IsSpace(title[at]);
    SpanUnique(IsHash, line, 1);
    var s := line[1..];
    assert s == " " + title + "\r";
    var k := Span(IsSpace, s);
    assert s[1 + at] == title[at];
    assert k <= 1 + at;
    assert s[k..][|s| - 1 - k] == '\r';
    assert Spaced(s).None?;
    assert StartsHeading(line);
    TrapIff(line);
    assert '|' !in line;
  }

  lemma TrapFirst(lines: seq<string>)
    requires lines != [] && IsTrap(lines[0]) && '|' !in lines[0]
    ensures Traps(lines, Outside)
  {
    hide StartsBlock, IsFence, HeadingOf, ListItem, IsBlank, IsTableSeparatorRow;
    TrapIsPlain(lines[0]);
  }
}
