/** Which blocks a text has, said without reading it: what each block's lines look like, and what may follow. */
module MarkdownReading {
  import opened Text
  import opened Markdown
  import opened MarkdownProperties

  // ---- One line ----

  predicate AllAre(p: char -> bool, s: string) { forall k | 0 <= k < |s| :: p(s[k]) }

  predicate IsText(s: string) { OneLine(s) && (s == "" || !IsSpace(s[0])) }

  predicate IsGap(s: string) { s != "" && AllSpace(s) }

  /** One to six hashes, white space and the text; the page's own headings take the first two levels. */
  ghost predicate SpellsHeading(line: string, h: Heading) {
    exists hashes: string, gap: string :: line == hashes + (gap + h.text) && IsHeading(hashes, gap, h)
  }

  predicate IsHeading(hashes: string, gap: string, h: Heading) {
    && 1 <= |hashes| <= 6 && AllAre(IsHash, hashes) && IsGap(gap) && IsText(h.text)
    && h.level == (if |hashes| <= 4 then |hashes| + 2 else 6)
  }

  predicate IsMarker(marker: string, ordered: bool) {
    if ordered then |marker| >= 2 && AllAre(IsDigit, marker[..|marker| - 1]) && marker[|marker| - 1] == '.'
    else marker == "-" || marker == "*"
  }

  /** Indentation, a dash, a star or a number, white space and the text. */
  ghost predicate SpellsItem(line: string, item: Item) {
    exists indent: string, marker: string, gap: string ::
      line == indent + (marker + (gap + item.text)) && IsItem(indent, marker, gap, item)
  }

  predicate IsItem(indent: string, marker: string, gap: string, item: Item) {
    && AllSpace(indent) && (item.deep <==> indent != "")
    && IsMarker(marker, item.ordered) && IsGap(gap) && IsText(item.text)
  }

  /** Three backticks, perhaps a word, and white space. */
  ghost predicate SpellsFence(line: string) {
    exists word: string, gap: string :: line == "```" + (word + gap) && AllAre(IsWord, word) && AllSpace(gap)
  }

  lemma SpanOfPair(p: char -> bool, a: string, b: string)
    requires AllAre(p, a) && (b == "" || !p(b[0]))
    ensures Span(p, a + b) == |a| && (a + b)[..|a|] == a && (a + b)[|a|..] == b
  {
    SpanUnique(p, a + b, |a|);
  }

  lemma SpacedIff(s: string, text: string)
    ensures Spaced(s) == Some(text) <==> exists gap: string :: s == gap + text && IsGap(gap) && IsText(text)
  {
    var k := Span(IsSpace, s);
    if Spaced(s) == Some(text) {
      assert s == s[..k] + text && IsGap(s[..k]);
    }
    if gap: string :| s == gap + text && IsGap(gap) && IsText(text) {
      SpanOfPair(IsSpace, gap, text);
    }
  }

  lemma HeadingIff(line: string, h: Heading)
    ensures HeadingOf(line) == Some(h) <==> SpellsHeading(line, h)
  {
    hide OneLine, Spaced;
    var n := Hashes(line);
    SpacedIff(line[n..], h.text);
    if HeadingOf(line) == Some(h) {
      var gap: string :| line[n..] == gap + h.text && IsGap(gap) && IsText(h.text);
      assert line == line[..n] + (gap + h.text) && IsHeading(line[..n], gap, h);
    }
    if SpellsHeading(line, h) {
      var hashes: string, gap: string :| line == hashes + (gap + h.text) && IsHeading(hashes, gap, h);
      assert IsSpace((gap + h.text)[0]);
      SpanOfPair(IsHash, hashes, gap + h.text);
    }
  }

  lemma FenceIff(line: string)
    ensures IsFence(line) <==> SpellsFence(line)
  {
    if IsFence(line) {
      var rest := line[3..];
      var n := Span(IsWord, rest);
      assert rest == rest[..n] + rest[n..];
      assert line == "```" + (rest[..n] + rest[n..]);
    }
    if SpellsFence(line) {
      var word: string, gap: string :| line == "```" + (word + gap) && AllAre(IsWord, word) && AllSpace(gap);
      assert line[..3] == "```" && line[3..] == word + gap;
      assert gap != "" ==> IsSpace(gap[0]);
      SpanOfPair(IsWord, word, gap);
    }
  }

  /** The marker, read from the text after the indentation. */
  lemma MarkerIff(rest: string, ordered: bool, n: nat)
    requires n <= |rest|
    ensures var d := Span(IsDigit, rest);
            var bullet := rest != "" && (rest[0] == '-' || rest[0] == '*');
            var number := !bullet && d >= 1 && d < |rest| && rest[d] == '.';
            IsMarker(rest[..n], ordered) <==>
              if ordered then number && n == d + 1 else bullet && n == 1
  {
    if ordered && IsMarker(rest[..n], ordered) {
      assert rest == rest[..n - 1] + rest[n - 1..];
      assert rest[..n][..n - 1] == rest[..n - 1];
      SpanOfPair(IsDigit, rest[..n - 1], rest[n - 1..]);
      assert IsDigit(rest[0]);
    }
  }

  lemma ItemIsSpelled(line: string, item: Item)
    requires ListItem(line) == Some(item)
    ensures SpellsItem(line, item)
  {
    hide ListItem, OneLine, Spaced, IsText, IsGap, IsMarker, Span, AllSpace;
    var w := Span(IsSpace, line);
    var rest := line[w..];
    var n := ItemParts(line, item);
    SpacedIff(rest[n..], item.text);
    var gap: string :| rest[n..] == gap + item.text && IsGap(gap) && IsText(item.text);
    Assemble(rest, n, gap, item.text);
    Assemble(line, w, rest[..n], gap + item.text);
    assert line == line[..w] + (rest[..n] + (gap + item.text)) && IsItem(line[..w], rest[..n], gap, item);
  }

  lemma Assemble(s: string, n: nat, a: string, b: string)
    requires n <= |s| && s[n..] == a + b
    ensures s == s[..n] + (a + b)
  {
  }

  lemma ItemParts(line: string, item: Item) returns (n: nat)
    requires ListItem(line) == Some(item)
    ensures var w := Span(IsSpace, line);
            var rest := line[w..];
            && AllSpace(line[..w]) && (item.deep <==> line[..w] != "") && n <= |rest|
            && IsMarker(rest[..n], item.ordered) && Spaced(rest[n..]) == Some(item.text)
  {
    hide OneLine, Spaced, IsMarker;
    var rest := line[Span(IsSpace, line)..];
    n := if item.ordered then Span(IsDigit, rest) + 1 else 1;
    MarkerIff(rest, item.ordered, n);
  }

  lemma SpelledIsItem(indent: string, marker: string, gap: string, item: Item)
    requires IsItem(indent, marker, gap, item)
    ensures ListItem(indent + (marker + (gap + item.text))) == Some(item)
  {
    hide OneLine, Spaced, IsText, IsGap, IsMarker;
    var rest := marker + (gap + item.text);
    MarkerStarts(marker, item.ordered, gap + item.text);
    SpanOfPair(IsSpace, indent, rest);
    assert rest[..|marker|] == marker && rest[|marker|..] == gap + item.text;
    MarkerIff(rest, item.ordered, |marker|);
    SpacedIff(rest[|marker|..], item.text);
  }

  lemma ItemIff(line: string, item: Item)
    ensures ListItem(line) == Some(item) <==> SpellsItem(line, item)
  {
    hide ListItem, IsItem;
    if ListItem(line) == Some(item) {
      ItemIsSpelled(line, item);
    }
    if SpellsItem(line, item) {
      var indent: string, marker: string, gap: string :|
        line == indent + (marker + (gap + item.text)) && IsItem(indent, marker, gap, item);
      SpelledIsItem(indent, marker, gap, item);
    }
  }

  lemma MarkerStarts(marker: string, ordered: bool, rest: string)
    requires IsMarker(marker, ordered)
    ensures marker + rest != "" && !IsSpace((marker + rest)[0])
  {
    assert (marker + rest)[0] == marker[0];
    if ordered {
      assert marker[0] == marker[..|marker| - 1][0];
    }
  }

  /** Three backticks and white space. */
  ghost predicate SpellsClosing(line: string) { exists gap: string :: line == "```" + gap && AllSpace(gap) }

  lemma ClosingIff(line: string)
    ensures IsClosingFence(line) <==> SpellsClosing(line)
  {
    if IsClosingFence(line) {
      assert line == "```" + line[3..];
    }
    if gap: string :| line == "```" + gap && AllSpace(gap) {
      assert line[..3] == "```" && line[3..] == gap;
    }
  }

  /** One to six hashes and a white space, or three backticks. */
  ghost predicate Interrupts(line: string) {
    || "```" <= line
    || exists hashes: string, c: char, rest: string ::
         line == hashes + ([c] + rest) && 1 <= |hashes| <= 6 && AllAre(IsHash, hashes) && IsSpace(c)
  }

  /** What goes on with a paragraph: no blank line, no item of a list and nothing that interrupts. */
  ghost predicate IsProse(line: string) {
    !AllSpace(line) && (forall item :: !SpellsItem(line, item)) && !Interrupts(line)
  }

  lemma HashesInterrupt(hashes: string, c: char, rest: string)
    requires 1 <= |hashes| <= 6 && AllAre(IsHash, hashes) && IsSpace(c)
    ensures StartsHeading(hashes + ([c] + rest))
  {
    hide IsSpace;
    assert !IsHash(c) by {
      SpaceIsNoHash(c);
    }
    SpanOfPair(IsHash, hashes, [c] + rest);
  }

  lemma SpaceIsNoHash(c: char)
    requires IsSpace(c)
    ensures !IsHash(c)
  {
  }

  lemma HeadingInterrupts(line: string)
    requires StartsHeading(line)
    ensures Interrupts(line)
  {
    hide IsSpace;
    var n := Hashes(line);
    var hashes, c, rest := line[..n], line[n], line[n + 1..];
    assert line == hashes + ([c] + rest);
    assert AllAre(IsHash, hashes);
  }

  lemma InterruptsIff(line: string)
    ensures StartsBlock(line) <==> Interrupts(line)
  {
    hide StartsHeading, AllAre, IsSpace;
    if StartsHeading(line) {
      HeadingInterrupts(line);
    }
    if hashes: string, c: char, rest: string :|
      line == hashes + ([c] + rest) && 1 <= |hashes| <= 6 && AllAre(IsHash, hashes) && IsSpace(c) {
      HashesInterrupt(hashes, c, rest);
    }
  }

  lemma ProseIff(line: string)
    ensures InParagraph(line) <==> IsProse(line)
  {
    hide ListItem, SpellsItem, StartsBlock, Interrupts;
    InterruptsIff(line);
    forall item
      ensures ListItem(line) == Some(item) <==> SpellsItem(line, item)
    {
      ItemIff(line, item);
    }
    if ListItem(line).Some? {
      assert SpellsItem(line, ListItem(line).value);
    }
  }

  // ---- One row ----

  /** Dashes, and perhaps a colon at either end. */
  ghost predicate SpellsRule(cell: string) {
    exists left: string, dashes: string, right: string ::
      cell == left + (dashes + right) && IsColon(left) && IsColon(right) && dashes != "" && AllAre(IsDash, dashes)
  }

  predicate IsColon(s: string) { s == "" || s == ":" }

  predicate IsDash(c: char) { c == '-' }

  lemma RuleIsSpelled(cell: string)
    requires IsRule(cell)
    ensures SpellsRule(cell)
  {
    var a := AfterColon(cell);
    var dashes := BeforeColon(a);
    var left, right := if a == cell then "" else ":", if dashes == a then "" else ":";
    assert cell == left + a;
    assert a == dashes + right;
    assert AllAre(IsDash, dashes);
  }

  lemma SpelledIsRule(left: string, dashes: string, right: string)
    requires IsColon(left) && IsColon(right) && dashes != "" && AllAre(IsDash, dashes)
    ensures IsRule(left + (dashes + right))
  {
    var a := dashes + right;
    var cell := left + a;
    assert cell[|left|..] == a;
    assert a[0] == '-' && (left == "" ==> cell[0] == a[0]);
    assert right == "" ==> a == dashes;
    assert a[..|dashes|] == dashes;
  }

  lemma RuleIff(cell: string)
    ensures IsRule(cell) <==> SpellsRule(cell)
  {
    hide IsRule, IsColon, AllAre;
    if IsRule(cell) {
      RuleIsSpelled(cell);
    }
    if left: string, dashes: string, right: string :|
      cell == left + (dashes + right) && IsColon(left) && IsColon(right) && dashes != "" && AllAre(IsDash, dashes) {
      SpelledIsRule(left, dashes, right);
    }
  }

  predicate IsEscaped(part: string, k: nat, escaped: bool)
    requires k < |part|
  {
    if k == 0 then escaped else part[k - 1] == '\\'
  }

  /** A pipe in a part of a row has a backslash before it. */
  predicate IsPart(part: string, escaped: bool) {
    forall k | 0 <= k < |part| && part[k] == '|' :: IsEscaped(part, k, escaped)
  }

  /** What stands before a pipe between two parts is no backslash. */
  predicate MayEnd(part: string, escaped: bool) {
    if part == "" then !escaped else part[|part| - 1] != '\\'
  }

  /** The parts are those between the pipes that no backslash precedes. */
  lemma {:induction false} PartsAre(s: string, escaped: bool)
    ensures var parts := SplitPipes(s, escaped);
            && Join(parts, '|') == s
            && (forall k | 0 <= k < |parts| :: IsPart(parts[k], k == 0 && escaped))
            && (forall k | 0 <= k < |parts| - 1 :: MayEnd(parts[k], k == 0 && escaped))
  {
    hide Join, IsPart, MayEnd;
    if s == "" {
      JoinOne("", '|');
      NoPart(escaped);
    } else {
      var before := s[0] == '\\';
      var rest := SplitPipes(s[1..], before);
      PartsAre(s[1..], before);
      JoinSep(rest, '|');
      JoinChar(s[0], rest, '|');
      assert s == [s[0]] + s[1..];
      if s[0] == '|' && !escaped {
        NoPart(escaped);
      } else {
        OnePart(s[0], rest[0], escaped);
      }
    }
  }

  lemma NoPart(escaped: bool)
    ensures IsPart("", escaped) && (!escaped ==> MayEnd("", escaped))
  {
  }

  lemma OnePart(c: char, part: string, escaped: bool)
    requires IsPart(part, c == '\\') && (c == '|' ==> escaped)
    ensures IsPart([c] + part, escaped)
    ensures MayEnd(part, c == '\\') ==> MayEnd([c] + part, escaped)
  {
    var p := [c] + part;
    forall k | 0 <= k < |p| && p[k] == '|'
      ensures IsEscaped(p, k, escaped)
    {
      if k > 0 {
        assert p[k] == part[k - 1] && IsEscaped(part, k - 1, c == '\\');
      }
    }
  }

  // ---- One block ----

  ghost predicate IsSeparator(line: string) {
    '|' in line && SplitTableRow(line) != [] && forall c | c in SplitTableRow(line) :: SpellsRule(c)
  }

  lemma SeparatorIff(line: string)
    ensures IsTableSeparatorRow(line) <==> IsSeparator(line)
  {
    hide SplitTableRow, IsRule, SpellsRule;
    forall c: string
      ensures IsRule(c) <==> SpellsRule(c)
    {
      RuleIff(c);
    }
  }

  /** A line with a pipe, and one of rules below it. */
  ghost predicate OpensTable(lines: seq<string>) { |lines| > 1 && '|' in lines[0] && IsSeparator(lines[1]) }

  predicate IsRow(line: string) { '|' in line && !AllSpace(line) }

  predicate IsRowOf(line: string, cells: seq<string>) { IsRow(line) && cells == SplitTableRow(line) }

  predicate IsReadRow(line: string, cells: seq<string>) { IsTableRow(line) && cells == SplitTableRow(line) }

  /** A block's lines are what its content says, and the block is as long as it can be. */
  ghost predicate IsBlock(b: Block, rest: seq<string>) {
    var src := b.source;
    match b.content
    case Fence(body) => IsFenced(body, src, rest)
    case Blank => |src| == 1 && AllSpace(src[0])
    case Title(h) => |src| == 1 && SpellsHeading(src[0], h)
    case Table(head, rows) => IsTabled(head, rows, src) && (rest != [] ==> !IsRow(rest[0]))
    case Bullet(item) => |src| == 1 && SpellsItem(src[0], item) && !OpensTable(src + rest)
    case Paragraph(ls) =>
      && src == ls && ls != [] && (forall l | l in ls :: IsProse(l))
      && (rest != [] ==> !IsProse(rest[0])) && !OpensTable(src + rest)
  }

  ghost predicate NoneCloses(body: seq<string>) { forall l | l in body :: !SpellsClosing(l) }

  lemma NoneClosesIff(body: seq<string>)
    ensures NoneCloses(body) <==> forall l | l in body :: !IsClosingFence(l)
  {
    hide IsClosingFence, SpellsClosing;
    forall l: string
      ensures IsClosingFence(l) <==> SpellsClosing(l)
    {
      ClosingIff(l);
    }
  }

  /** The lines between the fences, of which the second may be missing at the end of the text. */
  ghost predicate IsFenced(body: seq<string>, src: seq<string>, rest: seq<string>) {
    && NoneCloses(body) && |src| > |body| && SpellsFence(src[0]) && src[1..|body| + 1] == body
    && (if |src| == |body| + 1 then rest == [] else |src| == |body| + 2 && SpellsClosing(src[|body| + 1]))
  }

  /** A first row that is no heading, a row of rules, and then a row a line. */
  ghost predicate IsTabled(head: seq<string>, rows: seq<seq<string>>, src: seq<string>) {
    && |src| == |rows| + 2 && OpensTable(src)
    && head == SplitTableRow(src[0]) && (forall h :: !SpellsHeading(src[0], h))
    && forall k | 0 <= k < |rows| :: IsRowOf(src[k + 2], rows[k])
  }

  /** The same, in the program's own terms. */
  ghost predicate IsRead(b: Block, rest: seq<string>) {
    var src := b.source;
    match b.content
    case Fence(body) => IsReadFence(body, src, rest)
    case Blank => |src| == 1 && IsBlank(src[0])
    case Title(h) => |src| == 1 && HeadingOf(src[0]) == Some(h)
    case Table(head, rows) => IsReadTable(head, rows, src) && (rest != [] ==> !IsTableRow(rest[0]))
    case Bullet(item) => |src| == 1 && ListItem(src[0]) == Some(item) && !StartsTable(src + rest)
    case Paragraph(ls) =>
      && src == ls && ls != [] && (forall l | l in ls :: InParagraph(l))
      && (rest != [] ==> !InParagraph(rest[0])) && !StartsTable(src + rest)
  }

  ghost predicate IsReadFence(body: seq<string>, src: seq<string>, rest: seq<string>) {
    && (forall l | l in body :: !IsClosingFence(l))
    && |src| > |body| && IsFence(src[0]) && src[1..|body| + 1] == body
    && (if |src| == |body| + 1 then rest == [] else |src| == |body| + 2 && IsClosingFence(src[|body| + 1]))
  }

  ghost predicate IsReadTable(head: seq<string>, rows: seq<seq<string>>, src: seq<string>) {
    && |src| == |rows| + 2 && StartsTable(src)
    && head == SplitTableRow(src[0]) && HeadingOf(src[0]).None?
    && forall k | 0 <= k < |rows| :: IsReadRow(src[k + 2], rows[k])
  }

  lemma OpensTableIff(lines: seq<string>)
    ensures StartsTable(lines) <==> OpensTable(lines)
  {
    hide IsTableSeparatorRow, IsSeparator;
    if |lines| > 1 {
      SeparatorIff(lines[1]);
    }
  }

  lemma NoHeadingIff(line: string)
    ensures HeadingOf(line).None? <==> forall h :: !SpellsHeading(line, h)
  {
    hide HeadingOf, SpellsHeading;
    forall h
      ensures HeadingOf(line) == Some(h) <==> SpellsHeading(line, h)
    {
      HeadingIff(line, h);
    }
    if HeadingOf(line).Some? {
      assert SpellsHeading(line, HeadingOf(line).value);
    }
  }

  lemma TabledIff(head: seq<string>, rows: seq<seq<string>>, src: seq<string>)
    ensures IsTabled(head, rows, src) <==> IsReadTable(head, rows, src)
  {
    hide HeadingOf, SpellsHeading, StartsTable, OpensTable, SplitTableRow, AllSpace;
    OpensTableIff(src);
    if src != [] {
      NoHeadingIff(src[0]);
    }
  }

  lemma FencedIff(body: seq<string>, src: seq<string>, rest: seq<string>)
    ensures IsFenced(body, src, rest) <==> IsReadFence(body, src, rest)
  {
    hide IsFence, IsClosingFence, SpellsFence, SpellsClosing, NoneCloses;
    NoneClosesIff(body);
    if |src| > |body| {
      FenceIff(src[0]);
      if |src| == |body| + 2 {
        ClosingIff(src[|body| + 1]);
      }
    }
  }

  lemma ParagraphIff(ls: seq<string>, src: seq<string>, rest: seq<string>)
    ensures var b := Block(Paragraph(ls), src); IsBlock(b, rest) <==> IsRead(b, rest)
  {
    hide InParagraph, IsProse, StartsTable, OpensTable;
    forall l: string
      ensures InParagraph(l) <==> IsProse(l)
    {
      ProseIff(l);
    }
    OpensTableIff(src + rest);
  }

  lemma BlockIff(b: Block, rest: seq<string>)
    ensures IsBlock(b, rest) <==> IsRead(b, rest)
  {
    hide HeadingOf, SpellsHeading, ListItem, SpellsItem, StartsTable, OpensTable, IsTabled, IsReadTable, IsFenced,
        IsReadFence, IsClosingFence, IsFence, InParagraph, IsProse, AllSpace;
    var src := b.source;
    match b.content
    case Fence(body) => FencedIff(body, src, rest);
    case Blank =>
    case Title(h) =>
      if src != [] {
        HeadingIff(src[0], h);
      }
    case Table(head, rows) => TabledIff(head, rows, src);
    case Bullet(item) =>
      if src != [] {
        ItemIff(src[0], item);
      }
      OpensTableIff(src + rest);
    case Paragraph(ls) => ParagraphIff(ls, src, rest);
  }

  lemma {:induction false} RowsAre(lines: seq<string>)
    ensures |Rows(lines)| == |lines| && forall k | 0 <= k < |lines| :: Rows(lines)[k] == SplitTableRow(lines[k])
  {
    hide SplitTableRow;
    if lines != [] {
      RowsAre(lines[1..]);
    }
  }

  lemma SameRows(a: seq<seq<string>>, b: seq<seq<string>>)
    requires |a| == |b| && forall k | 0 <= k < |a| :: a[k] == b[k]
    ensures a == b
  {
  }

  // ---- The first block ----

  lemma FencesAreApart(line: string)
    requires IsFence(line)
    ensures !IsBlank(line) && HeadingOf(line).None? && ListItem(line).None? && '|' !in line
  {
    hide ListItem, HeadingOf;
    assert line[0] == '`';
    NoItem(line);
    FenceHasNoPipe(line);
  }

  lemma NoItem(line: string)
    requires line != "" && (line[0] == '`' || line[0] == '#')
    ensures !IsBlank(line) && ListItem(line).None? && (line[0] == '`' ==> HeadingOf(line).None?)
  {
    hide OneLine, Spaced;
    assert Span(IsSpace, line) == 0 && line[0..] == line;
    assert Span(IsDigit, line) == 0;
  }

  lemma FenceHasNoPipe(line: string)
    requires IsFence(line)
    ensures '|' !in line
  {
    var rest := line[3..];
    var n := Span(IsWord, rest);
    assert rest == rest[..n] + rest[n..];
    assert line == "```" + rest;
  }

  lemma HeadingsAreApart(line: string)
    requires HeadingOf(line).Some?
    ensures !IsBlank(line) && ListItem(line).None?
  {
    hide ListItem, Spaced;
    assert line[0] == '#';
    NoItem(line);
  }

  lemma BlanksAreApart(line: string)
    requires IsBlank(line)
    ensures '|' !in line && ListItem(line).None?
  {
    SpanUnique(IsSpace, line, |line|);
  }

  lemma ProseIsApart(line: string)
    requires InParagraph(line)
    ensures !IsFence(line) && !IsBlank(line) && HeadingOf(line).None? && ListItem(line).None?
  {
    hide ListItem, Spaced, Hashes;
  }

  lemma FirstIsRead(lines: seq<string>)
    requires lines != [] && FirstBlock(lines).Some?
    ensures var b := FirstBlock(lines).value; IsRead(b, lines[|b.source|..])
  {
    hide IsFence, IsBlank, HeadingOf, StartsTable, ListItem, InParagraph, IsTableRow, IsClosingFence, Rows,
        SplitTableRow, IsReadTable;
    var b := FirstBlock(lines).value;
    assert lines == b.source + lines[|b.source|..];
    if b.content.Table? {
      FirstTable(lines);
    }
  }

  lemma FirstTable(lines: seq<string>)
    requires StartsTable(lines) && HeadingOf(lines[0]).None?
    ensures var n := Count(IsTableRow, lines[2..]);
            IsReadTable(SplitTableRow(lines[0]), Rows(lines[2..][..n]), lines[..n + 2])
  {
    hide IsTableRow, Rows, SplitTableRow, IsTableSeparatorRow, HeadingOf;
    RowsAre(lines[2..][..Count(IsTableRow, lines[2..])]);
  }

  // ---- Blocks are the first block ----

  lemma CountUnique(p: string -> bool, lines: seq<string>, n: nat)
    requires n <= |lines| && (forall k | 0 <= k < n :: p(lines[k])) && (n < |lines| ==> !p(lines[n]))
    ensures Count(p, lines) == n
  {
  }

  lemma FenceIsFirst(b: Block, rest: seq<string>)
    requires b.content.Fence? && IsRead(b, rest)
    ensures FirstBlock(b.source + rest) == Some(b)
  {
    hide IsFence, IsClosingFence;
    var src, body := b.source, b.content.body;
    var lines := src + rest;
    var inside := lines[1..];
    var open := (l: string) => !IsClosingFence(l);
    assert inside[..|body|] == body;
    assert |src| == |body| + 2 ==> inside[|body|] == src[|body| + 1];
    forall k | 0 <= k < |body|
      ensures open(inside[k])
    {
      assert inside[k] == body[k];
    }
    CountUnique(open, inside, |body|);
    assert lines[..|src|] == src;
  }

  lemma TableIsFirst(b: Block, rest: seq<string>)
    requires b.content.Table? && IsRead(b, rest)
    ensures FirstBlock(b.source + rest) == Some(b)
  {
    hide IsFence, IsBlank, IsTableRow, SplitTableRow, IsTableSeparatorRow, HeadingOf, Rows;
    var src, rows := b.source, b.content.rows;
    var lines := src + rest;
    assert lines[0] == src[0] && lines[1] == src[1];
    if IsFence(src[0]) {
      FencesAreApart(src[0]);
    }
    if IsBlank(src[0]) {
      BlanksAreApart(src[0]);
    }
    var body := lines[2..];
    assert body == src[2..] + rest;
    forall k | 0 <= k < |rows|
      ensures IsTableRow(body[k])
    {
      assert body[k] == src[k + 2] && rows[k] == SplitTableRow(src[k + 2]);
    }
    CountUnique(IsTableRow, body, |rows|);
    RowsAre(body[..|rows|]);
    SameRows(Rows(body[..|rows|]), rows);
    assert lines[..|rows| + 2] == src;
  }

  lemma ParagraphIsFirst(b: Block, rest: seq<string>)
    requires b.content.Paragraph? && IsRead(b, rest)
    ensures FirstBlock(b.source + rest) == Some(b)
  {
    hide IsFence, IsBlank, HeadingOf, ListItem, InParagraph, StartsTable;
    var src := b.source;
    var lines := src + rest;
    ProseIsApart(src[0]);
    CountUnique(InParagraph, lines, |src|);
    assert lines[..|src|] == src;
  }

  lemma LineIsFirst(b: Block, rest: seq<string>)
    requires (b.content.Blank? || b.content.Title? || b.content.Bullet?) && IsRead(b, rest)
    ensures FirstBlock(b.source + rest) == Some(b)
  {
    hide IsFence, IsBlank, HeadingOf, ListItem, StartsTable;
    var line := b.source[0];
    var lines := b.source + rest;
    assert lines[0] == line && lines[..1] == b.source;
    if IsFence(line) {
      FencesAreApart(line);
    }
    match b.content
    case Blank => BlanksAreApart(line);
    case Title(_) => HeadingsAreApart(line);
    case Bullet(_) =>
      if IsBlank(line) {
        BlanksAreApart(line);
      }
      if HeadingOf(line).Some? {
        HeadingsAreApart(line);
      }
  }

  // ---- The whole text ----

  /** Each block is one before all the later ones. */
  ghost predicate AreBlocks(bs: seq<Block>) {
    bs == [] || (IsBlock(bs[0], Sources(bs[1..])) && AreBlocks(bs[1..]))
  }

  lemma BlockIsFirst(b: Block, rest: seq<string>)
    requires IsBlock(b, rest)
    ensures b.source != [] && FirstBlock(b.source + rest) == Some(b)
  {
    hide FirstBlock, IsBlank, HeadingOf, ListItem, StartsTable, InParagraph, IsTableRow, IsFence, IsClosingFence,
        IsBlock, IsReadTable;
    BlockIff(b, rest);
    match b.content
    case Fence(_) => FenceIsFirst(b, rest);
    case Table(_, _) => TableIsFirst(b, rest);
    case Paragraph(_) => ParagraphIsFirst(b, rest);
    case _ => LineIsFirst(b, rest);
  }

  /**
   * The blocks of a text are the only ones whose lines are the text's and of which each is what its lines
   * say and as long as it can be.
   */
  lemma {:induction false} BlocksIff(lines: seq<string>, bs: seq<Block>)
    ensures Blocks(lines) == Some(bs) <==> Sources(bs) == lines && AreBlocks(bs)
    decreases |lines|
  {
    hide FirstBlock, IsBlock, IsRead;
    if Blocks(lines) == Some(bs) {
      BlocksCoverLines(lines);
      if lines != [] {
        FirstIsRead(lines);
        var rest := lines[|bs[0].source|..];
        BlockIff(bs[0], rest);
        BlocksIff(rest, bs[1..]);
      }
    }
    if Sources(bs) == lines && AreBlocks(bs) && bs != [] {
      var rest := Sources(bs[1..]);
      BlockIsFirst(bs[0], rest);
      assert lines[|bs[0].source|..] == rest;
      BlocksIff(rest, bs[1..]);
      assert bs == [bs[0]] + bs[1..];
    }
  }

  // ---- Neighbouring items ----

  lemma CloseOne(open: seq<bool>)
    requires open != []
    ensures Closing(open, |open| - 1) == [CloseList(open[|open| - 1])]
    ensures |open| == 2 ==> Closing(open, 0) == [CloseList(open[1]), CloseList(open[0])]
  {
    var shorter := open[..|open| - 1];
    assert Closing(shorter, |open| - 1) == [];
    if |open| == 2 {
      assert shorter[..0] == [] && Closing(shorter[..0], 0) == [];
      assert Closing(shorter, 0) == [CloseList(shorter[0])];
    }
  }

  lemma OpenFew(ordered: bool)
    ensures Opening(ordered, 0) == [] && Opening(ordered, 1) == [OpenList(ordered)]
    ensures Opening(ordered, 2) == [OpenList(ordered), OpenList(ordered)]
  {
    assert Opening(ordered, 1) == [OpenList(ordered)];
  }

  /** An item outside lists opens one list, or two when it is indented. */
  lemma FirstItem(item: Item)
    ensures Tokens(Block(Bullet(item), []), []) ==
            (if item.deep then [OpenList(item.ordered), OpenList(item.ordered)] else [OpenList(item.ordered)])
            + [Write(Bullet(item))]
  {
    OpenFew(item.ordered);
  }

  /**
   * An item right after another: one of the same kind and depth joins its list; another kind closes the one
   * list and opens another; a deeper item opens a list inside; a shallower one goes back to the outer list.
   */
  lemma ItemAfterItem(before: Item, item: Item, open: seq<bool>)
    ensures var now := OpenAfter(Block(Bullet(before), []), open);
            var ts, out := Tokens(Block(Bullet(item), []), now), [Write(Bullet(item))];
            && |now| == Depth(before) && now[|now| - 1] == before.ordered
            && (before.deep == item.deep ==>
                  ts == (if before.ordered == item.ordered then []
                         else [CloseList(before.ordered), OpenList(item.ordered)]) + out)
            && (!before.deep && item.deep ==> ts == [OpenList(item.ordered)] + out)
            && (before.deep && !item.deep ==>
                  ts == [CloseList(before.ordered)]
                  + (if now[0] == item.ordered then [] else [CloseList(now[0]), OpenList(item.ordered)]) + out)
  {
    hide Opening, Closing, OpenAfter;
    var now := OpenAfter(Block(Bullet(before), []), open);
    ItemIsAtHome(open, before);
    OpenFew(item.ordered);
    CloseOne(now);
    NothingToClose(now);
  }
}
