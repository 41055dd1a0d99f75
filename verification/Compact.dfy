/** Compacting one tool result: runs of similar lines collapse, and what is still too long is cut. */
module Compact {
  import opened Decimal
  import opened Text

  const MAX_TOOL_RESULT_CHARS := 8000
  const MIN_RUN := 3

  /** A JavaScript string is shorter than this: section 6.1.4 of ECMA-262. */
  const STRING_LIMIT := 0x20_0000_0000_0000

  // ---- Lines ----

  /** Characters of the lines, one line break each. */
  function Size(lines: seq<string>): nat {
    if lines == [] then 0 else |lines[0]| + 1 + Size(lines[1..])
  }

  lemma {:induction false} JoinSize(lines: seq<string>)
    requires lines != []
    ensures |Join(lines, '\n')| + 1 == Size(lines)
  {
    if |lines| > 1 {
      JoinSize(lines[1..]);
    } else {
      assert lines[1..] == [];
    }
  }

  lemma {:induction false} SizeSplit(a: seq<string>, b: seq<string>)
    ensures Size(a + b) == Size(a) + Size(b)
  {
    if a == [] {
      assert a + b == b;
    } else {
      assert (a + b)[1..] == a[1..] + b;
      SizeSplit(a[1..], b);
    }
  }

  lemma {:induction false} SizeIsMore(lines: seq<string>)
    ensures Size(lines) >= |lines|
  {
    if lines != [] {
      SizeIsMore(lines[1..]);
    }
  }

  // ---- Runs ----

  /** A line as it was, or how many more lines like the one before it there were. */
  datatype Entry = Line(text: string) | More(count: nat)

  function Marker(n: nat): string { "... \U{00D7}" + Digits(n) + " more like this" }

  /** A marker reads as the number of lines it stands for. */
  lemma MarkerCounts(n: nat)
    ensures exists d :: Marker(n) == "... \U{00D7}" + d + " more like this" && AreDigits(d) && Number(d) == n
  {
    NumberOfDigits(n);
    DigitsAreDigits(n);
    var d := Digits(n);
    assert forall k | 0 <= k < |d| :: d[k] in d;
  }

  function Render(es: seq<Entry>): seq<string> {
    if es == [] then []
    else [match es[0] case Line(text) => text case More(count) => Marker(count)] + Render(es[1..])
  }

  function Lines(lines: seq<string>): seq<Entry> {
    if lines == [] then [] else [Line(lines[0])] + Lines(lines[1..])
  }

  /** The first index from `j` on whose line is not like `key`. */
  function RunEnd(lines: seq<string>, normalize: string -> string, key: string, j: nat): (e: nat)
    requires j <= |lines|
    ensures j <= e <= |lines|
    ensures forall k | j <= k < e :: normalize(lines[k]) == key
    ensures e < |lines| ==> normalize(lines[e]) != key
    decreases |lines| - j
  {
    if j < |lines| && normalize(lines[j]) == key then RunEnd(lines, normalize, key, j + 1) else j
  }

  /** The entries of one run. */
  function Run(run: seq<string>): seq<Entry>
    requires run != []
  {
    if |run| >= MIN_RUN then [Line(run[0]), More(|run| - 1)] else Lines(run)
  }

  function Collapsed(lines: seq<string>, normalize: string -> string): seq<Entry> {
    if lines == [] then []
    else
      var e := RunEnd(lines, normalize, normalize(lines[0]), 1);
      Run(lines[..e]) + Collapsed(lines[e..], normalize)
  }

  function CollapsedText(content: string, normalize: string -> string): string {
    var rendered := Render(Collapsed(Split(content, '\n'), normalize));
    if rendered == [] then "" else Join(rendered, '\n')
  }

  lemma {:induction false} RenderSplit(a: seq<Entry>, b: seq<Entry>)
    ensures Render(a + b) == Render(a) + Render(b)
  {
    if a == [] {
      assert a + b == b;
    } else {
      assert (a + b)[1..] == a[1..] + b;
      RenderSplit(a[1..], b);
    }
  }

  lemma {:induction false} RenderLines(lines: seq<string>)
    ensures Render(Lines(lines)) == lines
  {
    if lines != [] {
      RenderLines(lines[1..]);
      assert Lines(lines)[1..] == Lines(lines[1..]);
    }
  }

  lemma RenderLong(first: string, n: nat)
    ensures Render([Line(first), More(n)]) == [first, Marker(n)]
  {
    hide Marker;
    var es := [Line(first), More(n)];
    assert es[1..] == [More(n)] && [More(n)][1..] == [];
    assert Render([More(n)]) == [Marker(n)];
  }

  lemma {:induction false} RunEndIs(lines: seq<string>, normalize: string -> string, key: string, j: nat, e: nat)
    requires j <= e <= |lines| && forall k | j <= k < e :: normalize(lines[k]) == key
    requires e < |lines| ==> normalize(lines[e]) != key
    ensures RunEnd(lines, normalize, key, j) == e
    decreases e - j
  {
    if j < e {
      RunEndIs(lines, normalize, key, j + 1, e);
    }
  }

  lemma RunEndAt(lines: seq<string>, normalize: string -> string, i: nat, j: nat)
    requires i < j <= |lines|
    requires forall k | i <= k < j :: normalize(lines[k]) == normalize(lines[i])
    requires j < |lines| ==> normalize(lines[j]) != normalize(lines[i])
    ensures RunEnd(lines[i..], normalize, normalize(lines[i]), 1) == j - i
  {
    assert j < |lines| ==> lines[i..][j - i] == lines[j];
    RunEndIs(lines[i..], normalize, normalize(lines[i]), 1, j - i);
  }

  lemma NextRun(lines: seq<string>, normalize: string -> string, i: nat, j: nat)
    requires i < j <= |lines|
    requires RunEnd(lines[i..], normalize, normalize(lines[i]), 1) == j - i
    ensures Render(Collapsed(lines[i..], normalize)) ==
            Render(Run(lines[i..j])) + Render(Collapsed(lines[j..], normalize))
  {
    hide Run, Render;
    var tail := lines[i..];
    assert tail != [] && tail[0] == lines[i];
    assert tail[..j - i] == lines[i..j] && tail[j - i..] == lines[j..];
    assert Collapsed(tail, normalize) == Run(tail[..j - i]) + Collapsed(tail[j - i..], normalize);
    RenderSplit(Run(lines[i..j]), Collapsed(lines[j..], normalize));
  }

  method CollapseRuns(content: string, normalize: string -> string) returns (text: string)
    ensures text == CollapsedText(content, normalize)
  {
    hide Split, Render, Collapsed, Run, Marker;
    var lines := Split(content, '\n');
    var out: seq<string> := [];
    var i := 0;
    while i < |lines|
      invariant 0 <= i <= |lines|
      invariant Render(Collapsed(lines, normalize)) == out + Render(Collapsed(lines[i..], normalize))
    {
      var key := normalize(lines[i]);
      var j := i + 1;
      while j < |lines| && normalize(lines[j]) == key
        invariant i < j <= |lines| && forall k | i <= k < j :: normalize(lines[k]) == key
      {
        j := j + 1;
      }
      RunEndAt(lines, normalize, i, j);
      NextRun(lines, normalize, i, j);
      var shown := ShowRun(lines, i, j);
      Concat(out, shown, Render(Collapsed(lines[j..], normalize)));
      out := out + shown;
      i := j;
    }
    Ends(lines, normalize);
    assert out + [] == out;
    text := if out == [] then "" else Join(out, '\n');
  }

  lemma Concat(a: seq<string>, b: seq<string>, c: seq<string>)
    ensures a + b + c == a + (b + c)
  {
  }

  lemma Ends(lines: seq<string>, normalize: string -> string)
    ensures Render(Collapsed(lines[|lines|..], normalize)) == []
  {
  }

  /** The lines that stand for the run from `i` to `j`. */
  method ShowRun(lines: seq<string>, i: nat, j: nat) returns (out: seq<string>)
    requires i < j <= |lines|
    ensures out == Render(Run(lines[i..j]))
  {
    hide Render, Marker;
    out := [lines[i]];
    var run := j - i;
    if run >= MIN_RUN {
      RenderLong(lines[i], run - 1);
      out := out + [Marker(run - 1)];
    } else {
      RenderLines(lines[i..j]);
      for k := i + 1 to j
        invariant out == lines[i..k]
      {
        out := out + [lines[k]];
      }
    }
  }

  // ---- The cap ----

  function Notice(remaining: nat): string { "\n...[truncated " + Digits(remaining) + " chars]...\n" }

  /** Half of what the cap leaves beside a notice of the longest possible count. */
  function Half(length: nat): int { (MAX_TOOL_RESULT_CHARS - |Notice(length)|) / 2 }

  lemma HalfIsRoomy(length: nat)
    requires length <= 8 * STRING_LIMIT
    ensures |Notice(length)| <= 26 + 17 && Half(length) >= 3978
  {
    DigitsGrow(length, 8 * STRING_LIMIT);
    assert |Digits(8 * STRING_LIMIT)| <= 17 by {
      SeventeenDigits();
    }
  }

  lemma SeventeenDigits()
    ensures |Digits(8 * STRING_LIMIT)| == 17
  {
    var n := 8 * STRING_LIMIT;
    assert n == 72057594037927936;
    assert |Digits(7205)| == 4;
    assert |Digits(72057594)| == 8;
    assert |Digits(720575940379)| == 12;
    assert |Digits(7205759403792793)| == 16;
  }

  function Cut(c: string): string
    requires MAX_TOOL_RESULT_CHARS < |c| <= 8 * STRING_LIMIT
  {
    HalfIsRoomy(|c|);
    var half := Half(|c|);
    c[..half] + Notice(|c| - half * 2) + c[|c| - half..]
  }

  function CompactToolResult(content: string, normalize: string -> string): string
    requires |content| < STRING_LIMIT
  {
    if |content| <= MAX_TOOL_RESULT_CHARS then content
    else
      var collapsed := CollapsedText(content, normalize);
      if |collapsed| <= MAX_TOOL_RESULT_CHARS then collapsed
      else
        CollapsedIsShort(content, normalize);
        Cut(collapsed)
  }

  lemma {:induction false} RunSize(run: seq<string>)
    requires run != []
    ensures Size(Render(Run(run))) <= 8 * Size(run)
  {
    hide Digits, Size, Render;
    if |run| >= MIN_RUN {
      var m := |run| - 1;
      RenderLong(run[0], m);
      TwoLines(run[0], Marker(m));
      DigitsAreFew(m);
      assert run == [run[0]] + run[1..];
      SizeSplit([run[0]], run[1..]);
      OneLine(run[0]);
      SizeIsMore(run[1..]);
    } else {
      RenderLines(run);
    }
  }

  lemma OneLine(a: string)
    ensures Size([a]) == |a| + 1
  {
    assert [a][1..] == [];
  }

  lemma TwoLines(a: string, b: string)
    ensures Size([a, b]) == |a| + |b| + 2
  {
    OneLine(b);
    assert [a, b][1..] == [b];
  }

  /** Markers can be longer than the lines they stand for, but not much. */
  lemma {:induction false} CollapsedSize(lines: seq<string>, normalize: string -> string)
    ensures Size(Render(Collapsed(lines, normalize))) <= 8 * Size(lines)
    decreases |lines|
  {
    hide Run, Render, Size;
    if lines == [] {
      Nothing();
    } else {
      var e := RunEnd(lines, normalize, normalize(lines[0]), 1);
      var run, rest := lines[..e], lines[e..];
      CollapsedSize(rest, normalize);
      RunSize(run);
      RenderSplit(Run(run), Collapsed(rest, normalize));
      SizeSplit(Render(Run(run)), Render(Collapsed(rest, normalize)));
      SizeSplit(run, rest);
      assert lines == run + rest;
    }
  }

  lemma Nothing()
    ensures Render([]) == [] && Size([]) == 0
  {
  }

  lemma CollapsedIsShort(content: string, normalize: string -> string)
    ensures |CollapsedText(content, normalize)| <= 8 * |content| + 8
  {
    hide Split, Collapsed, Render, Size;
    var lines := Split(content, '\n');
    var rendered := Render(Collapsed(lines, normalize));
    CollapsedSize(lines, normalize);
    JoinSize(lines);
    JoinOfSplit(content, '\n');
    if rendered != [] {
      JoinSize(rendered);
    }
  }

  /** `r` is the beginning and the end of `c` around a notice of the characters between them. */
  ghost predicate IsCut(r: string, c: string) {
    exists head, omitted, tail :: IsCutInto(r, c, head, omitted, tail)
  }

  predicate IsCutInto(r: string, c: string, head: string, omitted: string, tail: string) {
    && c == head + omitted + tail && |head| == |tail| > 0
    && r == head + Notice(|omitted|) + tail
  }

  lemma NoticeLength(n: nat)
    ensures |Notice(n)| == 26 + |Digits(n)|
  {
  }

  lemma CutFits(c: string)
    requires MAX_TOOL_RESULT_CHARS < |c| <= 8 * STRING_LIMIT
    ensures |Cut(c)| <= MAX_TOOL_RESULT_CHARS
  {
    hide Digits, Notice;
    HalfIsRoomy(|c|);
    var n := |c| - Half(|c|) * 2;
    DigitsGrow(n, |c|);
    NoticeLength(n);
    NoticeLength(|c|);
  }

  lemma CutInto(c: string, half: int)
    requires 0 < half && half * 2 < |c|
    ensures IsCutInto(c[..half] + Notice(|c| - half * 2) + c[|c| - half..], c, c[..half], c[half..|c| - half],
            c[|c| - half..])
  {
    hide Notice;
    assert c == c[..half] + c[half..|c| - half] + c[|c| - half..];
  }

  lemma CutIsCut(c: string)
    requires MAX_TOOL_RESULT_CHARS < |c| <= 8 * STRING_LIMIT
    ensures IsCut(Cut(c), c)
  {
    HalfIsRoomy(|c|);
    CutInto(c, Half(|c|));
  }

  /**
   * The cap holds for every result, and a result already compacted comes back as it is. A result that
   * is still too long when collapsed is cut, and the notice counts exactly the characters left out.
   */
  lemma CapHolds(content: string, normalize: string -> string)
    requires |content| < STRING_LIMIT
    ensures var c, r := CollapsedText(content, normalize), CompactToolResult(content, normalize);
            && |r| <= MAX_TOOL_RESULT_CHARS
            && CompactToolResult(r, normalize) == r
            && (|content| <= MAX_TOOL_RESULT_CHARS ==> r == content)
            && (|content| > MAX_TOOL_RESULT_CHARS ==>
                  if |c| <= MAX_TOOL_RESULT_CHARS then r == c else IsCut(r, c))
  {
    hide CollapsedText, Notice, IsCut, Cut;
    var c := CollapsedText(content, normalize);
    CollapsedIsShort(content, normalize);
    if |c| > MAX_TOOL_RESULT_CHARS {
      CutFits(c);
      CutIsCut(c);
    }
  }

  // ---- What collapsing keeps ----

  function Keys(lines: seq<string>, normalize: string -> string): seq<string> {
    if lines == [] then [] else [normalize(lines[0])] + Keys(lines[1..], normalize)
  }

  function Copies(key: string, n: nat): seq<string> {
    if n == 0 then [] else [key] + Copies(key, n - 1)
  }

  /** Every line's key, each marker standing for copies of the key before it. */
  function Expanded(es: seq<Entry>, normalize: string -> string, previous: string): seq<string> {
    if es == [] then []
    else match es[0]
      case Line(text) => [normalize(text)] + Expanded(es[1..], normalize, normalize(text))
      case More(count) => Copies(previous, count) + Expanded(es[1..], normalize, previous)
  }

  lemma {:induction false} KeysSplit(a: seq<string>, b: seq<string>, normalize: string -> string)
    ensures Keys(a + b, normalize) == Keys(a, normalize) + Keys(b, normalize)
  {
    if a == [] {
      assert a + b == b;
    } else {
      assert (a + b)[1..] == a[1..] + b;
      KeysSplit(a[1..], b, normalize);
    }
  }

  lemma {:induction false} KeysOfRun(run: seq<string>, normalize: string -> string, key: string)
    requires forall k | 0 <= k < |run| :: normalize(run[k]) == key
    ensures Keys(run, normalize) == Copies(key, |run|)
  {
    if run != [] {
      KeysOfRun(run[1..], normalize, key);
    }
  }

  /** A run stands for itself, whatever follows. */
  lemma {:induction false} RunExpands(run: seq<string>, rest: seq<Entry>, normalize: string -> string, previous: string)
    requires run != [] && forall k | 0 <= k < |run| :: normalize(run[k]) == normalize(run[0])
    ensures Expanded(Run(run) + rest, normalize, previous) ==
            Keys(run, normalize) + Expanded(rest, normalize, normalize(run[0]))
  {
    hide Keys;
    var key := normalize(run[0]);
    if |run| >= MIN_RUN {
      KeysOfRun(run, normalize, key);
      var es := Run(run) + rest;
      assert es[1..] == [More(|run| - 1)] + rest && es[1..][1..] == rest;
    } else {
      LinesExpand(run, rest, normalize, previous);
    }
  }

  lemma {:induction false} LinesExpand(lines: seq<string>, rest: seq<Entry>,
      normalize: string -> string, previous: string)
    ensures Expanded(Lines(lines) + rest, normalize, previous) ==
            Keys(lines, normalize)
            + Expanded(rest, normalize, if lines == [] then previous else normalize(lines[|lines| - 1]))
  {
    if lines == [] {
      assert Lines(lines) + rest == rest;
    } else {
      var es := Lines(lines) + rest;
      assert es[1..] == Lines(lines[1..]) + rest;
      LinesExpand(lines[1..], rest, normalize, normalize(lines[0]));
    }
  }

  /** Expanding the markers gives back the key of every line, in order. */
  lemma {:induction false} ExpandsToKeys(lines: seq<string>, normalize: string -> string, previous: string)
    ensures Expanded(Collapsed(lines, normalize), normalize, previous) == Keys(lines, normalize)
    decreases |lines|
  {
    hide Run, Keys, Expanded;
    if lines == [] {
      NoKeys(normalize, previous);
    } else {
      var e := RunEnd(lines, normalize, normalize(lines[0]), 1);
      var run, rest := lines[..e], lines[e..];
      ExpandsToKeys(rest, normalize, normalize(lines[0]));
      RunExpands(run, Collapsed(rest, normalize), normalize, previous);
      KeysSplit(run, rest, normalize);
      assert lines == run + rest;
    }
  }

  lemma NoKeys(normalize: string -> string, previous: string)
    ensures Expanded([], normalize, previous) == [] && Keys([], normalize) == []
  {
  }

  /** The first three lines are alike. */
  predicate Repeats(lines: seq<string>, normalize: string -> string) {
    |lines| >= MIN_RUN && forall k | 1 <= k < MIN_RUN :: normalize(lines[k]) == normalize(lines[0])
  }

  /** A marker stands for `n` lines like `lines[0]`, and no line after them is like it. */
  predicate Stands(n: nat, lines: seq<string>, normalize: string -> string)
    requires lines != []
  {
    && MIN_RUN - 1 <= n < |lines|
    && (forall k | 1 <= k <= n :: normalize(lines[k]) == normalize(lines[0]))
    && (n + 1 < |lines| ==> normalize(lines[n + 1]) != normalize(lines[0]))
  }

  /**
   * Which entries may stand for which lines: a line for itself, and a marker, there exactly when three
   * or more lines are alike, for all of those that follow the first.
   */
  predicate Covers(es: seq<Entry>, lines: seq<string>, normalize: string -> string) {
    if es == [] then lines == []
    else
      && lines != [] && es[0] == Line(lines[0])
      && if |es| > 1 && es[1].More? then
           Stands(es[1].count, lines, normalize) && Covers(es[2..], lines[es[1].count + 1..], normalize)
         else
           !Repeats(lines, normalize) && Covers(es[1..], lines[1..], normalize)
  }

  /** Collapsing gives entries that cover the lines. */
  lemma {:induction false} EntriesCoverLines(lines: seq<string>, normalize: string -> string)
    ensures Covers(Collapsed(lines, normalize), lines, normalize)
    decreases |lines|
  {
    hide Covers, Run;
    if lines == [] {
      NothingCovers(normalize);
    } else {
      var e := RunEnd(lines, normalize, normalize(lines[0]), 1);
      var rest := lines[e..];
      EntriesCoverLines(rest, normalize);
      StartsWithLine(rest, normalize);
      RunCovers(lines, e, Collapsed(rest, normalize), normalize);
    }
  }

  lemma NothingCovers(normalize: string -> string)
    ensures Covers([], [], normalize)
  {
  }

  predicate Opens(es: seq<Entry>) { es != [] ==> es[0].Line? }

  lemma StartsWithLine(lines: seq<string>, normalize: string -> string)
    ensures Opens(Collapsed(lines, normalize))
  {
    if lines != [] {
      var e := RunEnd(lines, normalize, normalize(lines[0]), 1);
      assert Run(lines[..e])[0].Line?;
    }
  }

  lemma LinesOf(run: seq<string>)
    requires 1 <= |run| <= 2
    ensures Lines(run) == if |run| == 1 then [Line(run[0])] else [Line(run[0]), Line(run[1])]
  {
    if |run| == 1 {
      assert run[1..] == [];
    } else {
      assert run[1..][1..] == [];
      assert Lines(run[1..]) == [Line(run[1])];
    }
  }

  lemma RunCovers(lines: seq<string>, e: nat, rest: seq<Entry>, normalize: string -> string)
    requires 1 <= e <= |lines| && Covers(rest, lines[e..], normalize) && Opens(rest)
    requires forall k | 1 <= k < e :: normalize(lines[k]) == normalize(lines[0])
    requires e < |lines| ==> normalize(lines[e]) != normalize(lines[0])
    ensures Covers(Run(lines[..e]) + rest, lines, normalize)
  {
    hide Covers;
    if e >= MIN_RUN {
      MarkerCovers(lines, e - 1, rest, normalize);
      assert Run(lines[..e]) + rest == [Line(lines[0]), More(e - 1)] + rest;
    } else if e == 1 {
      LineCovers(lines, rest, normalize);
      LinesOf(lines[..1]);
    } else {
      assert lines[1..][1..] == lines[2..];
      LineCovers(lines[1..], rest, normalize);
      LineCovers(lines, [Line(lines[1])] + rest, normalize);
      LinesOf(lines[..2]);
      assert Run(lines[..2]) + rest == [Line(lines[0])] + ([Line(lines[1])] + rest);
    }
  }

  lemma MarkerCovers(lines: seq<string>, n: nat, rest: seq<Entry>, normalize: string -> string)
    requires lines != [] && Stands(n, lines, normalize) && Covers(rest, lines[n + 1..], normalize)
    ensures Covers([Line(lines[0]), More(n)] + rest, lines, normalize)
  {
    var es := [Line(lines[0]), More(n)] + rest;
    assert es[2..] == rest;
  }

  lemma LineCovers(lines: seq<string>, rest: seq<Entry>, normalize: string -> string)
    requires lines != [] && !Repeats(lines, normalize) && Covers(rest, lines[1..], normalize) && Opens(rest)
    ensures Covers([Line(lines[0])] + rest, lines, normalize)
  {
    var es := [Line(lines[0])] + rest;
    assert es[1..] == rest;
    assert |es| > 1 ==> es[1] == rest[0];
  }

  lemma {:induction false} CoverIsUnique(es: seq<Entry>, fs: seq<Entry>, lines: seq<string>,
      normalize: string -> string)
    requires Covers(es, lines, normalize) && Covers(fs, lines, normalize)
    ensures es == fs
    decreases |lines|
  {
    hide Stands, Repeats;
    if lines != [] {
      var more := |es| > 1 && es[1].More?;
      assert es[0] == fs[0];
      if more {
        StandsRepeats(es[1].count, lines, normalize);
        StandsOnce(es[1].count, fs[1].count, lines, normalize);
        CoverIsUnique(es[2..], fs[2..], lines[es[1].count + 1..], normalize);
        assert es == es[..2] + es[2..] && fs == fs[..2] + fs[2..];
      } else {
        if |fs| > 1 && fs[1].More? {
          StandsRepeats(fs[1].count, lines, normalize);
        }
        CoverIsUnique(es[1..], fs[1..], lines[1..], normalize);
        assert es == [es[0]] + es[1..] && fs == [fs[0]] + fs[1..];
      }
    }
  }

  lemma StandsRepeats(n: nat, lines: seq<string>, normalize: string -> string)
    requires lines != [] && Stands(n, lines, normalize)
    ensures Repeats(lines, normalize) && n < |lines|
  {
  }

  lemma StandsFor(n: nat, k: nat, lines: seq<string>, normalize: string -> string)
    requires lines != [] && Stands(n, lines, normalize)
    ensures 1 <= k <= n ==> normalize(lines[k]) == normalize(lines[0])
    ensures k == n + 1 < |lines| ==> normalize(lines[k]) != normalize(lines[0])
  {
  }

  lemma StandsOnce(n: nat, m: nat, lines: seq<string>, normalize: string -> string)
    requires lines != [] && Stands(n, lines, normalize) && Stands(m, lines, normalize)
    ensures n == m
  {
    hide Stands;
    StandsRepeats(n, lines, normalize);
    StandsRepeats(m, lines, normalize);
    StandsFor(n, n + 1, lines, normalize);
    StandsFor(m, n + 1, lines, normalize);
    StandsFor(n, m + 1, lines, normalize);
    StandsFor(m, m + 1, lines, normalize);
  }

  /** Collapsing gives the one list of entries that covers the lines. */
  lemma CollapsedIff(es: seq<Entry>, lines: seq<string>, normalize: string -> string)
    ensures es == Collapsed(lines, normalize) <==> Covers(es, lines, normalize)
  {
    hide Covers, Collapsed;
    EntriesCoverLines(lines, normalize);
    if Covers(es, lines, normalize) {
      CoverIsUnique(es, Collapsed(lines, normalize), lines, normalize);
    }
  }
}
