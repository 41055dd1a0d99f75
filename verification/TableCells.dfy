/** Table rows as the postmortem draft prints them, read back by the Markdown renderer. */
module TableCells {
  import opened Text
  import opened Markdown

  /** Line breaks become spaces. */
  function Flat(c: string): string {
    if c == "" then "" else [if c[0] == '\n' then ' ' else c[0]] + Flat(c[1..])
  }

  function EscapePipes(c: string): string {
    if c == "" then "" else (if c[0] == '|' then "\\|" else [c[0]]) + EscapePipes(c[1..])
  }

  function EscCell(c: string): string { Flat(EscapePipes(c)) }

  function PrintCells(cells: seq<string>): string {
    if cells == [] then "" else " " + EscCell(cells[0]) + " |" + PrintCells(cells[1..])
  }

  function PrintRow(cells: seq<string>): string { "|" + PrintCells(cells) }

  /** What the renderer makes of an escaped pipe in a cell. */
  function Unescape(c: string): string {
    if c == "" then ""
    else if |c| > 1 && c[0] == '\\' && c[1] == '|' then "|" + Unescape(c[2..])
    else [c[0]] + Unescape(c[1..])
  }

  function UnescapeAll(cells: seq<string>): seq<string> {
    if cells == [] then [] else [Unescape(cells[0])] + UnescapeAll(cells[1..])
  }

  function FlatAll(cells: seq<string>): seq<string> {
    if cells == [] then [] else [Flat(cells[0])] + FlatAll(cells[1..])
  }

  // ---- Escaping ----

  lemma {:induction false} FlatAndEscape(c: string)
    ensures EscCell(c) == EscapePipes(Flat(c))
  {
    if c != "" {
      FlatAndEscape(c[1..]);
      FlatSplit(if c[0] == '|' then "\\|" else [c[0]], EscapePipes(c[1..]));
      var d := Flat(c);
      assert d[1..] == Flat(c[1..]);
      if c[0] == '|' {
        assert Flat("\\|") == "\\|" by {
          FlatTwo();
        }
      }
    }
  }

  lemma FlatTwo()
    ensures Flat("\\|") == "\\|"
  {
    assert "\\|"[1..] == "|" && "|"[1..] == "";
    assert Flat("|") == "|";
  }

  lemma {:induction false} FlatSplit(a: string, b: string)
    ensures Flat(a + b) == Flat(a) + Flat(b)
  {
    if a == "" {
      assert a + b == b;
    } else {
      assert (a + b)[1..] == a[1..] + b;
      FlatSplit(a[1..], b);
    }
  }

  lemma {:induction false} EscapeSplit(a: string, b: string)
    ensures EscapePipes(a + b) == EscapePipes(a) + EscapePipes(b)
  {
    if a == "" {
      assert a + b == b;
    } else {
      assert (a + b)[1..] == a[1..] + b;
      EscapeSplit(a[1..], b);
    }
  }

  lemma {:induction false} SpacesEscapeToThemselves(w: string)
    requires AllSpace(w)
    ensures EscapePipes(w) == w
  {
    if w != "" {
      SpacesEscapeToThemselves(w[1..]);
      assert w[0] != '|';
    }
  }

  /** An escaped text begins and ends as the text does, except that no pipe comes first. */
  lemma {:induction false} EscapedEnds(c: string)
    ensures var e := EscapePipes(c);
            if c == "" then e == ""
            else e != "" && e[|e| - 1] == c[|c| - 1] && e[0] == (if c[0] == '|' then '\\' else c[0])
  {
    if |c| > 1 {
      EscapedEnds(c[1..]);
    } else if |c| == 1 {
      assert c[1..] == "";
    }
  }

  /** Unescaping undoes escaping. */
  lemma {:induction false} UnescapeEscape(c: string)
    ensures Unescape(EscapePipes(c)) == c
  {
    if c != "" {
      var rest := EscapePipes(c[1..]);
      UnescapeEscape(c[1..]);
      EscapedEnds(c[1..]);
      var e := EscapePipes(c);
      if c[0] == '|' {
        assert e[2..] == rest;
      } else {
        assert e[1..] == rest;
        assert |e| > 1 ==> e[1] == rest[0];
      }
    }
  }

  // ---- Trimming ----

  predicate IsTight(m: string) { m == "" || (!IsSpace(m[0]) && !IsSpace(m[|m| - 1])) }

  lemma {:induction false} TrimEndSkips(m: string, b: string)
    requires AllSpace(b) && (m == "" || !IsSpace(m[|m| - 1]))
    ensures TrimEnd(m + b) == m
    decreases |b|
  {
    if b == "" {
      assert m + b == m;
    } else {
      assert (m + b)[..|m + b| - 1] == m + b[..|b| - 1];
      TrimEndSkips(m, b[..|b| - 1]);
    }
  }

  lemma TrimStartIs(a: string, u: string)
    requires AllSpace(a) && (u != "" ==> !IsSpace(u[0]))
    ensures TrimStart(a + u) == u
  {
    hide IsSpace;
    SpanUnique(IsSpace, a + u, |a|);
    assert (a + u)[|a|..] == u;
  }

  lemma TrimIs(a: string, m: string, b: string)
    requires AllSpace(a) && AllSpace(b) && IsTight(m)
    ensures Trim(a + m + b) == m
  {
    hide IsSpace, TrimStart, TrimEnd;
    if m == "" {
      assert a + m + b == (a + b) + "";
      TrimStartIs(a + b, "");
      TrimEndSkips("", "");
    } else {
      assert a + m + b == a + (m + b);
      TrimStartIs(a, m + b);
      TrimEndSkips(m, b);
    }
  }

  /** A text is its trimmed self between white space. */
  lemma TrimParts(d: string) returns (a: string, b: string)
    ensures d == a + Trim(d) + b && AllSpace(a) && AllSpace(b) && IsTight(Trim(d))
  {
    hide IsSpace;
    var t := TrimStart(d);
    var m := TrimEnd(t);
    a, b := d[..|d| - |t|], t[|m|..];
    assert d == a + t && t == m + b;
    assert m != "" ==> m[0] == t[0];
  }

  lemma EscapedTrims(c: string)
    ensures Trim(" " + EscCell(c) + " ") == EscapePipes(Trim(Flat(c)))
  {
    hide Trim, EscapePipes, EscCell, Flat;
    var d := Flat(c);
    FlatAndEscape(c);
    var a, b := TrimParts(d);
    var m := Trim(d);
    EscapeSplit(a + m, b);
    EscapeSplit(a, m);
    SpacesEscapeToThemselves(a);
    SpacesEscapeToThemselves(b);
    EscapedEnds(m);
    TrimIs(" " + a, EscapePipes(m), b + " ");
    assert " " + EscCell(c) + " " == (" " + a) + EscapePipes(m) + (b + " ");
  }

  // ---- Splitting ----

  /** No pipe in `t` separates cells; `escaped` tells whether a backslash precedes it. */
  predicate IsWhole(t: string, escaped: bool) {
    t == "" || ((t[0] == '|' ==> escaped) && IsWhole(t[1..], t[0] == '\\'))
  }

  lemma {:induction false} SplitAtPipe(t: string, rest: string, escaped: bool)
    requires IsWhole(t, escaped) && (if t == "" then !escaped else t[|t| - 1] != '\\')
    ensures SplitPipes(t + ("|" + rest), escaped) == [t] + SplitPipes(rest, false)
    decreases |t|
  {
    var s := t + ("|" + rest);
    if t == "" {
      assert s[0] == '|' && s[1..] == rest;
    } else {
      assert s[0] == t[0] && s[1..] == t[1..] + ("|" + rest);
      SplitAtPipe(t[1..], rest, t[0] == '\\');
      assert t == [t[0]] + t[1..];
      var parts := [t[1..]] + SplitPipes(rest, false);
      assert parts[1..] == SplitPipes(rest, false);
    }
  }

  lemma {:induction false} EscapedIsWhole(c: string, escaped: bool)
    ensures IsWhole(EscapePipes(c) + " ", escaped)
    decreases |c|
  {
    var e := EscapePipes(c) + " ";
    if c == "" {
      assert e == " " && e[1..] == "";
    } else {
      var rest := EscapePipes(c[1..]) + " ";
      EscapedIsWhole(c[1..], c[0] == '\\');
      if c[0] == '|' {
        assert e[0] == '\\' && e[1..][0] == '|' && e[1..][1..] == rest;
      } else {
        assert e[0] == c[0] && e[1..] == rest;
      }
    }
  }

  /** The cells as they stand between the pipes. */
  function Padded(cells: seq<string>): seq<string> {
    if cells == [] then [] else [" " + EscCell(cells[0]) + " "] + Padded(cells[1..])
  }

  lemma {:induction false} RowSplits(cells: seq<string>)
    ensures SplitPipes(PrintCells(cells), false) == Padded(cells) + [""]
  {
    hide SplitPipes, EscCell, EscapePipes;
    if cells == [] {
      assert SplitPipes("", false) == [""] by {
        EmptySplits();
      }
    } else {
      var c := EscCell(cells[0]);
      var rest := PrintCells(cells[1..]);
      RowSplits(cells[1..]);
      CellSplits(cells[0], rest);
      assert PrintCells(cells) == (" " + c + " ") + ("|" + rest);
    }
  }

  lemma EmptySplits()
    ensures SplitPipes("", false) == [""]
  {
  }

  lemma CellSplits(cell: string, rest: string)
    ensures SplitPipes((" " + EscCell(cell) + " ") + ("|" + rest), false)
            == [" " + EscCell(cell) + " "] + SplitPipes(rest, false)
  {
    hide SplitPipes, EscCell, EscapePipes;
    var t := " " + EscCell(cell) + " ";
    FlatAndEscape(cell);
    EscapedIsWhole(Flat(cell), false);
    assert t[1..] == EscapePipes(Flat(cell)) + " ";
    assert IsWhole(t, false);
    SplitAtPipe(t, rest, false);
  }

  lemma RowIsTight(cells: seq<string>)
    ensures Trim(PrintRow(cells)) == PrintRow(cells)
  {
    hide IsSpace, Trim, PrintRow;
    var row := PrintRow(cells);
    RowEnds(cells);
    TrimIs("", row, "");
    assert "" + row + "" == row;
  }

  lemma {:induction false} RowEnds(cells: seq<string>)
    ensures var row := PrintRow(cells); row[0] == '|' && row[|row| - 1] == '|' && IsTight(row)
  {
    hide EscCell;
    if cells != [] {
      RowEnds(cells[1..]);
      var rest := PrintCells(cells[1..]);
      assert PrintRow(cells) == "| " + EscCell(cells[0]) + " " + ("|" + rest);
    }
  }

  /**
   * Reading a printed row gives back its cells, with line breaks turned to spaces and outer white space
   * gone: pipes and backslashes inside a cell, and empty cells, come through.
   */
  lemma RowRoundTrip(cells: seq<string>)
    ensures UnescapeAll(SplitTableRow(PrintRow(cells))) == TrimAll(FlatAll(cells))
  {
    hide SplitPipes, EscCell, EscapePipes, PrintCells, TrimAll, UnescapeAll, FlatAll, Trim, DropLast, DropFirst;
    var row := PrintRow(cells);
    RowIsTight(cells);
    RowSplits(cells);
    NoWholeBefore();
    SplitAtPipe("", PrintCells(cells), false);
    assert "" + row == row;
    var parts := [""] + (Padded(cells) + [""]);
    OuterDropped(Padded(cells));
    CellsRoundTrip(cells);
  }

  lemma NoWholeBefore()
    ensures IsWhole("", false)
  {
  }

  lemma OuterDropped(padded: seq<string>)
    ensures DropLast(DropFirst([""] + (padded + [""]))) == padded
  {
    assert ([""] + (padded + [""]))[1..] == padded + [""];
    assert (padded + [""])[..|padded|] == padded;
  }

  lemma {:induction false} CellsRoundTrip(cells: seq<string>)
    ensures UnescapeAll(TrimAll(Padded(cells))) == TrimAll(FlatAll(cells))
  {
    hide EscCell, Trim, Unescape, Flat;
    if cells != [] {
      CellsRoundTrip(cells[1..]);
      EscapedTrims(cells[0]);
      UnescapeEscape(Trim(Flat(cells[0])));
    }
  }
}
