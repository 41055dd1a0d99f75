/**
 * LogQL selectors, by characters. `ReadAll` follows a query from left to right and knows only whether it
 * is in a string literal and in braces; what scoping does to a LogQL query is stated through it alone.
 */
module LogQLScoping {
  import opened Text
  import opened Scope
  import opened ScopeProperties

  datatype Place = Outside | InGroup | InLiteral(quote: char, escaped: bool, inGroup: bool)

  function Home(inGroup: bool): Place { if inGroup then InGroup else Outside }

  function Read(p: Place, c: char): Place {
    match p
    case Outside => if c in "\"'`" then InLiteral(c, false, false) else if c == '{' then InGroup else Outside
    case InGroup => if c in "\"'`" then InLiteral(c, false, true) else if c == '}' then Outside else InGroup
    case InLiteral(quote, escaped, inGroup) =>
      if escaped then InLiteral(quote, false, inGroup)
      else if c == quote then Home(inGroup)
      else InLiteral(quote, c == '\\' && quote != '`', inGroup)
  }

  function ReadAll(p: Place, s: string): Place
    decreases |s|
  {
    if s == "" then p else ReadAll(Read(p, s[0]), s[1..])
  }

  /** The place before character `i`. */
  function PlaceAt(q: string, i: nat): Place
    requires i <= |q|
  {
    ReadAll(Outside, q[..i])
  }

  predicate IsWithin(p: Place) { p.InGroup? || (p.InLiteral? && p.inGroup) }

  /** Some brace is never closed. */
  predicate IsUnclosed(q: string) { IsWithin(ReadAll(Outside, q)) }

  predicate OpensAt(q: string, i: int) { 0 <= i < |q| && q[i] == '{' && PlaceAt(q, i) == Outside }

  /** The text from `i` to `j` is a selector in braces. */
  ghost predicate IsSelectorAt(q: string, i: int, j: int) {
    && OpensAt(q, i) && i < j < |q| && q[j] == '}' && PlaceAt(q, j) == InGroup
    && forall k | i < k <= j :: IsWithin(PlaceAt(q, k))
  }

  lemma {:induction false} ReadSplit(p: Place, a: string, b: string)
    ensures ReadAll(p, a + b) == ReadAll(ReadAll(p, a), b)
    decreases |a|
  {
    hide Read;
    if a == "" {
      assert a + b == b;
    } else {
      assert (a + b)[1..] == a[1..] + b;
      ReadSplit(Read(p, a[0]), a[1..], b);
    }
  }

  lemma ReadFirst(p: Place, s: string, k: nat)
    requires 0 < k <= |s|
    ensures ReadAll(p, s[..k]) == ReadAll(Read(p, s[0]), s[1..][..k - 1])
  {
    hide Read;
    assert s[..k][1..] == s[1..][..k - 1];
  }

  // ---- Literals and groups ----

  /** The literal ends where the reading comes home, or is the rest of the text. */
  lemma {:induction false} LiteralEnds(quote: char, s: string, g: bool, x: string)
    ensures var n, p := LiteralTail(quote, s), InLiteral(quote, false, g);
            || (ReadAll(p, s[..n]) == Home(g) && LiteralTail(quote, s + x) == n)
            || (n == |s| && ReadAll(p, s).InLiteral? && ReadAll(p, s).inGroup == g)
  {
    var n, p := LiteralTail(quote, s), InLiteral(quote, false, g);
    if s != "" {
      ReadFirst(p, s, n);
      if s[0] == quote {
        assert s[1..][..0] == "";
      } else if quote != '`' && s[0] == '\\' && |s| >= 2 {
        LiteralEnds(quote, s[2..], g, x);
        assert (s + x)[2..] == s[2..] + x;
        ReadFirst(Read(p, s[0]), s[1..], n - 1);
        assert s[1..][1..] == s[2..];
      } else {
        LiteralEnds(quote, s[1..], g, x);
        assert (s + x)[1..] == s[1..] + x;
        if quote != '`' && s[0] == '\\' {
          assert s[1..] == "";
        }
      }
    }
  }

  lemma {:induction false} LiteralStays(quote: char, s: string, g: bool, k: nat)
    requires k < LiteralTail(quote, s)
    ensures var p := ReadAll(InLiteral(quote, false, g), s[..k]); p.InLiteral? && p.inGroup == g
  {
    var p := InLiteral(quote, false, g);
    if k > 0 {
      ReadFirst(p, s, k);
      if quote != '`' && s[0] == '\\' && |s| >= 2 {
        if k > 1 {
          LiteralStays(quote, s[2..], g, k - 2);
          ReadFirst(Read(p, s[0]), s[1..], k - 1);
          assert s[1..][1..] == s[2..];
        } else {
          assert s[1..][..0] == "";
        }
      } else {
        LiteralStays(quote, s[1..], g, k - 1);
      }
    }
  }

  /** After a literal the reading is where it was, unless the literal is never closed. */
  lemma LiteralSkips(p: Place, s: string, x: string)
    requires s != "" && IsQuote(s[0]) && !p.InLiteral?
    ensures var n := LiteralLength(s);
            || (n <= |s| && ReadAll(p, s[..n]) == p && LiteralLength(s + x) == n)
            || (n == |s| && ReadAll(p, s).InLiteral? && ReadAll(p, s).inGroup == p.InGroup?)
  {
    hide LiteralTail;
    var n, g := LiteralLength(s), p.InGroup?;
    LiteralEnds(s[0], s[1..], g, x);
    ReadFirst(p, s, n);
    assert Read(p, s[0]) == InLiteral(s[0], false, g) && Home(g) == p;
    assert (s + x)[1..] == s[1..] + x;
    assert s[..|s|] == s;
  }

  lemma ReadOn(p: Place, s: string, n: nat, k: nat)
    requires n <= |s| && k <= |s| - n
    ensures ReadAll(p, s[..n + k]) == ReadAll(ReadAll(p, s[..n]), s[n..][..k])
  {
    ReadSplit(p, s[..n], s[n..][..k]);
    assert s[..n + k] == s[..n] + s[n..][..k];
  }

  /** A body ends at the first place outside that the reading comes to. */
  lemma {:induction false} GroupEnds(s: string, x: string)
    ensures BraceOffset(s).None? ==> IsWithin(ReadAll(InGroup, s))
    ensures BraceOffset(s).Some? ==>
              var n := BraceOffset(s).value;
              && ReadAll(InGroup, s[..n]) == InGroup && ReadAll(InGroup, s[..n + 1]) == Outside
              && BraceOffset(s + x) == Some(n)
    decreases |s|
  {
    hide LiteralLength, IsWithin;
    if s == "" {
      WithinGroup();
    } else if IsQuote(s[0]) {
      GroupAfterLiteral(s, x);
    } else if s[0] == '}' {
      ReadFirst(InGroup, s, 1);
    } else {
      assert (s + x)[1..] == s[1..] + x;
      GroupEnds(s[1..], x);
      if BraceOffset(s).Some? {
        ReadFirst(InGroup, s, BraceOffset(s).value);
        ReadFirst(InGroup, s, BraceOffset(s).value + 1);
      }
    }
  }

  lemma WithinGroup()
    ensures IsWithin(InGroup)
  {
  }

  lemma {:induction false} GroupAfterLiteral(s: string, x: string)
    requires s != "" && IsQuote(s[0])
    ensures BraceOffset(s).None? ==> IsWithin(ReadAll(InGroup, s))
    ensures BraceOffset(s).Some? ==>
              var n := BraceOffset(s).value;
              && ReadAll(InGroup, s[..n]) == InGroup && ReadAll(InGroup, s[..n + 1]) == Outside
              && BraceOffset(s + x) == Some(n)
    decreases |s|, 0
  {
    hide LiteralLength, ReadAll;
    var n := LiteralLength(s);
    var rest := s[n..];
    LiteralSkips(InGroup, s, x);
    if ReadAll(InGroup, s[..n]) == InGroup && LiteralLength(s + x) == n {
      GroupEnds(rest, x);
      assert (s + x)[n..] == rest + x;
      ReadOn(InGroup, s, n, |rest|);
      assert s[..n + |rest|] == s && rest[..|rest|] == rest;
      if BraceOffset(rest).Some? {
        ReadOn(InGroup, s, n, BraceOffset(rest).value);
        ReadOn(InGroup, s, n, BraceOffset(rest).value + 1);
      }
    } else {
      assert rest == "";
    }
  }

  /** Up to its closing brace a body is within the group. */
  lemma {:induction false} GroupStays(s: string, k: nat)
    requires BraceOffset(s).Some? && k <= BraceOffset(s).value
    ensures IsWithin(ReadAll(InGroup, s[..k]))
    decreases |s|
  {
    hide LiteralTail;
    if k == 0 {
      assert s[..0] == "";
    } else {
      if IsQuote(s[0]) {
        var n := LiteralLength(s);
        if k < n {
          ReadFirst(InGroup, s, k);
          LiteralStays(s[0], s[1..], true, k - 1);
        } else {
          LiteralSkips(InGroup, s, "");
          assert s + "" == s;
          GroupStays(s[n..], k - n);
          ReadOn(InGroup, s, n, k - n);
        }
      } else {
        ReadFirst(InGroup, s, k);
        GroupStays(s[1..], k - 1);
      }
    }
  }

  // ---- Reading a query piece by piece ----

  /** Up to a place outside, a query is read on its own. */
  lemma {:induction false} LexConcat(a: string, b: string)
    requires ReadAll(Outside, a) == Outside
    ensures Lex(a, LogQL).Some?
    ensures Lex(a + b, LogQL) ==
            match Lex(b, LogQL) case None => None case Some(ps) => Some(Lex(a, LogQL).value + ps)
    decreases |a|
  {
    hide Next, ReadAll, PieceText;
    if a == "" {
      assert a + b == b;
      assert Lex(b, LogQL).Some? ==> [] + Lex(b, LogQL).value == Lex(b, LogQL).value;
    } else {
      var n := NextStays(a, b);
      var rest := a[n..];
      ReadOn(Outside, a, n, |rest|);
      assert a[..n + |rest|] == a && rest[..|rest|] == rest;
      LexConcat(rest, b);
      assert (a + b)[n..] == rest + b;
      if Lex(b, LogQL).Some? {
        var p := Next(a, LogQL).value.piece;
        assert [p] + (Lex(rest, LogQL).value + Lex(b, LogQL).value)
            == [p] + Lex(rest, LogQL).value + Lex(b, LogQL).value;
      }
    }
  }

  /** The first piece of `a`, which ends outside, is the same whatever follows. */
  lemma NextStays(a: string, b: string) returns (n: nat)
    requires a != "" && ReadAll(Outside, a) == Outside
    ensures Next(a, LogQL).Some? && n == Next(a, LogQL).value.length && ReadAll(Outside, a[..n]) == Outside
    ensures Next(a + b, LogQL) == Next(a, LogQL)
  {
    hide LiteralLength, BraceOffset;
    assert (a + b)[0] == a[0];
    if IsQuote(a[0]) {
      LiteralSkips(Outside, a, b);
      n := LiteralLength(a);
      assert (a + b)[..n] == a[..n];
    } else if a[0] == '{' {
      GroupEnds(a[1..], b);
      ReadFirst(Outside, a, |a|);
      assert a[..|a|] == a && a[1..][..|a| - 1] == a[1..];
      assert (a + b)[1..] == a[1..] + b;
      n := BraceOffset(a[1..]).value + 2;
      ReadFirst(Outside, a, n);
      assert (a + b)[1..n - 1] == a[1..n - 1];
    } else {
      n := 1;
      ReadFirst(Outside, a, 1);
      assert a[1..][..0] == "" && (a + b)[..1] == a[..1];
    }
  }

  /** A query is malformed to the scanner exactly when it ends within braces. */
  lemma {:induction false} UnclosedIff(q: string)
    ensures Lex(q, LogQL).None? <==> IsUnclosed(q)
    decreases |q|
  {
    hide LiteralLength, BraceOffset;
    if q != "" {
      var c := q[0];
      if IsQuote(c) {
        LiteralSkips(Outside, q, "");
        assert q + "" == q;
        UnclosedAfter(q, LiteralLength(q));
      } else if c == '{' {
        GroupEnds(q[1..], "");
        ReadFirst(Outside, q, |q|);
        assert q[..|q|] == q && q[1..][..|q| - 1] == q[1..];
        if BraceOffset(q[1..]).Some? {
          ReadFirst(Outside, q, BraceOffset(q[1..]).value + 2);
          UnclosedAfter(q, BraceOffset(q[1..]).value + 2);
        }
      } else {
        ReadFirst(Outside, q, 1);
        assert q[1..][..0] == "";
        UnclosedAfter(q, 1);
      }
    }
  }

  lemma {:induction false} UnclosedAfter(q: string, n: nat)
    requires 0 < n <= |q|
    ensures ReadAll(Outside, q[..n]) == Outside ==>
              (IsUnclosed(q) <==> IsUnclosed(q[n..])) && (Lex(q[n..], LogQL).None? <==> IsUnclosed(q[n..]))
    ensures n == |q| ==> q[n..] == "" && Lex(q[n..], LogQL).Some? && ReadAll(Outside, q) == ReadAll(Outside, q[..n])
    decreases |q|, 0
  {
    var rest := q[n..];
    ReadOn(Outside, q, n, |rest|);
    assert q[..n + |rest|] == q && rest[..|rest|] == rest;
    UnclosedIff(rest);
  }

  /** A selector on its own is one piece. */
  lemma OneGroup(body: string)
    requires BraceOffset(body + "}") == Some(|body|)
    ensures Lex("{" + body + "}", LogQL) == Some([Group(body)])
  {
    hide BraceOffset, Next;
    var q := "{" + body + "}";
    GroupReads(body, "", LogQL);
    assert PieceText(Group(body)) + "" == q;
    OnePiece(q, Group(body));
  }

  lemma OnePiece(q: string, p: Piece)
    requires q != "" && Next(q, LogQL) == Some(Reading(p, |q|))
    ensures Lex(q, LogQL) == Some([p])
  {
    hide Next;
    assert q[|q|..] == "" && [p] + [] == [p];
  }

  /** The body of a selector closes where the reading says. */
  lemma BodyCloses(q: string, i: int, j: int)
    requires IsSelectorAt(q, i, j)
    ensures BraceOffset(q[i + 1..j] + "}") == Some(j - i - 1)
    ensures PlaceAt(q, j + 1) == Outside
  {
    hide Read, LiteralLength;
    var n := j - i - 1;
    var s := q[i + 1..j] + "}";
    GroupEnds(s, "");
    BraceReads();
    forall k | 0 <= k <= n
      ensures PlaceAt(q, i + 1 + k) == ReadAll(InGroup, s[..k]) && IsWithin(ReadAll(InGroup, s[..k]))
    {
      GroupPlace(q, i, k);
      assert s[..k] == q[i + 1..][..k];
    }
    ReadOn(Outside, q, j, 1);
    assert q[j..][..1] == "}";
    ReadOn(InGroup, s, n, 1);
    assert s[n..][..1] == "}" && s[..n + 1] == s;
  }

  lemma BraceReads()
    ensures ReadAll(InGroup, "}") == Outside
  {
    assert "}"[1..] == "";
  }

  lemma GroupPlace(q: string, i: int, k: nat)
    requires OpensAt(q, i) && i + 1 + k <= |q|
    ensures PlaceAt(q, i + 1 + k) == ReadAll(InGroup, q[i + 1..][..k])
  {
    ReadOn(Outside, q, i, k + 1);
    ReadFirst(Outside, q[i..], k + 1);
    assert q[i..][1..] == q[i + 1..];
  }

  // ---- What scoping does, in characters ----

  /** Every brace that opens outside literals and braces opens a selector, unless some brace is never closed. */
  lemma OpeningHasEnd(q: string, i: int) returns (j: int)
    requires OpensAt(q, i) && !IsUnclosed(q)
    ensures IsSelectorAt(q, i, j)
  {
    hide Read, LiteralLength;
    var s := q[i + 1..];
    GroupEnds(s, "");
    GroupPlace(q, i, |s|);
    assert s[..|s|] == s && q[..|q|] == q;
    var n := BraceOffset(s).value;
    j := i + 1 + n;
    GroupPlace(q, i, n);
    forall k | i < k <= j
      ensures IsWithin(PlaceAt(q, k))
    {
      GroupPlace(q, i, k - i - 1);
      GroupStays(s, k - i - 1);
    }
  }

  /** A query around one of its selectors. */
  lemma LexAround(q: string, i: int, j: int)
    requires IsSelectorAt(q, i, j) && !IsUnclosed(q)
    ensures Lex(q, LogQL).Some? && Lex(q[..i], LogQL).Some? && Lex(q[j + 1..], LogQL).Some?
    ensures Lex(q, LogQL).value ==
            Lex(q[..i], LogQL).value + ([Group(q[i + 1..j])] + Lex(q[j + 1..], LogQL).value)
  {
    hide Lex, BraceOffset, Read;
    var a, g, b := q[..i], "{" + q[i + 1..j] + "}", q[j + 1..];
    BodyCloses(q, i, j);
    OneGroup(q[i + 1..j]);
    UnclosedIff(q);
    LexConcat(a, g + b);
    ReadOn(Outside, q, i, j + 1 - i);
    assert q[i..][..j + 1 - i] == g && q[..i + (j + 1 - i)] == q[..j + 1];
    LexConcat(g, b);
    assert q == a + (g + b);
  }

  /**
   * A selector in braces is held, wherever it stands in a query whose braces are closed, and what is
   * before it and after it is scoped on its own.
   */
  lemma SelectorIsHeld(q: string, i: int, j: int, cluster: string)
    requires IsSelectorAt(q, i, j) && !IsUnclosed(q)
    ensures Scoped(q, cluster, LogQL) ==
            Scoped(q[..i], cluster, LogQL)
            + ("{" + WithMatcher(q[i + 1..j], Matcher(cluster)) + "}")
            + Scoped(q[j + 1..], cluster, LogQL)
  {
    hide Lex, ReadAll, Read, WithMatcher, Matcher;
    var m := Matcher(cluster);
    LexAround(q, i, j);
    var a, g, b := Lex(q[..i], LogQL).value, Group(q[i + 1..j]), Lex(q[j + 1..], LogQL).value;
    HoldAppend(a, [g] + b, m);
    HoldAppend([g], b, m);
    SourceAppend(HoldAll(a, m), HoldAll([g] + b, m));
    SourceAppend(HoldAll([g], m), HoldAll(b, m));
    HeldText(g, m);
    HoldOne(g, m);
  }

  lemma HoldOne(p: Piece, m: string)
    ensures HoldAll([p], m) == Hold(p, m)
  {
    hide Hold;
    assert Hold(p, m) + [] == Hold(p, m);
  }

  /** A query without a selector, or with a brace that is never closed, comes back as it was. */
  lemma NothingElseIsHeld(q: string, cluster: string)
    requires IsUnclosed(q) || forall i :: !OpensAt(q, i)
    ensures Scoped(q, cluster, LogQL) == q
  {
    hide Lex, IsUnclosed, OpensAt, Matcher;
    UnclosedIff(q);
    if !IsUnclosed(q) {
      AllCopies(q);
      CopiesStay(Lex(q, LogQL).value, Matcher(cluster));
      LexSource(q, LogQL);
    }
  }

  predicate AreCopies(ps: seq<Piece>) { forall k | 0 <= k < |ps| :: ps[k].Copy? }

  lemma {:induction false} CopiesStay(ps: seq<Piece>, m: string)
    requires AreCopies(ps)
    ensures HoldAll(ps, m) == ps
  {
    if ps != [] {
      CopiesStay(ps[1..], m);
      assert ps == [ps[0]] + ps[1..];
    }
  }

  lemma {:induction false} AllCopies(q: string)
    requires Lex(q, LogQL).Some? && forall i :: !OpensAt(q, i)
    ensures AreCopies(Lex(q, LogQL).value)
    decreases |q|
  {
    hide LiteralLength, BraceOffset, Read;
    if q != "" {
      assert q[..0] == "";
      assert !OpensAt(q, 0);
      var n := Next(q, LogQL).value.length;
      NoneOpensAfter(q, n);
      AllCopies(q[n..]);
    }
  }

  lemma NoneOpensAfter(q: string, n: nat)
    requires q != "" && q[0] != '{' && Next(q, LogQL).Some? && n == Next(q, LogQL).value.length
    requires forall i :: !OpensAt(q, i)
    ensures forall i :: !OpensAt(q[n..], i)
  {
    hide LiteralLength;
    var rest := q[n..];
    if IsQuote(q[0]) {
      LiteralSkips(Outside, q, "");
      assert q + "" == q;
    } else {
      ReadFirst(Outside, q, 1);
      assert q[1..][..0] == "";
    }
    forall i | 0 <= i < |rest|
      ensures !OpensAt(rest, i)
    {
      ReadOn(Outside, q, n, i);
      assert rest[i] == q[n + i] && !OpensAt(q, n + i);
    }
  }

  /** After scoping every selector in braces names a cluster. */
  lemma EverySelectorNamesCluster(q: string, cluster: string, i: int)
    requires IsClean(cluster) && !IsUnclosed(q)
    ensures !IsUnclosed(Scoped(q, cluster, LogQL))
    ensures OpensAt(Scoped(q, cluster, LogQL), i) ==>
              exists j :: IsSelectorAt(Scoped(q, cluster, LogQL), i, j)
                          && HasCluster(Scoped(q, cluster, LogQL)[i + 1..j])
  {
    hide Lex, IsUnclosed, OpensAt, IsSelectorAt, Scoped, HasCluster;
    var r := Scoped(q, cluster, LogQL);
    UnclosedIff(q);
    UnclosedIff(r);
    ScopedIsSettled(q, cluster, LogQL);
    if OpensAt(r, i) {
      var j := OpeningHasEnd(r, i);
      SelectorIsSettled(r, i, j);
    }
  }

  lemma SelectorIsSettled(r: string, i: int, j: int)
    requires IsSelectorAt(r, i, j) && !IsUnclosed(r)
    requires Lex(r, LogQL).Some? && AllSettled(Lex(r, LogQL).value)
    ensures HasCluster(r[i + 1..j])
  {
    hide Lex, ReadAll, Read, IsUnclosed, HasCluster;
    LexAround(r, i, j);
    var a := Lex(r[..i], LogQL).value;
    assert Lex(r, LogQL).value[|a|] == Group(r[i + 1..j]);
    assert IsSettled(Lex(r, LogQL).value[|a|]);
  }
}
