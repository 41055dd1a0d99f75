/**
 * What scoping does to every query text: it loses nothing, it settles every selector, it is
 * idempotent, and it only inserts.
 */
module ScopeProperties {
  import opened Text
  import opened Scope

  /** A piece is the text it was read from. */
  lemma NextText(q: string, lang: Lang)
    requires q != "" && Next(q, lang).Some?
    ensures PieceText(Next(q, lang).value.piece) == q[..Next(q, lang).value.length]
  {
    hide LiteralLength, BraceOffset, NumberLength, IsLabelList, IsBareMetric, IsNumberStart, IsIdentStart;
    if q[0] == '{' {
      var j := BraceOffset(q[1..]).value;
      assert q[..j + 2] == "{" + q[1..j + 1] + "}";
    }
  }

  /** Reading a query loses nothing: the pieces spell the query. */
  lemma {:induction false} LexSource(q: string, lang: Lang)
    requires Lex(q, lang).Some?
    ensures Source(Lex(q, lang).value) == q
    decreases |q|
  {
    hide LiteralLength, BraceOffset, NumberLength, IsLabelList, IsBareMetric, IsNumberStart, IsIdentStart;
    if q != "" {
      var r := Next(q, lang).value;
      LexSource(q[r.length..], lang);
      NextText(q, lang);
      assert q == q[..r.length] + q[r.length..];
    }
  }

  // ---- A piece is read the same whatever follows its lookahead ----

  lemma {:induction false} LiteralTailLocal(quote: char, s: string, x: string)
    requires LiteralTail(quote, s) < |s|
    ensures LiteralTail(quote, s[..LiteralTail(quote, s)] + x) == LiteralTail(quote, s)
  {
    var n := LiteralTail(quote, s);
    var t := s[..n] + x;
    if s[0] == quote {
    } else if quote != '`' && s[0] == '\\' && |s| >= 2 {
      LiteralTailLocal(quote, s[2..], x);
      assert t[2..] == s[2..][..n - 2] + x;
    } else {
      LiteralTailLocal(quote, s[1..], x);
      assert t[1..] == s[1..][..n - 1] + x;
    }
  }

  lemma LiteralLocal(q: string, x: string)
    requires q != "" && LiteralLength(q) < |q|
    ensures LiteralLength(q[..LiteralLength(q)] + x) == LiteralLength(q)
  {
    LiteralTailLocal(q[0], q[1..], x);
    var t := q[..LiteralLength(q)] + x;
    assert t[1..] == q[1..][..LiteralLength(q) - 1] + x;
  }

  lemma BraceSkipsLiteral(lit: string, rest: string)
    requires lit != "" && IsQuote(lit[0]) && LiteralLength(lit + rest) == |lit|
    ensures BraceOffset(lit + rest) == Shift(|lit|, BraceOffset(rest))
  {
    assert (lit + rest)[|lit|..] == rest;
  }

  lemma BraceSkipsChar(c: char, rest: string)
    requires !IsQuote(c) && c != '}'
    ensures BraceOffset([c] + rest) == Shift(1, BraceOffset(rest))
  {
    assert ([c] + rest)[1..] == rest;
  }

  lemma BraceAfterLiteral(s: string, n: nat, more: string)
    requires s != "" && IsQuote(s[0]) && n == LiteralLength(s) < |s|
    ensures BraceOffset(s[..n] + more) == Shift(n, BraceOffset(more))
  {
    LiteralLocal(s, more);
    BraceSkipsLiteral(s[..n], more);
  }

  lemma {:induction false} BraceLocal(s: string, j: nat, x: string)
    requires BraceOffset(s) == Some(j)
    ensures BraceOffset(s[..j + 1] + x) == Some(j)
    decreases |s|
  {
    hide LiteralTail;
    if IsQuote(s[0]) {
      BraceLocalQuoted(s, j, LiteralLength(s), x);
      BraceLocal(s[LiteralLength(s)..], j - LiteralLength(s), x);
    } else if s[0] != '}' {
      BraceLocal(s[1..], j - 1, x);
      BraceSkipsChar(s[0], s[1..][..j] + x);
      PrefixThen(s, 1, j, x);
      assert s[..1] == [s[0]];
    }
  }

  lemma BraceLocalQuoted(s: string, j: nat, n: nat, x: string)
    requires BraceOffset(s) == Some(j) && IsQuote(s[0]) && n == LiteralLength(s)
    ensures n <= j && BraceOffset(s[n..]) == Some(j - n)
    ensures BraceOffset(s[..j + 1] + x) == Shift(n, BraceOffset(s[n..][..j - n + 1] + x))
  {
    hide LiteralLength, IsQuote;
    BraceAfterLiteral(s, n, s[n..][..j - n + 1] + x);
    PrefixThen(s, n, j - n + 1, x);
  }

  lemma PastLocal(c: char, s: string, x: string)
    requires Past(c, s) < |s|
    ensures Past(c, s[..Past(c, s)] + x) == Past(c, s)
  {
    var n := Past(c, s);
    var t := s[..n] + x;
    assert t[..n - 1] == s[..n - 1];
    FindUnique(c, t, n - 1);
  }

  /** The next character after white space, on a text that only shares its first part. */
  lemma OpensLocal(c: char, s: string, n: nat, x: string)
    requires n <= |s| && Span(IsSpace, s) < n
    ensures Opens(c, s[..n] + x) <==> Opens(c, s)
  {
    var k := Span(IsSpace, s);
    SpanUnique(IsSpace, s[..n] + x, k);
    assert (s[..n] + x)[k..][0] == s[k..][0];
  }

  /** The text that may follow without changing how far a number reaches. */
  ghost predicate SameStart(a: string, x: string) {
    && (a == "" <==> x == "")
    && (a != "" ==> a[0] == x[0])
    && (a != "" && IsSign(a[0]) && |a| > 1 ==> |x| > 1 && a[1] == x[1])
    && (a != "" && IsSign(a[0]) && |a| == 1 ==> |x| == 1)
  }

  /** A span of `s` from `a` to `e` is one of `t` when both have the same there and just after. */
  lemma SameSpan(p: char -> bool, s: string, t: string, a: nat, e: nat)
    requires a <= e <= |s| && e <= |t| && e == a + Span(p, s[a..])
    requires s[..e] == t[..e] && (e < |t| ==> e < |s| && t[e] == s[e])
    ensures Span(p, t[a..]) == e - a
  {
    assert forall k | a <= k < e :: p(s[a..][k - a]) && t[a..][k - a] == t[..e][k] == s[..e][k];
    assert e < |s| ==> s[a..][e - a] == s[e];
    SpanUnique(p, t[a..], e - a);
  }

  lemma ExponentLocal(s: string, m: nat, x: string)
    requires m <= |s|
    requires m == ExponentLength(s) + Span(IsWordChar, s[ExponentLength(s)..])
    requires SameStart(s[m..], x)
    ensures ExponentLength(s[..m] + x) == ExponentLength(s)
  {
    hide Span;
    var t := s[..m] + x;
    var e := ExponentLength(s);
    assert m < |s| ==> s[m] == s[m..][0] == s[e..][m - e];
    if m > 0 && (s[0] == 'e' || s[0] == 'E') {
      var sign := if |s| > 1 && IsSign(s[1]) then 2 else 1;
      assert e == 0 ==> m > 1 ==> s[1] == s[e..][1] && IsWordChar(s[1]);
      if e > 0 {
        SameSpan(IsDigit, s, t, sign, e);
      } else if m == 1 && |s| > 2 && sign == 2 {
        assert t[2] == x[1] == s[m..][1] == s[2];
        assert s[2] == s[sign..][0];
        SpanUnique(IsDigit, t[2..], 0);
      } else if m == 1 {
        SpanUnique(IsDigit, t[sign..], 0);
      } else {
        assert t[1] == s[1] == s[sign..][0];
        SpanUnique(IsDigit, t[1..], 0);
      }
    }
  }

  lemma SpanPrefix(p: char -> bool, q: string, n: nat, x: string)
    requires Span(p, q) <= n <= |q|
    requires (n == |q|) == (x == "") && (n < |q| ==> x[0] == q[n])
    ensures Span(p, q[..n] + x) == Span(p, q)
  {
    var k := Span(p, q);
    SpanUnique(p, q[..n] + x, k);
  }

  lemma NumberTailLocal(s: string, x: string)
    requires SameStart(s[NumberTail(s)..], x)
    ensures NumberTail(s[..NumberTail(s)] + x) == NumberTail(s)
  {
    hide ExponentLength, IsWordChar;
    var n := NumberTail(s);
    var e := ExponentLength(s);
    var t := s[..n] + x;
    ExponentLocal(s, n, x);
    SpanPrefix(IsWordChar, s[e..], n - e, x);
    assert s[e..][n - e..] == s[n..];
    assert t[e..] == s[e..][..n - e] + x;
  }

  lemma NumberSplit(d: string, s: string)
    requires d != "" && (forall k | 0 <= k < |d| :: IsNumberStart(d[k]))
    requires s != "" ==> !IsNumberStart(s[0])
    ensures NumberLength(d + s) == |d| + NumberTail(s)
  {
    SpanUnique(IsNumberStart, d + s, |d|);
    assert (d + s)[|d|..] == s;
  }

  lemma NumberLocal(q: string, a: nat, n: nat, x: string)
    requires q != "" && IsNumberStart(q[0]) && a == Span(IsNumberStart, q) && n == NumberTail(q[a..])
    requires SameStart(q[a + n..], x)
    ensures NumberLength(q[..a + n] + x) == a + n
  {
    var s := q[a..];
    PrefixThen(q, a, n, x);
    NumberTailLocal(s, x);
    NumberSplit(q[..a], s[..n] + x);
  }

  /** The text that may follow a piece without changing how it is read. */
  ghost predicate SameAhead(a: string, x: string) {
    && SameStart(a, x)
    && (Opens('(', a) <==> Opens('(', x))
    && (Opens('{', a) <==> Opens('{', x))
    && (ModifierAhead(a) <==> ModifierAhead(x))
  }

  lemma IdentLocal(q: string, n: nat, x: string)
    requires |Ident(q)| <= n <= |q| && SameStart(q[n..], x)
    ensures Ident(q[..n] + x) == Ident(q)
    ensures (q[..n] + x)[|Ident(q)|..] == q[|Ident(q)|..][..n - |Ident(q)|] + x
  {
    SpanPrefix(IsIdentChar, q, n, x);
  }

  lemma ListRestLocal(rest: string, x: string)
    requires Opens('(', rest) && SameStart(rest[Past(')', rest)..], x)
    ensures Past(')', rest) > 0
    ensures Opens('(', rest[..Past(')', rest)] + x)
    ensures Past(')', rest[..Past(')', rest)] + x) == Past(')', rest)
  {
    var m := Past(')', rest);
    var k := Span(IsSpace, rest);
    assert rest[k] == rest[k..][0] == '(';
    assert k < m;
    OpensLocal('(', rest, m, x);
    if m < |rest| {
      PastLocal(')', rest, x);
    } else {
      assert rest[..m] + x == rest;
    }
  }

  lemma LabelListLocal(q: string, n: nat, x: string)
    requires q != "" && IsIdentStart(q[0]) && IsLabelList(q) && n == Identifier(q).length
    requires SameStart(q[n..], x)
    ensures Identifier(q[..n] + x) == Identifier(q)
  {
    hide IsKeyword, IsListKeyword, IsBareMetric, Past, Opens, Ident, SameStart, Lower;
    var k := |Ident(q)|;
    PrefixThen(q, k, n - k, x);
    ListRestLocal(q[k..], x);
    IdentLocal(q, n, x);
    assert q[..n] == (q[..n] + x)[..n];
  }

  lemma IdentifierLocal(q: string, n: nat, x: string)
    requires q != "" && IsIdentStart(q[0]) && n == Identifier(q).length
    requires SameAhead(q[n..], x)
    ensures Identifier(q[..n] + x) == Identifier(q)
  {
    if IsLabelList(q) {
      LabelListLocal(q, n, x);
    } else {
      IdentLocal(q, n, x);
      assert q[n..][..0] + x == x;
    }
  }

  lemma NextLiteral(q: string, lang: Lang, x: string)
    requires q != "" && IsQuote(q[0])
    requires LiteralLength(q) == |q| ==> x == ""
    ensures Next(q[..LiteralLength(q)] + x, lang) == Next(q, lang)
  {
    var n := LiteralLength(q);
    if n < |q| {
      LiteralLocal(q, x);
      assert (q[..n] + x)[..n] == q[..n];
    } else {
      assert q[..n] + x == q;
    }
  }

  lemma NextGroup(q: string, lang: Lang, j: nat, x: string)
    requires q != "" && q[0] == '{' && BraceOffset(q[1..]) == Some(j)
    ensures Next(q[..j + 2] + x, lang) == Next(q, lang)
  {
    BraceLocal(q[1..], j, x);
    var t := q[..j + 2] + x;
    assert t[1..] == q[1..][..j + 1] + x;
    assert t[1..j + 1] == q[1..j + 1];
  }

  lemma NextRange(q: string, x: string)
    requires q != "" && q[0] == '['
    requires Past(']', q) == |q| ==> x == ""
    ensures Next(q[..Past(']', q)] + x, PromQL) == Next(q, PromQL)
  {
    var n := Past(']', q);
    if n < |q| {
      PastLocal(']', q, x);
      assert (q[..n] + x)[..n] == q[..n];
    } else {
      assert q[..n] + x == q;
    }
  }

  lemma NextNumber(q: string, x: string)
    requires q != "" && IsNumberStart(q[0])
    requires SameStart(q[NumberLength(q)..], x)
    ensures Next(q[..NumberLength(q)] + x, PromQL) == Next(q, PromQL)
  {
    hide Span, NumberTail, SameStart, LiteralLength, BraceOffset, Past;
    var n := NumberLength(q);
    var a := Span(IsNumberStart, q);
    NumberLocal(q, a, NumberTail(q[a..]), x);
    assert (q[..n] + x)[..n] == q[..n];
  }

  lemma NextIdentifier(q: string, n: nat, x: string)
    requires q != "" && IsIdentStart(q[0]) && n == Identifier(q).length
    requires SameAhead(q[n..], x)
    ensures Next(q[..n] + x, PromQL) == Next(q, PromQL)
  {
    hide IsLabelList, IsBareMetric, Past, LiteralLength, BraceOffset, NumberLength, SameAhead;
    IdentifierLocal(q, n, x);
  }

  /** One piece is read the same when its continuation changes only beyond the lookahead. */
  lemma NextLocal(q: string, lang: Lang, n: nat, x: string)
    requires q != "" && Next(q, lang).Some? && n == Next(q, lang).value.length
    requires q[n..] == "" ==> x == ""
    requires lang == PromQL ==> SameAhead(q[n..], x)
    ensures Next(q[..n] + x, lang) == Next(q, lang)
  {
    hide IsLabelList, IsBareMetric, Past, LiteralTail, NumberLength, SameStart, Opens, ModifierAhead;
    var c := q[0];
    if IsQuote(c) {
      NextLiteral(q, lang, x);
    } else if c == '{' {
      NextGroup(q, lang, n - 2, x);
    } else if lang == PromQL && c == '[' {
      NextRange(q, x);
    } else if lang == PromQL && IsNumberStart(c) {
      NextNumber(q, x);
    } else if lang == PromQL && IsIdentStart(c) {
      NextIdentifier(q, n, x);
    } else {
      assert (q[..1] + x)[..1] == q[..1];
    }
  }

  // ---- Holding changes nothing a scanner looks ahead at ----

  /** The held text of a well-formed query. */
  function Held(q: string, lang: Lang, m: string): string
    requires Lex(q, lang).Some?
  {
    Source(HoldAll(Lex(q, lang).value, m))
  }

  lemma HeldStep(q: string, lang: Lang, m: string, r: Reading)
    requires q != "" && Lex(q, lang).Some? && Next(q, lang) == Some(r)
    ensures Lex(q[r.length..], lang).Some?
    ensures Held(q, lang, m) == Source(Hold(r.piece, m)) + Held(q[r.length..], lang, m)
  {
    var ps := Lex(q, lang).value;
    assert ps[1..] == Lex(q[r.length..], lang).value;
    SourceAppend(Hold(r.piece, m), HoldAll(ps[1..], m));
  }

  lemma HeldStarts(q: string, lang: Lang, m: string)
    requires q != "" && Lex(q, lang).Some?
    ensures Held(q, lang, m) != "" && Held(q, lang, m)[0] == q[0]
  {
    hide Next, Held, Hold, HoldAll, Source, PieceText;
    var r := Next(q, lang).value;
    HeldStep(q, lang, m, r);
    NextText(q, lang);
    assert q[..r.length][0] == q[0];
    PieceStarts(r.piece, m);
  }

  lemma PieceStarts(p: Piece, m: string)
    requires PieceText(p) != ""
    ensures Source(Hold(p, m)) != "" && Source(Hold(p, m))[0] == PieceText(p)[0]
  {
    hide Hold, Source, WithMatcher;
    HeldText(p, m);
    match p
    case Copy(_) =>
    case Group(_) =>
    case Bare(_) =>
  }

  predicate IsPlain(c: char) {
    !IsQuote(c) && c != '{' && c != '[' && !IsNumberStart(c) && !IsIdentStart(c)
  }

  lemma HeldPlain(q: string, m: string)
    requires q != "" && IsPlain(q[0]) && Lex(q, PromQL).Some?
    ensures Lex(q[1..], PromQL).Some?
    ensures Held(q, PromQL, m) == q[..1] + Held(q[1..], PromQL, m)
  {
    HeldStep(q, PromQL, m, Verbatim(q, 1));
    HeldText(Copy(q[..1]), m);
  }

  lemma {:induction false} HeldTrim(q: string, m: string)
    requires Lex(q, PromQL).Some?
    ensures Lex(TrimStart(q), PromQL).Some?
    ensures TrimStart(Held(q, PromQL, m)) == Held(TrimStart(q), PromQL, m)
    decreases |q|
  {
    if q != "" && IsSpace(q[0]) {
      HeldPlain(q, m);
      HeldTrim(q[1..], m);
      TrimStartSkips(q[..1], q[1..]);
      assert q == q[..1] + q[1..];
      TrimStartSkips(q[..1], Held(q[1..], PromQL, m));
    } else if q != "" {
      HeldStarts(q, PromQL, m);
      SpanUnique(IsSpace, q, 0);
      SpanUnique(IsSpace, Held(q, PromQL, m), 0);
    }
  }

  lemma HeldOpens(c: char, q: string, m: string)
    requires Lex(q, PromQL).Some?
    ensures Opens(c, q) <==> Opens(c, Held(q, PromQL, m))
  {
    HeldTrim(q, m);
    if TrimStart(q) != "" {
      HeldStarts(TrimStart(q), PromQL, m);
    }
  }

  lemma HeldSameStart(q: string, m: string)
    requires Lex(q, PromQL).Some?
    ensures SameStart(q, Held(q, PromQL, m))
  {
    if q != "" {
      HeldStarts(q, PromQL, m);
      if IsSign(q[0]) {
        HeldPlain(q, m);
        if |q| > 1 {
          HeldStarts(q[1..], PromQL, m);
        }
      }
    }
  }

  predicate IsModifier(id: string) { Lower(id) == "by" || Lower(id) == "without" }

  lemma LowerLetters(w: string, t: string)
    requires |w| <= |t| && Lower(t[..|w|]) == w
    requires forall k | 0 <= k < |w| :: 'a' <= w[k] <= 'z'
    ensures forall k | 0 <= k < |w| :: IsLetter(t[k])
  {
    forall k | 0 <= k < |w|
      ensures IsLetter(t[k])
    {
      assert LowerChar(t[k]) == Lower(t[..|w|])[k] == w[k];
    }
  }

  /** A word before a parenthesis is a whole identifier. */
  lemma WordIsIdent(w: string, t: string)
    requires forall k | 0 <= k < |w| :: 'a' <= w[k] <= 'z'
    ensures WordThenParen(w, t) <==> Lower(Ident(t)) == w && Opens('(', t[|Ident(t)|..])
  {
    if WordThenParen(w, t) {
      LowerLetters(w, t);
      var rest := t[|w|..];
      assert rest[0] == t[|w|];
      SpanUnique(IsIdentChar, t, |w|);
    }
  }

  lemma ModifierIsIdent(s: string)
    ensures ModifierAhead(s) <==>
            IsModifier(Ident(TrimStart(s))) && Opens('(', TrimStart(s)[|Ident(TrimStart(s))|..])
  {
    WordIsIdent("by", TrimStart(s));
    WordIsIdent("without", TrimStart(s));
  }

  /** An identifier and whether a parenthesis follows it, in a text and in its held text. */
  ghost predicate SameIdent(t: string, h: string) {
    && Ident(h) == Ident(t)
    && (IsModifier(Ident(t)) ==> (Opens('(', t[|Ident(t)|..]) <==> Opens('(', h[|Ident(t)|..])))
  }

  lemma LabelListSameIdent(t: string, n: nat, x: string)
    requires Opens('(', t[|Ident(t)|..]) && n == |Ident(t)| + Past(')', t[|Ident(t)|..])
    requires SameStart(t[n..], x)
    ensures SameIdent(t, t[..n] + x)
  {
    var rest := t[|Ident(t)|..];
    PrefixThen(t, |Ident(t)|, n - |Ident(t)|, x);
    ListRestLocal(rest, x);
    IdentLocal(t, n, x);
  }

  lemma WordSameIdent(t: string, x: string)
    requires SameStart(t[|Ident(t)|..], x) && (Opens('(', t[|Ident(t)|..]) <==> Opens('(', x))
    ensures SameIdent(t, Ident(t) + x)
  {
    IdentLocal(t, |Ident(t)|, x);
    assert (Ident(t) + x)[|Ident(t)|..] == x;
  }

  lemma ModifierIsKeyword(w: string)
    ensures IsModifier(w) ==> IsListKeyword(Lower(w)) && IsKeyword(Lower(w))
  {
  }

  lemma BareSameIdent(t: string, x: string)
    requires IsBareMetric(t)
    requires x != "" && x[0] == '{'
    ensures SameIdent(t, Ident(t) + x)
  {
    hide Span, IsKeyword, IsModifier, Lower, Opens, ModifierAhead;
    SpanUnique(IsIdentChar, Ident(t) + x, |Ident(t)|);
    ModifierIsKeyword(Ident(t));
  }

  lemma HeldIdentifier(t: string, m: string, r: Reading, rest: string)
    requires t != "" && IsIdentStart(t[0]) && Lex(t, PromQL).Some?
    requires r == Identifier(t) && rest == t[r.length..]
    ensures Lex(rest, PromQL).Some?
    ensures Held(t, PromQL, m) == Source(Hold(r.piece, m)) + Held(rest, PromQL, m)
  {
    hide IsLabelList, IsBareMetric, Past, LiteralLength, BraceOffset, NumberLength, IsSpace;
    HeldStep(t, PromQL, m, r);
  }

  lemma IdentifierSameIdent(t: string, m: string, r: Reading, x: string)
    requires t != "" && IsIdentStart(t[0]) && r == Identifier(t)
    requires SameStart(t[r.length..], x) && (Opens('(', t[r.length..]) <==> Opens('(', x))
    ensures SameIdent(t, Source(Hold(r.piece, m)) + x)
  {
    hide Span, Past, Ident, IsBareMetric, IsListKeyword, Lower, SameIdent, SameStart, Opens, Hold, Source;
    HeldText(r.piece, m);
    if IsLabelList(t) {
      LabelListSameIdent(t, r.length, x);
    } else if IsBareMetric(t) {
      BareSameIdent(t, "{" + m + "}" + x);
      Assoc(Ident(t), "{" + m + "}", x);
    } else {
      WordSameIdent(t, x);
    }
  }

  lemma HeldIdent(t: string, m: string)
    requires t != "" && IsIdentStart(t[0]) && Lex(t, PromQL).Some?
    ensures SameIdent(t, Held(t, PromQL, m))
  {
    var r := Identifier(t);
    var rest := t[r.length..];
    HeldIdentifier(t, m, r, rest);
    HeldSameStart(rest, m);
    HeldOpens('(', rest, m);
    IdentifierSameIdent(t, m, r, Held(rest, PromQL, m));
  }

  lemma NoModifier(t: string)
    requires t == "" || !IsIdentStart(t[0])
    ensures !IsModifier(Ident(t))
  {
    if Ident(t) != "" {
      assert Lower(Ident(t))[0] == LowerChar(t[0]);
    }
  }

  lemma HeldModifierTrimmed(t: string, m: string)
    requires Lex(t, PromQL).Some?
    ensures SameIdent(t, Held(t, PromQL, m)) || (!IsModifier(Ident(t)) && !IsModifier(Ident(Held(t, PromQL, m))))
  {
    if t != "" {
      HeldStarts(t, PromQL, m);
    }
    if t != "" && IsIdentStart(t[0]) {
      HeldIdent(t, m);
    } else {
      NoModifier(t);
      NoModifier(Held(t, PromQL, m));
    }
  }

  lemma HeldModifier(q: string, m: string)
    requires Lex(q, PromQL).Some?
    ensures ModifierAhead(q) <==> ModifierAhead(Held(q, PromQL, m))
  {
    HeldTrim(q, m);
    ModifierIsIdent(q);
    ModifierIsIdent(Held(q, PromQL, m));
    HeldModifierTrimmed(TrimStart(q), m);
  }

  lemma HeldAhead(q: string, m: string)
    requires Lex(q, PromQL).Some?
    ensures SameAhead(q, Held(q, PromQL, m))
  {
    HeldSameStart(q, m);
    HeldOpens('(', q, m);
    HeldOpens('{', q, m);
    HeldModifier(q, m);
  }

  // ---- A held query reads back as its held pieces ----

  /** A cluster name that stands for itself inside a double-quoted literal. */
  predicate IsClean(cluster: string) { '"' !in cluster && '\\' !in cluster }

  /** `inner` is a complete body: the `}` after it closes the brace before it. */
  predicate Closes(inner: string) { BraceOffset(inner + "}") == Some(|inner|) }

  lemma {:induction false} CleanLiteral(cluster: string, rest: string)
    requires IsClean(cluster)
    ensures LiteralTail('"', cluster + "\"" + rest) == |cluster| + 1
  {
    var s := cluster + "\"" + rest;
    if cluster != "" {
      CleanLiteral(cluster[1..], rest);
      assert s[1..] == cluster[1..] + "\"" + rest;
      assert s[0] == cluster[0];
    }
  }

  lemma {:induction false} BraceSkipsWord(w: string, rest: string)
    requires forall k | 0 <= k < |w| :: !IsQuote(w[k]) && w[k] != '}'
    ensures BraceOffset(w + rest) == Shift(|w|, BraceOffset(rest))
  {
    if w == "" {
      assert w + rest == rest;
    } else {
      BraceSkipsWord(w[1..], rest);
      BraceSkipsChar(w[0], w[1..] + rest);
      assert w + rest == [w[0]] + (w[1..] + rest);
    }
  }

  lemma BraceSkipsMatcher(cluster: string, rest: string)
    requires IsClean(cluster)
    ensures BraceOffset(Matcher(cluster) + rest) == Shift(|Matcher(cluster)|, BraceOffset(rest))
  {
    hide BraceOffset, LiteralTail;
    var lit := "\"" + cluster + "\"";
    CleanLiteral(cluster, rest);
    assert (lit + rest)[1..] == cluster + "\"" + rest;
    BraceSkipsLiteral(lit, rest);
    BraceSkipsWord("cluster=", lit + rest);
    assert Matcher(cluster) + rest == "cluster=" + (lit + rest);
  }

  lemma SpacesArePlain(w: string)
    requires AllSpace(w)
    ensures forall k | 0 <= k < |w| :: !IsQuote(w[k]) && w[k] != '}'
  {
  }

  lemma TrimmedCloses(inner: string)
    requires Closes(inner)
    ensures Closes(TrimStart(inner))
  {
    var t := TrimStart(inner);
    var w := inner[..|inner| - |t|];
    SpacesArePlain(w);
    BraceSkipsWord(w, t + "}");
    assert inner + "}" == w + (t + "}");
  }

  lemma BraceHere()
    ensures BraceOffset("}") == Some(0)
  {
  }

  lemma WithMatcherCloses(inner: string, cluster: string)
    requires IsClean(cluster) && Closes(inner)
    ensures Closes(WithMatcher(inner, Matcher(cluster)))
  {
    hide Matcher, HasCluster, BraceOffset, Trim;
    var m := Matcher(cluster);
    var t := TrimStart(inner);
    BraceHere();
    BraceSkipsMatcher(cluster, "}");
    TrimmedCloses(inner);
    BraceSkipsWord(", ", t + "}");
    BraceSkipsMatcher(cluster, ", " + (t + "}"));
    assert m + ", " + t + "}" == m + (", " + (t + "}"));
  }

  lemma ClusterEquals(b: string)
    requires b != "" && b[0] == '='
    ensures NamesCluster("cluster" + b)
  {
    var s := "cluster" + b;
    SpanUnique(IsSpace, s, 0);
    SpanUnique(IsSpace, b, 0);
    assert s[0..] == s && s[7..] == b && b[0..] == b;
  }

  lemma FirstNamesCluster(s: string)
    requires NamesCluster(s)
    ensures HasCluster(s)
  {
    assert ("{" + s)[0 + 1..] == s;
    assert ("{" + s)[0] == '{';
  }

  lemma MatcherHasCluster(cluster: string, s: string)
    requires Matcher(cluster) <= s
    ensures HasCluster(s)
  {
    hide HasCluster, NamesCluster;
    var b := s[7..];
    assert s[7] == Matcher(cluster)[7] == '=';
    assert s[..7] == Matcher(cluster)[..7] == "cluster";
    ClusterEquals(b);
    assert s == "cluster" + b;
    FirstNamesCluster(s);
  }

  /** Every selector body the scanner leaves behind names a cluster. */
  lemma WithMatcherSettles(inner: string, cluster: string)
    ensures HasCluster(WithMatcher(inner, Matcher(cluster)))
  {
    if !HasCluster(inner) {
      MatcherHasCluster(cluster, WithMatcher(inner, Matcher(cluster)));
    }
  }

  lemma GroupReads(inner: string, rest: string, lang: Lang)
    requires Closes(inner)
    ensures Next(PieceText(Group(inner)) + rest, lang) == Some(Reading(Group(inner), |inner| + 2))
  {
    var q := PieceText(Group(inner)) + rest;
    BraceLocal(inner + "}", |inner|, rest);
    assert (inner + "}")[..|inner| + 1] + rest == q[1..];
    assert q[1..|inner| + 1] == inner;
  }

  lemma NextCloses(q: string, lang: Lang, inner: string)
    requires q != "" && Next(q, lang).Some? && Next(q, lang).value.piece == Group(inner)
    ensures Closes(inner)
  {
    BraceLocal(q[1..], |inner|, "");
    assert q[1..][..|inner| + 1] + "" == inner + "}";
  }

  lemma BareIsAhead(id: string, m: string, rest: string)
    requires id != "" && IsIdentStart(id[0]) && Ident(id) == id
    requires !IsKeyword(Lower(id))
    ensures var after := PieceText(Group(m)) + rest;
            && Next(id + after, PromQL) == Some(Reading(Copy(id), |id|))
            && (id + after)[|id|..] == after
  {
    hide Span, IsKeyword, IsListKeyword, Lower, ModifierAhead, LiteralLength, BraceOffset, NumberLength, Past;
    var after := PieceText(Group(m)) + rest;
    SpanUnique(IsIdentChar, id + after, |id|);
    SpanUnique(IsSpace, after, 0);
    assert Ident(id + after) == id;
    assert Opens('{', after);
  }

  lemma BarePiece(q: string, lang: Lang, name: string)
    requires q != "" && Next(q, lang).Some? && Next(q, lang).value.piece == Bare(name)
    ensures lang == PromQL && name != "" && IsIdentStart(name[0]) && Ident(name) == name
    ensures !IsKeyword(Lower(name))
  {
    SpanUnique(IsIdentChar, name, |name|);
  }

  lemma LexStep(q: string, lang: Lang, p: Piece, rest: string)
    requires q == PieceText(p) + rest && PieceText(p) != ""
    requires Next(q, lang) == Some(Reading(p, |PieceText(p)|))
    requires Lex(rest, lang).Some?
    ensures Lex(q, lang) == Some([p] + Lex(rest, lang).value)
  {
    assert q[|PieceText(p)|..] == rest;
  }

  /** A piece as it goes out is read back as the pieces it was held to. */
  lemma RelexPiece(q: string, lang: Lang, cluster: string, r: Reading, x: string)
    requires IsClean(cluster)
    requires q != "" && Next(q, lang) == Some(r)
    requires q[r.length..] == "" ==> x == ""
    requires lang == PromQL ==> SameAhead(q[r.length..], x)
    requires Lex(x, lang).Some?
    ensures Lex(Source(Hold(r.piece, Matcher(cluster))) + x, lang)
         == Some(Hold(r.piece, Matcher(cluster)) + Lex(x, lang).value)
  {
    hide Next, Lex, Matcher, Closes, IsClean, WithMatcher, SameAhead, Source, Span;
    var m := Matcher(cluster);
    HeldText(r.piece, m);
    match r.piece
    case Copy(text) =>
      NextText(q, lang);
      NextLocal(q, lang, r.length, x);
      LexStep(text + x, lang, r.piece, x);
    case Group(inner) =>
      NextCloses(q, lang, inner);
      WithMatcherCloses(inner, cluster);
      var g := Group(WithMatcher(inner, m));
      GroupReads(g.inner, x, lang);
      LexStep(PieceText(g) + x, lang, g, x);
    case Bare(name) =>
      RelexBare(q, lang, cluster, name, x);
  }

  lemma RelexBare(q: string, lang: Lang, cluster: string, name: string, x: string)
    requires IsClean(cluster)
    requires q != "" && Next(q, lang).Some? && Next(q, lang).value.piece == Bare(name)
    requires Lex(x, lang).Some?
    ensures Lex(name + ("{" + Matcher(cluster) + "}") + x, lang)
         == Some(Hold(Bare(name), Matcher(cluster)) + Lex(x, lang).value)
  {
    hide Next, Lex, Matcher, Closes, IsClean, Span, IsKeyword, IsIdentStart;
    var m := Matcher(cluster);
    BraceSkipsMatcher(cluster, "}");
    GroupReads(m, x, lang);
    var after := PieceText(Group(m)) + x;
    LexStep(after, lang, Group(m), x);
    BarePiece(q, lang, name);
    BareIsAhead(name, m, x);
    LexStep(name + after, lang, Copy(name), after);
    Assoc(name, "{" + m + "}", x);
    assert [Copy(name)] + ([Group(m)] + Lex(x, lang).value) == Hold(Bare(name), m) + Lex(x, lang).value;
  }

  /** The held text of a query reads back as exactly its held pieces. */
  lemma {:induction false} Relex(q: string, cluster: string, lang: Lang)
    requires IsClean(cluster) && Lex(q, lang).Some?
    ensures Lex(Held(q, lang, Matcher(cluster)), lang) == Some(HoldAll(Lex(q, lang).value, Matcher(cluster)))
    decreases |q|
  {
    var m := Matcher(cluster);
    if q != "" {
      var r := Next(q, lang).value;
      var rest := q[r.length..];
      HeldStep(q, lang, m, r);
      Relex(rest, cluster, lang);
      if lang == PromQL {
        HeldAhead(rest, m);
      }
      RelexPiece(q, lang, cluster, r, Held(rest, lang, m));
    }
  }

  // ---- Main results ----

  /** A piece that scoping leaves alone: no bare metric, and every selector body names a cluster. */
  predicate IsSettled(p: Piece) {
    match p
    case Copy(_) => true
    case Group(inner) => HasCluster(inner)
    case Bare(_) => false
  }

  predicate AllSettled(ps: seq<Piece>) { forall k | 0 <= k < |ps| :: IsSettled(ps[k]) }

  lemma HoldSettles(p: Piece, cluster: string)
    ensures AllSettled(Hold(p, Matcher(cluster)))
  {
    hide HasCluster, Matcher, WithMatcher;
    match p
    case Copy(_) =>
    case Group(inner) => WithMatcherSettles(inner, cluster);
    case Bare(_) => MatcherHasCluster(cluster, Matcher(cluster));
  }

  lemma {:induction false} HeldIsSettled(ps: seq<Piece>, cluster: string)
    ensures AllSettled(HoldAll(ps, Matcher(cluster)))
  {
    if ps != [] {
      HeldIsSettled(ps[1..], cluster);
      HoldSettles(ps[0], cluster);
    }
  }

  lemma {:induction false} SettledIsKept(ps: seq<Piece>, m: string)
    requires AllSettled(ps)
    ensures HoldAll(ps, m) == ps
  {
    if ps != [] {
      SettledIsKept(ps[1..], m);
      assert ps == [ps[0]] + ps[1..];
      assert IsSettled(ps[0]);
    }
  }

  /** After scoping, every selector names a cluster and no metric is bare. */
  lemma ScopedIsSettled(q: string, cluster: string, lang: Lang)
    requires IsClean(cluster) && Lex(q, lang).Some?
    ensures Lex(Scoped(q, cluster, lang), lang).Some?
    ensures AllSettled(Lex(Scoped(q, cluster, lang), lang).value)
  {
    Relex(q, cluster, lang);
    HeldIsSettled(Lex(q, lang).value, cluster);
  }

  /** Scoping a scoped query changes nothing, even for another cluster. */
  lemma ScopingIsIdempotent(q: string, cluster: string, other: string, lang: Lang)
    requires IsClean(cluster)
    ensures Scoped(Scoped(q, cluster, lang), other, lang) == Scoped(q, cluster, lang)
  {
    if Lex(q, lang).Some? {
      var r := Scoped(q, cluster, lang);
      ScopedIsSettled(q, cluster, lang);
      SettledIsKept(Lex(r, lang).value, Matcher(other));
      LexSource(r, lang);
    }
  }

  /** A query comes back as it was exactly when it is malformed or already settled. */
  lemma UnchangedIff(q: string, cluster: string, lang: Lang)
    requires IsClean(cluster)
    ensures Scoped(q, cluster, lang) == q <==> Lex(q, lang).None? || AllSettled(Lex(q, lang).value)
  {
    if Lex(q, lang).Some? {
      ScopedIsSettled(q, cluster, lang);
      if AllSettled(Lex(q, lang).value) {
        SettledIsKept(Lex(q, lang).value, Matcher(cluster));
        LexSource(q, lang);
      }
    }
  }

  /**
   * `r` is `q` with nothing but insertions: a whole selector `{m}`, or `m` at the head of a
   * selector body, where white space leading the body may go.
   */
  ghost predicate OnlyInserts(q: string, r: string, m: string)
    decreases |q| + |r|
  {
    || (q == "" && r == "")
    || (q != "" && r != "" && q[0] == r[0] && OnlyInserts(q[1..], r[1..], m))
    || ("{" + m + "}" <= r && OnlyInserts(q, r[|m| + 2..], m))
    || (exists k | 0 < k < |q| && q[0] == '{' && AllSpace(q[1..k]) ::
          || ("{" + m + ", " <= r && OnlyInserts(q[k..], r[|m| + 3..], m))
          || ("{" + m <= r && q[k] == '}' && OnlyInserts(q[k..], r[|m| + 1..], m)))
  }

  lemma {:induction false} KeepInserts(t: string, q: string, r: string, m: string)
    requires OnlyInserts(q, r, m)
    ensures OnlyInserts(t + q, t + r, m)
  {
    if t == "" {
      assert t + q == q && t + r == r;
    } else {
      KeepInserts(t[1..], q, r, m);
      assert (t + q)[1..] == t[1..] + q && (t + r)[1..] == t[1..] + r;
    }
  }

  lemma InsertSelector(q: string, r: string, m: string)
    requires OnlyInserts(q, r, m)
    ensures OnlyInserts(q, "{" + m + "}" + r, m)
  {
    assert ("{" + m + "}" + r)[|m| + 2..] == r;
  }

  lemma InsertFirst(w: string, q: string, r: string, m: string)
    requires AllSpace(w) && q != "" && OnlyInserts(q, r, m)
    ensures OnlyInserts("{" + w + q, "{" + m + ", " + r, m)
    ensures q[0] == '}' ==> OnlyInserts("{" + w + q, "{" + m + r, m)
  {
    var s := "{" + w + q;
    var k := |w| + 1;
    assert s[1..k] == w && s[k..] == q;
    assert ("{" + m + ", " + r)[|m| + 3..] == r;
    assert ("{" + m + r)[|m| + 1..] == r;
    assert s[k] == q[0];
  }

  lemma HoldOnlyInserts(p: Piece, m: string, q: string, r: string)
    requires OnlyInserts(q, r, m)
    ensures OnlyInserts(PieceText(p) + q, Source(Hold(p, m)) + r, m)
  {
    hide OnlyInserts, HasCluster, Hold, Source;
    HeldText(p, m);
    match p
    case Copy(text) => KeepInserts(text, q, r, m);
    case Bare(name) =>
      InsertSelector(q, r, m);
      KeepInserts(name, q, "{" + m + "}" + r, m);
      Assoc(name, "{" + m + "}", r);
    case Group(inner) =>
      if HasCluster(inner) {
        KeepInserts("{" + inner + "}", q, r, m);
      } else {
        GroupOnlyInserts(inner, m, q, r);
      }
  }

  lemma GroupOnlyInserts(inner: string, m: string, q: string, r: string)
    requires OnlyInserts(q, r, m) && !HasCluster(inner)
    ensures OnlyInserts("{" + inner + "}" + q, "{" + WithMatcher(inner, m) + "}" + r, m)
  {
    hide OnlyInserts, HasCluster;
    TrimIsEmpty(inner);
    if AllSpace(inner) {
      EmptyGroupInserts(inner, m, q, r);
    } else {
      var t := TrimStart(inner);
      FilledGroupInserts(inner[..|inner| - |t|], t, m, q, r);
      assert inner == inner[..|inner| - |t|] + t;
    }
  }

  lemma EmptyGroupInserts(w: string, m: string, q: string, r: string)
    requires OnlyInserts(q, r, m) && AllSpace(w)
    ensures OnlyInserts("{" + w + "}" + q, "{" + m + "}" + r, m)
  {
    hide OnlyInserts, AllSpace;
    KeepInserts("}", q, r, m);
    InsertFirst(w, "}" + q, "}" + r, m);
    Assoc("{" + w, "}", q);
    Assoc("{" + m, "}", r);
  }

  lemma FilledGroupInserts(w: string, t: string, m: string, q: string, r: string)
    requires OnlyInserts(q, r, m) && AllSpace(w)
    ensures OnlyInserts("{" + (w + t) + "}" + q, "{" + (m + ", " + t) + "}" + r, m)
  {
    hide OnlyInserts, AllSpace;
    KeepInserts(t + "}", q, r, m);
    InsertFirst(w, t + "}" + q, t + "}" + r, m);
    assert "{" + (w + t) + "}" + q == "{" + w + (t + "}" + q);
    assert "{" + (m + ", " + t) + "}" + r == "{" + m + ", " + (t + "}" + r);
  }

  lemma HeldInsertsStep(q: string, lang: Lang, m: string, r: Reading)
    requires q != "" && Lex(q, lang).Some? && Next(q, lang) == Some(r)
    requires Lex(q[r.length..], lang).Some?
    requires OnlyInserts(q[r.length..], Held(q[r.length..], lang, m), m)
    ensures OnlyInserts(q, Held(q, lang, m), m)
  {
    hide OnlyInserts, Hold, Source, HoldAll, Next;
    var rest := q[r.length..];
    HeldStep(q, lang, m, r);
    HoldOnlyInserts(r.piece, m, rest, Held(rest, lang, m));
    NextText(q, lang);
    assert q[..r.length] + rest == q;
  }

  lemma {:induction false} HeldOnlyInserts(q: string, lang: Lang, m: string)
    requires Lex(q, lang).Some?
    ensures OnlyInserts(q, Held(q, lang, m), m)
    decreases |q|
  {
    hide Next;
    if q != "" {
      var r := Next(q, lang).value;
      HeldOnlyInserts(q[r.length..], lang, m);
      HeldInsertsStep(q, lang, m, r);
    }
  }

  /** Scoping only inserts: the query's own text, strings and label lists included, stays in place. */
  lemma ScopingOnlyInserts(q: string, cluster: string, lang: Lang)
    requires Lex(q, lang).Some?
    ensures OnlyInserts(q, Scoped(q, cluster, lang), Matcher(cluster))
  {
    HeldOnlyInserts(q, lang, Matcher(cluster));
  }
}
