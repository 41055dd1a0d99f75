/**
 * The query rewriter: every selector of a PromQL or LogQL query is held to one cluster.
 *
 * `Lex` is the reference reading of a query: it cuts the text into pieces, of which only `Group`
 * (the body of a `{...}`) and `Bare` (a metric name without one) are ever changed. The scanning
 * methods at the end compute exactly the text of the held pieces.
 */
module Scope {
  import opened Text

  datatype Lang = PromQL | LogQL

  datatype Piece = Copy(text: string) | Group(inner: string) | Bare(name: string)

  /** A piece and how much of the text it is. */
  datatype Reading = Reading(piece: Piece, length: nat)

  predicate IsListKeyword(word: string) {
    word in {"by", "without", "on", "ignoring", "group_left", "group_right"}
  }

  predicate IsKeyword(word: string) {
    || IsListKeyword(word)
    || word in {"bool", "offset", "and", "or", "unless", "atan2", "inf", "nan", "start", "end"}
  }

  predicate IsQuote(c: char) { c == '"' || c == '\'' || c == '`' }

  predicate IsNumberStart(c: char) { IsDigit(c) || c == '.' }

  predicate IsWordChar(c: char) { IsLetter(c) || IsDigit(c) || c == '_' }

  predicate IsIdentStart(c: char) { IsLetter(c) || c == '_' || c == ':' }

  predicate IsIdentChar(c: char) { IsWordChar(c) || c == ':' }

  function LowerChar(c: char): char { if 'A' <= c <= 'Z' then c - 'A' + 'a' else c }

  function Lower(s: string): (r: string)
    ensures |r| == |s|
    ensures forall k | 0 <= k < |s| :: r[k] == LowerChar(s[k])
  {
    seq(|s|, i requires 0 <= i < |s| => LowerChar(s[i]))
  }

  // ---- Reading one piece ----

  /** Length of the rest of a string literal, closing quote included, after its opening `quote`. */
  function LiteralTail(quote: char, s: string): (n: nat)
    ensures n <= |s|
  {
    if s == "" then 0
    else if s[0] == quote then 1
    else if quote != '`' && s[0] == '\\' && |s| >= 2 then 2 + LiteralTail(quote, s[2..])
    else 1 + LiteralTail(quote, s[1..])
  }

  /** Length of the string literal `q` opens with; an unterminated one runs to the end. */
  function LiteralLength(q: string): (n: nat)
    requires q != ""
    ensures 0 < n <= |q|
  {
    1 + LiteralTail(q[0], q[1..])
  }

  /** Offset of the first `}` of `s` that is in no string literal. */
  function BraceOffset(s: string): (r: Option<nat>)
    ensures r.Some? ==> r.value < |s| && s[r.value] == '}'
    decreases |s|
  {
    if s == "" then None
    else if IsQuote(s[0]) then Shift(LiteralLength(s), BraceOffset(s[LiteralLength(s)..]))
    else if s[0] == '}' then Some(0)
    else Shift(1, BraceOffset(s[1..]))
  }

  function Shift(n: nat, o: Option<nat>): Option<nat> {
    match o
    case None => None
    case Some(k) => Some(n + k)
  }

  /** Length of `s` up to and including the first `c`; all of `s` when there is none. */
  function Past(c: char, s: string): (n: nat)
    ensures n <= |s| && (s != "" ==> n > 0)
  {
    if Find(c, s) < |s| then Find(c, s) + 1 else |s|
  }

  /** The first character of `s` after white space is `c`. */
  predicate Opens(c: char, s: string) {
    var t := TrimStart(s);
    t != "" && t[0] == c
  }

  predicate IsSign(c: char) { c == '+' || c == '-' }

  /** Length of an exponent such as `e-3` at the start of `s`; 0 when there is none. */
  function ExponentLength(s: string): (n: nat)
    ensures n <= |s|
  {
    if s != "" && (s[0] == 'e' || s[0] == 'E') then
      var sign := if |s| > 1 && IsSign(s[1]) then 2 else 1;
      var digits := Span(IsDigit, s[sign..]);
      if digits > 0 then sign + digits else 0
    else 0
  }

  /** A number or a duration, consumed whole. */
  function NumberLength(q: string): (n: nat)
    requires q != "" && IsNumberStart(q[0])
    ensures 0 < n <= |q|
  {
    var a := Span(IsNumberStart, q);
    a + NumberTail(q[a..])
  }

  /** What follows the digits of a number: an exponent, and the letters of a unit. */
  function NumberTail(s: string): (n: nat)
    ensures n <= |s|
  {
    var e := ExponentLength(s);
    e + Span(IsWordChar, s[e..])
  }

  predicate WordThenParen(w: string, t: string) {
    |w| <= |t| && Lower(t[..|w|]) == w && Opens('(', t[|w|..])
  }

  /** An aggregation modifier comes next, as in `sum by (pod) (...)`. */
  predicate ModifierAhead(s: string) {
    var t := TrimStart(s);
    WordThenParen("by", t) || WordThenParen("without", t)
  }

  function Ident(q: string): (id: string)
    ensures |id| <= |q| && id == q[..|id|]
  {
    q[..Span(IsIdentChar, q)]
  }

  /** `by (a, b)` and its like: the names in the parentheses are labels, not metrics. */
  predicate IsLabelList(q: string) {
    IsListKeyword(Lower(Ident(q))) && Opens('(', q[|Ident(q)|..])
  }

  /** An identifier that is no keyword, no call, no selector's name and no aggregation's name. */
  predicate IsBareMetric(q: string) {
    var rest := q[|Ident(q)|..];
    !IsKeyword(Lower(Ident(q))) && !Opens('(', rest) && !Opens('{', rest) && !ModifierAhead(rest)
  }

  function Identifier(q: string): (r: Reading)
    requires q != "" && IsIdentStart(q[0])
    ensures 0 < r.length <= |q|
  {
    if IsLabelList(q) then Verbatim(q, |Ident(q)| + Past(')', q[|Ident(q)|..]))
    else if IsBareMetric(q) then Reading(Bare(Ident(q)), |Ident(q)|)
    else Verbatim(q, |Ident(q)|)
  }

  function Verbatim(q: string, n: nat): Reading
    requires n <= |q|
  {
    Reading(Copy(q[..n]), n)
  }

  function PieceText(p: Piece): string {
    match p
    case Copy(text) => text
    case Group(inner) => "{" + inner + "}"
    case Bare(name) => name
  }

  /** The piece a query starts with; none when a `{` is never closed. */
  function Next(q: string, lang: Lang): (r: Option<Reading>)
    requires q != ""
    ensures r.Some? ==> 0 < r.value.length <= |q|
  {
    var c := q[0];
    if IsQuote(c) then Some(Verbatim(q, LiteralLength(q)))
    else if c == '{' then
      match BraceOffset(q[1..])
      case None => None
      case Some(j) => Some(Reading(Group(q[1..j + 1]), j + 2))
    else if lang == LogQL then Some(Verbatim(q, 1))
    else if c == '[' then Some(Verbatim(q, Past(']', q)))
    else if IsNumberStart(c) then Some(Verbatim(q, NumberLength(q)))
    else if IsIdentStart(c) then Some(Identifier(q))
    else Some(Verbatim(q, 1))
  }

  /** All pieces of a query; none when a `{` is never closed. */
  function Lex(q: string, lang: Lang): (r: Option<seq<Piece>>)
    decreases |q|
  {
    if q == "" then Some([])
    else
      match Next(q, lang)
      case None => None
      case Some(r) =>
        match Lex(q[r.length..], lang)
        case None => None
        case Some(ps) => Some([r.piece] + ps)
  }

  function Source(ps: seq<Piece>): string {
    if ps == [] then "" else PieceText(ps[0]) + Source(ps[1..])
  }

  // ---- Holding the pieces ----

  function Matcher(cluster: string): string { "cluster=\"" + cluster + "\"" }

  /** `cluster` and a comparison operator come next. */
  predicate NamesCluster(s: string) {
    var a := TrimStart(s);
    |a| >= 7 && a[..7] == "cluster" &&
    var b := TrimStart(a[7..]);
    b != "" && (b[0] == '=' || (|b| > 1 && b[0] == '!' && (b[1] == '=' || b[1] == '~')))
  }

  /** The test the scanner puts to a selector's raw text, string literals included. */
  predicate HasCluster(inner: string) {
    exists i | 0 <= i < |"{" + inner| :: ("{" + inner)[i] in "{," && NamesCluster(("{" + inner)[i + 1..])
  }

  function WithMatcher(inner: string, matcher: string): string {
    if HasCluster(inner) then inner
    else if Trim(inner) != "" then matcher + ", " + TrimStart(inner)
    else matcher
  }

  function Hold(p: Piece, matcher: string): seq<Piece> {
    match p
    case Copy(_) => [p]
    case Group(inner) => [Group(WithMatcher(inner, matcher))]
    case Bare(name) => [Copy(name), Group(matcher)]
  }

  function HoldAll(ps: seq<Piece>, matcher: string): seq<Piece> {
    if ps == [] then [] else Hold(ps[0], matcher) + HoldAll(ps[1..], matcher)
  }

  /** What the program makes of `query`: the held pieces, or the text itself when it is malformed. */
  function Scoped(query: string, cluster: string, lang: Lang): string {
    match Lex(query, lang)
    case None => query
    case Some(ps) => Source(HoldAll(ps, Matcher(cluster)))
  }

  // ---- The scanner ----

  /** Index just past the string literal that opens at `i`. */
  method EndOfString(q: string, i: nat) returns (end: nat)
    requires i < |q|
    ensures end == i + LiteralLength(q[i..])
  {
    var quote := q[i];
    var j := i + 1;
    assert q[i..][1..] == q[j..];
    while j < |q| && q[j] != quote
      invariant i < j <= |q| + 1
      invariant j <= |q| ==> LiteralTail(quote, q[i + 1..]) == j - (i + 1) + LiteralTail(quote, q[j..])
      invariant j == |q| + 1 ==> LiteralTail(quote, q[i + 1..]) == |q| - (i + 1)
      decreases |q| + 1 - j
    {
      if quote != '`' && q[j] == '\\' {
        if j + 1 < |q| {
          assert q[j..][2..] == q[j + 2..];
        } else {
          assert q[j..][1..] == "";
        }
        j := j + 2;
      } else {
        assert q[j..][1..] == q[j + 1..];
        j := j + 1;
      }
    }
    end := if j + 1 <= |q| then j + 1 else |q|;
  }

  /** Index of the `}` closing the `{` at `i`, skipping strings; -1 if none. */
  method CloseBrace(q: string, i: nat) returns (close: int)
    requires i < |q|
    ensures close == match BraceOffset(q[i + 1..]) case None => -1 case Some(n) => i + 1 + n
  {
    hide LiteralLength, LiteralTail;
    var j := i + 1;
    while j < |q|
      invariant i < j <= |q|
      invariant BraceOffset(q[i + 1..]) == Shift(j - (i + 1), BraceOffset(q[j..]))
    {
      var c := q[j];
      if IsQuote(c) {
        var k := EndOfString(q, j);
        assert q[j..][LiteralLength(q[j..])..] == q[k..];
        j := k;
      } else if c == '}' {
        return j;
      } else {
        assert q[j..][1..] == q[j + 1..];
        j := j + 1;
      }
    }
    close := -1;
  }

  /** Reads the identifier at `i`: its text as it goes out, and where reading goes on. */
  method ScanIdentifier(query: string, i: nat, matcher: string) returns (piece: string, j: nat)
    requires i < |query| && IsIdentStart(query[i])
    ensures j == i + Identifier(query[i..]).length
    ensures piece == Source(Hold(Identifier(query[i..]).piece, matcher))
  {
    var rest := query[i..];
    piece := Ident(rest);
    j := i + |piece|;
    if IsLabelList(rest) {
      var end := |piece| + Past(')', rest[|piece|..]);
      piece := rest[..end];
      j := i + end;
    } else if IsBareMetric(rest) {
      piece := piece + ("{" + matcher + "}");
    }
    HeldText(Identifier(rest).piece, matcher);
  }

  /** Reads the piece at `i`: its text as it goes out, and where reading goes on. */
  method ScanPiece(query: string, i: nat, matcher: string, lang: Lang) returns (piece: Option<string>, j: nat)
    requires i < |query|
    ensures piece.Some? == Next(query[i..], lang).Some?
    ensures piece.Some? ==> j == i + Next(query[i..], lang).value.length
    ensures piece.Some? ==> piece.value == Source(Hold(Next(query[i..], lang).value.piece, matcher))
  {
    hide BraceOffset, LiteralTail, NumberLength, Past, IsLabelList, IsBareMetric, Source, Hold, WithMatcher;
    var rest := query[i..];
    var c := query[i];
    if c == '{' {
      var k := CloseBrace(query, i);
      assert rest[1..] == query[i + 1..];
      if k < 0 {
        return None, i;
      }
      assert rest[1..k - i] == query[i + 1..k];
      HeldText(Group(rest[1..k - i]), matcher);
      return Some("{" + WithMatcher(query[i + 1..k], matcher) + "}"), k + 1;
    }
    if !IsQuote(c) && lang == PromQL && c != '[' && !IsNumberStart(c) && IsIdentStart(c) {
      var text;
      text, j := ScanIdentifier(query, i, matcher);
      return Some(text), j;
    }
    if IsQuote(c) {
      j := EndOfString(query, i);
    } else if lang == LogQL {
      j := i + 1;
    } else if c == '[' {
      j := i + Past(']', rest);
    } else if IsNumberStart(c) {
      j := i + NumberLength(rest);
    } else {
      j := i + 1;
    }
    piece := Some(rest[..j - i]);
    HeldText(Copy(rest[..j - i]), matcher);
  }

  /** The query held to `cluster`, by one left-to-right scan. */
  method ScopeQuery(query: string, cluster: string, lang: Lang) returns (r: string)
    ensures r == Scoped(query, cluster, lang)
  {
    var matcher := Matcher(cluster);
    var out := "";
    var i := 0;
    ghost var done: seq<Piece> := [];
    Start(query, lang, matcher);
    while i < |query|
      invariant 0 <= i <= |query|
      invariant ReadSoFar(query, i, lang, matcher, done, out)
    {
      var piece, j := ScanPiece(query, i, matcher, lang);
      if piece.None? {
        Malformed(query, i, lang, matcher, done, out, cluster);
        return query; // the backend says so, on the text as it was written
      }
      done := Advance(query, i, lang, matcher, done, out, piece.value, j);
      out := out + piece.value;
      i := j;
    }
    Finished(query, lang, cluster, done, out);
    r := out;
  }

  /** The scan's invariant: `done` are the pieces before `i`, and `out` is their held text. */
  ghost predicate ReadSoFar(query: string, i: nat, lang: Lang, matcher: string, done: seq<Piece>, out: string) {
    && i <= |query|
    && out == Source(HoldAll(done, matcher))
    && Lex(query, lang) == Prefixed(done, Lex(query[i..], lang))
  }

  ghost function Prefixed(done: seq<Piece>, o: Option<seq<Piece>>): Option<seq<Piece>> {
    match o
    case None => None
    case Some(ps) => Some(done + ps)
  }

  lemma PrefixedStep(done: seq<Piece>, p: Piece, o: Option<seq<Piece>>)
    ensures Prefixed(done, Prefixed([p], o)) == Prefixed(done + [p], o)
  {
    if o.Some? {
      assert done + ([p] + o.value) == done + [p] + o.value;
    }
  }

  lemma Start(query: string, lang: Lang, matcher: string)
    ensures ReadSoFar(query, 0, lang, matcher, [], "")
  {
    assert query[0..] == query;
    if Lex(query, lang).Some? {
      assert [] + Lex(query, lang).value == Lex(query, lang).value;
    }
  }

  lemma Malformed(query: string, i: nat, lang: Lang, matcher: string, done: seq<Piece>, out: string, cluster: string)
    requires i < |query| && ReadSoFar(query, i, lang, matcher, done, out)
    requires Next(query[i..], lang).None?
    ensures Scoped(query, cluster, lang) == query
  {
    assert Lex(query[i..], lang).None?;
  }

  /** One round of the scan keeps its invariant. */
  lemma Advance(query: string, i: nat, lang: Lang, matcher: string, done: seq<Piece>, out: string, piece: string,
      j: nat)
    returns (more: seq<Piece>)
    requires i < |query| && ReadSoFar(query, i, lang, matcher, done, out)
    requires Next(query[i..], lang).Some?
    requires j == i + Next(query[i..], lang).value.length
    requires piece == Source(Hold(Next(query[i..], lang).value.piece, matcher))
    ensures i < j && ReadSoFar(query, j, lang, matcher, more, out + piece)
  {
    var p := Next(query[i..], lang).value.piece;
    more := done + [p];
    assert query[i..][j - i..] == query[j..];
    SourceOfHeld(done, p, matcher);
    PrefixedStep(done, p, Lex(query[j..], lang));
  }

  lemma Finished(query: string, lang: Lang, cluster: string, done: seq<Piece>, out: string)
    requires ReadSoFar(query, |query|, lang, Matcher(cluster), done, out)
    ensures out == Scoped(query, cluster, lang)
  {
    assert query[|query|..] == "";
    assert done + [] == done;
  }

  lemma HeldText(p: Piece, matcher: string)
    ensures Source(Hold(p, matcher)) ==
            match p
            case Copy(text) => text
            case Group(inner) => "{" + WithMatcher(inner, matcher) + "}"
            case Bare(name) => name + ("{" + matcher + "}")
  {
    var h := Hold(p, matcher);
    assert Source(h) == PieceText(h[0]) + Source(h[1..]);
    if p.Bare? {
      assert h[1..] == [Group(matcher)];
      assert Source(h[1..]) == PieceText(h[1]) + Source(h[2..]);
    }
  }

  lemma {:induction false} SourceAppend(a: seq<Piece>, b: seq<Piece>)
    ensures Source(a + b) == Source(a) + Source(b)
  {
    hide PieceText;
    if a == [] {
      assert a + b == b;
    } else {
      SourceAppend(a[1..], b);
      assert (a + b)[1..] == a[1..] + b;
    }
  }

  lemma {:induction false} HoldAppend(a: seq<Piece>, b: seq<Piece>, matcher: string)
    ensures HoldAll(a + b, matcher) == HoldAll(a, matcher) + HoldAll(b, matcher)
  {
    if a == [] {
      assert a + b == b;
    } else {
      HoldAppend(a[1..], b, matcher);
      assert (a + b)[1..] == a[1..] + b;
    }
  }

  lemma SourceOfHeld(done: seq<Piece>, p: Piece, matcher: string)
    ensures Source(HoldAll(done + [p], matcher)) == Source(HoldAll(done, matcher)) + Source(Hold(p, matcher))
  {
    var one := [p];
    HoldAppend(done, one, matcher);
    SourceAppend(HoldAll(done, matcher), HoldAll(one, matcher));
    assert HoldAll(one, matcher) == Hold(one[0], matcher) + HoldAll(one[1..], matcher) == Hold(p, matcher);
  }
}
