/**
 * PromQL as tokens in any layout, and how the scanner reads them.
 *
 * The scanner is no parser: it tells tokens apart by looking at the next character. `Follows` is
 * all it relies on, and `HeldTokens` is what it then does: it holds the selectors and copies the rest.
 */
module PromTokens {
  import opened Text
  import opened Scope
  import opened ScopeProperties

  /** A metric name, a `{...}` body, or both with white space between them. */
  datatype Selection = Selection(name: string, gap: string, body: Option<string>)

  datatype Token =
    | Open | Close | Comma
    | Operator(text: string)
    | Word(text: string)
    | Labels(keyword: string, gap: string, names: string)
    | Number(text: string)
    | Literal(text: string)
    | Range(inner: string)
    | Metric(selection: Selection)

  function SelectionText(s: Selection): string {
    match s.body
    case None => s.name
    case Some(b) => s.name + s.gap + ("{" + b + "}")
  }

  function TokenText(t: Token): string {
    match t
    case Open => "("
    case Close => ")"
    case Comma => ","
    case Operator(text) => text
    case Word(text) => text
    case Labels(keyword, gap, names) => keyword + (gap + "(" + names + ")")
    case Number(text) => text
    case Literal(text) => text
    case Range(inner) => "[" + inner + "]"
    case Metric(s) => SelectionText(s)
  }

  /** The tokens with white space `ws[i]` before token `i`, and the last of `ws` at the end. */
  function Render(ts: seq<Token>, ws: seq<string>): string
    requires |ws| == |ts| + 1
  {
    if ts == [] then ws[0] else ws[0] + (TokenText(ts[0]) + Render(ts[1..], ws[1..]))
  }

  // ---- Well-formed tokens ----

  predicate IsName(s: string) { s != "" && IsIdentStart(s[0]) && Ident(s) == s }

  /** A closed string literal: nothing after it is part of it. */
  predicate IsLiteral(s: string) { s != "" && IsQuote(s[0]) && LiteralLength(s + " ") == |s| }

  /** A whole number or duration: no sign and digit after it would be part of it. */
  predicate IsNumber(s: string) {
    s != "" && IsNumberStart(s[0]) && NumberLength(s) == |s| && NumberLength(s + "+0") == |s|
  }

  predicate IsOperator(s: string) {
    s != "" && forall k | 0 <= k < |s| :: IsPlain(s[k]) && !IsSpace(s[k]) && s[k] != '('
  }

  predicate IsSelection(s: Selection) {
    && (if s.name == "" then s.gap == "" else IsName(s.name))
    && AllSpace(s.gap)
    && match s.body case None => s.name != "" && !IsKeyword(Lower(s.name)) case Some(b) => Closes(b)
  }

  predicate IsToken(t: Token) {
    match t
    case Open => true
    case Close => true
    case Comma => true
    case Operator(text) => IsOperator(text)
    case Word(text) => IsName(text)
    case Labels(keyword, gap, names) => IsName(keyword) && IsListKeyword(Lower(keyword)) && AllSpace(gap) &&
      ')' !in names
    case Number(text) => IsNumber(text)
    case Literal(text) => IsLiteral(text)
    case Range(inner) => ']' !in inner
    case Metric(s) => IsSelection(s)
  }

  predicate IsModifierList(t: Token) { t.Labels? && IsModifier(t.keyword) }

  predicate IsNameless(t: Token) { t.Metric? && t.selection.name == "" }

  predicate IsBareToken(t: Token) { t.Metric? && t.selection.body.None? }

  /** What the next token may be: this is where the scanner's lookahead must tell the truth. */
  predicate Follows(t: Token, next: Option<Token>) {
    && (t.Word? && IsListKeyword(Lower(t.text)) ==> next != Some(Open))
    && (t.Word? && !IsKeyword(Lower(t.text)) ==> next.Some? && (next.value.Open? || IsModifierList(next.value)))
    && (IsBareToken(t) && next.Some? ==>
          !next.value.Open? && !IsNameless(next.value) && !IsModifierList(next.value))
  }

  predicate StartsWord(t: Token) {
    t.Word? || t.Labels? || t.Number? || (t.Metric? && t.selection.name != "")
  }

  predicate EndsWord(t: Token) { t.Word? || t.Number? || IsBareToken(t) }

  /** The token after token `i`. */
  function After(ts: seq<Token>, i: nat): Option<Token> {
    if i + 1 < |ts| then Some(ts[i + 1]) else None
  }

  predicate IsSequence(ts: seq<Token>) {
    forall i | 0 <= i < |ts| :: IsToken(ts[i]) && Follows(ts[i], After(ts, i))
  }

  /** White space everywhere, and some where two words would otherwise run together. */
  predicate IsLayout(ts: seq<Token>, ws: seq<string>) {
    && |ws| == |ts| + 1
    && (forall i | 0 <= i < |ws| :: AllSpace(ws[i]))
    && (forall i | 0 < i < |ts| :: EndsWord(ts[i - 1]) && StartsWord(ts[i]) ==> ws[i] != "")
  }

  // ---- Holding the tokens ----

  function HoldSelection(s: Selection, m: string): Selection {
    match s.body
    case None => Selection(s.name, "", Some(m))
    case Some(b) => s.(body := Some(WithMatcher(b, m)))
  }

  function HoldToken(t: Token, m: string): Token {
    if t.Metric? then Metric(HoldSelection(t.selection, m)) else t
  }

  function HoldTokens(ts: seq<Token>, m: string): (r: seq<Token>)
    ensures |r| == |ts|
    ensures forall i | 0 <= i < |ts| :: r[i] == HoldToken(ts[i], m)
  {
    seq(|ts|, i requires 0 <= i < |ts| => HoldToken(ts[i], m))
  }

  // ---- Reading one token ----

  /** `text` is read off the front of `text + rest`, and goes out as `held`. */
  ghost predicate Reads(text: string, held: string, rest: string, m: string) {
    && Lex(rest, PromQL).Some?
    && Lex(text + rest, PromQL).Some?
    && Held(text + rest, PromQL, m) == held + Held(rest, PromQL, m)
  }

  lemma ReadOne(text: string, rest: string, m: string, p: Piece)
    requires text != "" && Lex(rest, PromQL).Some?
    requires Next(text + rest, PromQL) == Some(Reading(p, |text|))
    ensures Reads(text, Source(Hold(p, m)), rest, m)
  {
    hide Next, Hold, Source;
    assert (text + rest)[|text|..] == rest;
    HeldStep(text + rest, PromQL, m, Reading(p, |text|));
  }

  lemma ReadTwo(a: string, ha: string, b: string, hb: string, rest: string, m: string)
    requires Lex(rest, PromQL).Some?
    requires Reads(b, hb, rest, m)
    requires Reads(a, ha, b + rest, m)
    ensures Reads(a + b, ha + hb, rest, m)
  {
    hide Held, Lex;
    Assoc(a, b, rest);
    Assoc(ha, hb, Held(rest, PromQL, m));
  }

  lemma {:induction false} ReadPlain(s: string, rest: string, m: string)
    requires Lex(rest, PromQL).Some?
    requires forall k | 0 <= k < |s| :: IsPlain(s[k])
    ensures Reads(s, s, rest, m)
  {
    hide Next, IsPlain, HoldAll, Source;
    if s == "" {
      assert s + rest == rest && s + Held(rest, PromQL, m) == Held(rest, PromQL, m);
    } else {
      ReadPlain(s[1..], rest, m);
      ReadPlainChar(s[0], s[1..] + rest, m);
      ReadTwo([s[0]], [s[0]], s[1..], s[1..], rest, m);
      assert [s[0]] + s[1..] == s;
    }
  }

  lemma ReadPlainChar(c: char, rest: string, m: string)
    requires IsPlain(c) && Lex(rest, PromQL).Some?
    ensures Reads([c], [c], rest, m)
  {
    hide LiteralLength, BraceOffset, NumberLength, Identifier, Past, HoldAll;
    var q := [c] + rest;
    assert q[..1] == [c] && q[0] == c;
    HeldText(Copy([c]), m);
    ReadOne([c], rest, m, Copy([c]));
  }

  lemma ReadSpace(w: string, rest: string, m: string)
    requires AllSpace(w) && Lex(rest, PromQL).Some?
    ensures Reads(w, w, rest, m)
  {
    hide Lex, Held;
    assert forall k | 0 <= k < |w| :: IsSpace(w[k]) && IsPlain(w[k]);
    ReadPlain(w, rest, m);
  }

  lemma ReadCopy(text: string, rest: string, m: string)
    requires text != "" && Lex(rest, PromQL).Some?
    requires Next(text + rest, PromQL) == Some(Verbatim(text + rest, |text|))
    ensures Reads(text, text, rest, m)
  {
    hide Next, Hold, Source;
    assert (text + rest)[..|text|] == text;
    HeldText(Copy(text), m);
    ReadOne(text, rest, m, Copy(text));
  }

  lemma ReadLiteral(text: string, rest: string, m: string)
    requires IsLiteral(text) && Lex(rest, PromQL).Some?
    ensures Reads(text, text, rest, m)
  {
    hide LiteralTail, BraceOffset, NumberLength, Identifier, Past, HoldAll;
    var q := text + " ";
    LiteralLocal(q, rest);
    assert q[..|text|] == text;
    ReadCopy(text, rest, m);
  }

  lemma ReadRange(inner: string, rest: string, m: string)
    requires ']' !in inner && Lex(rest, PromQL).Some?
    ensures Reads("[" + inner + "]", "[" + inner + "]", rest, m)
  {
    hide LiteralLength, BraceOffset, NumberLength, Identifier, HoldAll;
    var text := "[" + inner + "]";
    var q := text + rest;
    assert q[..|text| - 1] == "[" + inner;
    FindUnique(']', q, |text| - 1);
    ReadCopy(text, rest, m);
  }

  lemma ReadGroup(inner: string, rest: string, m: string)
    requires Closes(inner) && Lex(rest, PromQL).Some?
    ensures Reads("{" + inner + "}", "{" + WithMatcher(inner, m) + "}", rest, m)
  {
    hide Next, HoldAll, Closes;
    GroupReads(inner, rest, PromQL);
    HeldText(Group(inner), m);
    ReadOne("{" + inner + "}", rest, m, Group(inner));
  }

  lemma NumberFollowed(text: string, x: string)
    requires IsNumber(text)
    requires x != "" ==> !IsWordChar(x[0]) && x[0] != '.'
    ensures NumberLength(text + x) == |text|
  {
    hide Span, IsWordChar, IsDigit;
    var a := Span(IsNumberStart, text);
    var s := text[a..];
    assert text == text[..a] + s;
    TailFollowed(text[..a], s, x);
    StopsNumber(s, x);
    NumberSplit(text[..a], s + x);
    Assoc(text[..a], s, x);
  }

  lemma StopsNumber(s: string, x: string)
    requires s != "" ==> !IsNumberStart(s[0])
    requires x != "" ==> !IsWordChar(x[0]) && x[0] != '.'
    ensures s + x != "" ==> !IsNumberStart((s + x)[0])
  {
  }

  lemma TailFollowed(d: string, s: string, x: string)
    requires d != "" && (forall k | 0 <= k < |d| :: IsNumberStart(d[k]))
    requires s != "" ==> !IsNumberStart(s[0])
    requires IsNumber(d + s)
    requires x != "" ==> !IsWordChar(x[0]) && x[0] != '.'
    ensures NumberTail(s + x) == |s|
  {
    hide NumberTail, NumberLength, Span;
    NumberSplit(d, s);
    StopsNumber(s, "+0");
    NumberSplit(d, s + "+0");
    Assoc(d, s, "+0");
    TailStops(s, x);
  }

  lemma TailStops(s: string, x: string)
    requires NumberTail(s) == |s| && NumberTail(s + "+0") == |s|
    requires x != "" ==> !IsWordChar(x[0]) && x[0] != '.'
    ensures NumberTail(s + x) == |s|
  {
    hide Span;
    ExponentFollowed(s, x);
    var e := ExponentLength(s);
    assert (s + x)[e..] == s[e..] + x;
    SpanThen(IsWordChar, s[e..], x);
  }

  lemma ExponentFollowed(s: string, x: string)
    requires NumberTail(s) == |s| && NumberTail(s + "+0") == |s|
    requires x != "" ==> !IsWordChar(x[0]) && x[0] != '.'
    ensures ExponentLength(s + x) == ExponentLength(s)
  {
    hide Span;
    if s == "" {
      assert s + x == x;
    } else if s[0] == 'e' || s[0] == 'E' {
      if |s| == 1 {
        LoneExponent(s);
      } else {
        LongExponent(s, x);
      }
    }
  }

  lemma LoneExponent(s: string)
    requires |s| == 1 && (s[0] == 'e' || s[0] == 'E')
    ensures NumberTail(s + "+0") > 1
  {
    hide Span;
    var t := s + "+0";
    assert t[2..] == "0";
    SpanUnique(IsDigit, "0", 1);
  }

  lemma SpanThen(p: char -> bool, s: string, x: string)
    requires x != "" ==> !p(x[0])
    ensures Span(p, s + x) == Span(p, s)
  {
    hide Span;
    var n := Span(p, s);
    assert n < |s| ==> (s + x)[n] == s[n];
    SpanUnique(p, s + x, n);
  }

  lemma LongExponent(s: string, x: string)
    requires |s| > 1 && (s[0] == 'e' || s[0] == 'E') && NumberTail(s) == |s|
    requires x != "" ==> !IsDigit(x[0])
    ensures ExponentLength(s + x) == ExponentLength(s)
  {
    hide Span;
    var sign := if IsSign(s[1]) then 2 else 1;
    var e := ExponentLength(s);
    assert e == 0 ==> s[e..][1] == s[1] && IsWordChar(s[1]);
    assert (s + x)[sign..] == s[sign..] + x;
    SpanThen(IsDigit, s[sign..], x);
  }

  lemma ReadNumber(text: string, rest: string, m: string)
    requires IsNumber(text) && Lex(rest, PromQL).Some?
    requires rest != "" ==> !IsWordChar(rest[0]) && rest[0] != '.'
    ensures Reads(text, text, rest, m)
  {
    hide LiteralLength, BraceOffset, NumberLength, Identifier, Past, HoldAll, IsWordChar;
    NumberFollowed(text, rest);
    ReadCopy(text, rest, m);
  }

  // ---- Reading identifiers ----

  /** Nothing that could lengthen an identifier comes next. */
  predicate EndsIdent(rest: string) { rest != "" ==> !IsIdentChar(rest[0]) }

  lemma IdentThen(name: string, rest: string)
    requires IsName(name) && EndsIdent(rest)
    ensures Ident(name + rest) == name && (name + rest)[|name|..] == rest
    ensures (name + rest)[0] == name[0]
  {
    SpanUnique(IsIdentChar, name + rest, |name|);
  }

  /** A name in front of a body, a parenthesis or a modifier list, or a keyword: copied. */
  lemma ReadName(name: string, rest: string, m: string)
    requires IsName(name) && EndsIdent(rest) && Lex(rest, PromQL).Some?
    requires IsListKeyword(Lower(name)) ==> !Opens('(', rest)
    requires IsKeyword(Lower(name)) || Opens('(', rest) || Opens('{', rest) || ModifierAhead(rest)
    ensures Reads(name, name, rest, m)
  {
    hide LiteralLength, BraceOffset, NumberLength, Past, HoldAll, IsListKeyword, IsKeyword, Opens, ModifierAhead,
        Ident, Lower;
    IdentThen(name, rest);
    var q := name + rest;
    assert !IsLabelList(q) && !IsBareMetric(q);
    assert Identifier(q) == Verbatim(q, |name|);
    ReadCopy(name, rest, m);
  }

  lemma ReadLabels(keyword: string, gap: string, names: string, rest: string, m: string)
    requires IsName(keyword) && IsListKeyword(Lower(keyword)) && AllSpace(gap) && ')' !in names
    requires Lex(rest, PromQL).Some?
    ensures Reads(keyword + (gap + "(" + names + ")"), keyword + (gap + "(" + names + ")"), rest, m)
  {
    hide LiteralLength, BraceOffset, NumberLength, HoldAll, IsListKeyword, IsKeyword, Opens, Ident, Lower,
        ModifierAhead;
    var list := gap + "(" + names + ")";
    var q := keyword + list + rest;
    ListOpens(gap, names, rest);
    Assoc(keyword, list, rest);
    IdentThen(keyword, list + rest);
    assert IsLabelList(q);
    assert Identifier(q) == Verbatim(q, |keyword + list|);
    ReadCopy(keyword + list, rest, m);
  }

  lemma SpacesThen(c: char, gap: string, x: string)
    requires AllSpace(gap) && !IsSpace(c)
    ensures Opens(c, gap + ([c] + x))
  {
    TrimStartSkips(gap, [c] + x);
    SpanUnique(IsSpace, [c] + x, 0);
  }

  lemma SpacesEndIdent(gap: string, c: char, x: string)
    requires AllSpace(gap) && !IsIdentChar(c)
    ensures EndsIdent(gap + ([c] + x))
  {
    assert gap != "" ==> (gap + ([c] + x))[0] == gap[0];
  }

  lemma PastThen(c: char, s: string, x: string)
    requires c !in s
    ensures Past(c, s + [c] + x) == |s| + 1
  {
    hide Find;
    var q := s + [c] + x;
    assert q[..|s|] == s;
    FindUnique(c, q, |s|);
  }

  lemma ListOpens(gap: string, names: string, rest: string)
    requires AllSpace(gap) && ')' !in names
    ensures var list := gap + "(" + names + ")";
            && Opens('(', list + rest)
            && EndsIdent(list + rest)
            && Past(')', list + rest) == |list|
  {
    hide Past, Opens, EndsIdent;
    var list := gap + "(" + names + ")";
    assert list + rest == gap + (['('] + (names + ")" + rest));
    SpacesThen('(', gap, names + ")" + rest);
    SpacesEndIdent(gap, '(', names + ")" + rest);
    PastThen(')', gap + "(" + names, rest);
  }

  lemma ReadBare(name: string, rest: string, m: string)
    requires IsName(name) && !IsKeyword(Lower(name)) && EndsIdent(rest) && Lex(rest, PromQL).Some?
    requires !Opens('(', rest) && !Opens('{', rest) && !ModifierAhead(rest)
    ensures Reads(name, name + ("{" + m + "}"), rest, m)
  {
    hide LiteralLength, BraceOffset, NumberLength, Past, HoldAll, IsListKeyword, IsKeyword, Opens, ModifierAhead,
        Ident, Lower;
    IdentThen(name, rest);
    var q := name + rest;
    assert !IsLabelList(q) && IsBareMetric(q);
    HeldText(Bare(name), m);
    ReadOne(name, rest, m, Bare(name));
  }

  // ---- Reading a selector ----

  lemma SpacesOpen(c: char, gap: string, x: string)
    requires AllSpace(gap) && x != "" && x[0] == c && !IsSpace(c) && !IsIdentChar(c)
    ensures Opens(c, gap + x) && EndsIdent(gap + x)
    ensures forall d | d != c :: !Opens(d, gap + x)
  {
    SpacesThen(c, gap, x[1..]);
    SpacesEndIdent(gap, c, x[1..]);
    assert [c] + x[1..] == x;
  }

  lemma ReadBody(s: Selection, rest: string, m: string)
    requires s.body.Some? && AllSpace(s.gap) && Closes(s.body.value) && Lex(rest, PromQL).Some?
    ensures Reads(s.gap + ("{" + s.body.value + "}"), s.gap + ("{" + WithMatcher(s.body.value, m) + "}"), rest, m)
  {
    hide Lex, Held, Closes, WithMatcher;
    ReadGroup(s.body.value, rest, m);
    ReadSpace(s.gap, "{" + s.body.value + "}" + rest, m);
    ReadTwo(s.gap, s.gap, "{" + s.body.value + "}", "{" + WithMatcher(s.body.value, m) + "}", rest, m);
  }

  lemma ReadNamedBody(s: Selection, rest: string, m: string)
    requires s.body.Some? && IsSelection(s) && s.name != "" && Lex(rest, PromQL).Some?
    ensures Reads(SelectionText(s), SelectionText(HoldSelection(s, m)), rest, m)
  {
    hide Lex, Held, Closes, WithMatcher, Opens, EndsIdent, IsKeyword, IsName, HasCluster;
    var group := "{" + s.body.value + "}";
    ReadBody(s, rest, m);
    SpacesOpen('{', s.gap, group + rest);
    Assoc(s.gap, group, rest);
    ReadName(s.name, s.gap + group + rest, m);
    ReadTwo(s.name, s.name, s.gap + group, s.gap + ("{" + WithMatcher(s.body.value, m) + "}"), rest, m);
    Assoc(s.name, s.gap, group);
    Assoc(s.name, s.gap, "{" + WithMatcher(s.body.value, m) + "}");
  }

  lemma ReadSelection(s: Selection, rest: string, m: string)
    requires IsSelection(s) && Lex(rest, PromQL).Some?
    requires s.body.None? ==> EndsIdent(rest) && !Opens('(', rest) && !Opens('{', rest) && !ModifierAhead(rest)
    ensures Reads(SelectionText(s), SelectionText(HoldSelection(s, m)), rest, m)
  {
    hide Lex, Held, Closes, WithMatcher, Opens, EndsIdent, IsKeyword, IsName, ModifierAhead, HasCluster;
    if s.body.None? {
      ReadBare(s.name, rest, m);
      assert s.name + "" == s.name;
    } else if s.name == "" {
      ReadBody(s, rest, m);
      Assoc("", s.gap, "{" + s.body.value + "}");
      assert "" + s.gap == s.gap;
    } else {
      ReadNamedBody(s, rest, m);
    }
  }

  // ---- Reading a token ----

  /** What the scanner may see after a token: enough to tell what the token is. */
  ghost predicate Allows(t: Token, rest: string) {
    && (EndsWord(t) ==> EndsIdent(rest))
    && (t.Number? && rest != "" ==> rest[0] != '.')
    && (t.Word? && IsListKeyword(Lower(t.text)) ==> !Opens('(', rest))
    && (t.Word? && !IsKeyword(Lower(t.text)) ==> Opens('(', rest) || ModifierAhead(rest))
    && (IsBareToken(t) ==> !Opens('(', rest) && !Opens('{', rest) && !ModifierAhead(rest))
  }

  lemma ReadToken(t: Token, rest: string, m: string)
    requires IsToken(t) && Lex(rest, PromQL).Some? && Allows(t, rest)
    ensures Reads(TokenText(t), TokenText(HoldToken(t, m)), rest, m)
  {
    hide Lex, Held, Closes, WithMatcher, Opens, IsKeyword, IsListKeyword, IsName, ModifierAhead, IsNumber, IsLiteral,
        IsSelection, HoldSelection, SelectionText;
    match t
    case Open => ReadPlain("(", rest, m);
    case Close => ReadPlain(")", rest, m);
    case Comma => ReadPlain(",", rest, m);
    case Operator(text) => ReadPlain(text, rest, m);
    case Word(text) => ReadName(text, rest, m);
    case Labels(keyword, gap, names) => ReadLabels(keyword, gap, names, rest, m);
    case Number(text) => ReadNumber(text, rest, m);
    case Literal(text) => ReadLiteral(text, rest, m);
    case Range(inner) => ReadRange(inner, rest, m);
    case Metric(s) => ReadSelection(s, rest, m);
  }

  // ---- What a rendered token sequence starts with ----

  lemma TokenStart(t: Token)
    requires IsToken(t)
    ensures TokenText(t) != ""
    ensures var c := TokenText(t)[0];
            && !IsSpace(c)
            && (c == '(' <==> t.Open?)
            && (c == '{' <==> IsNameless(t))
            && (IsIdentChar(c) || c == '.' ==> StartsWord(t))
            && (IsIdentStart(c) ==> t.Word? || t.Labels? || t.Metric?)
  {
    hide LiteralLength, NumberLength, Closes, Ident, IsKeyword, IsListKeyword, Lower;
  }

  lemma RenderHead(ts: seq<Token>, ws: seq<string>)
    requires ts != [] && IsToken(ts[0]) && |ws| == |ts| + 1 && AllSpace(ws[0])
    ensures var body := TokenText(ts[0]) + Render(ts[1..], ws[1..]);
            && body[0] == TokenText(ts[0])[0]
            && Render(ts, ws) == ws[0] + body
            && TrimStart(Render(ts, ws)) == body
  {
    hide IsToken, TokenText, Span;
    TokenStart(ts[0]);
    var body := TokenText(ts[0]) + Render(ts[1..], ws[1..]);
    TrimStartSkips(ws[0], body);
    SpanUnique(IsSpace, body, 0);
  }

  lemma RenderEndsIdent(ts: seq<Token>, ws: seq<string>)
    requires |ws| == |ts| + 1 && AllSpace(ws[0])
    requires ts != [] ==> IsToken(ts[0]) && (StartsWord(ts[0]) ==> ws[0] != "")
    ensures EndsIdent(Render(ts, ws))
    ensures Render(ts, ws) != "" ==> Render(ts, ws)[0] != '.'
  {
    hide IsToken, TokenText, StartsWord;
    if ws[0] != "" {
      assert Render(ts, ws)[0] == ws[0][0];
    } else if ts != [] {
      TokenStart(ts[0]);
      RenderHead(ts, ws);
    }
  }

  lemma SpaceOnly(w: string)
    requires AllSpace(w)
    ensures TrimStart(w) == ""
  {
    SpanUnique(IsSpace, w, |w|);
  }

  lemma RenderOpens(ts: seq<Token>, ws: seq<string>)
    requires |ws| == |ts| + 1 && AllSpace(ws[0])
    requires ts != [] ==> IsToken(ts[0])
    ensures Opens('(', Render(ts, ws)) <==> ts != [] && ts[0].Open?
    ensures Opens('{', Render(ts, ws)) <==> ts != [] && IsNameless(ts[0])
  {
    hide IsToken, TokenText, IsNameless;
    if ts != [] {
      TokenStart(ts[0]);
      RenderHead(ts, ws);
    } else {
      SpaceOnly(ws[0]);
    }
  }

  lemma ModifierWord(name: string, rest: string)
    requires IsName(name) && EndsIdent(rest)
    ensures IsModifier(Ident(name + rest)) && Opens('(', (name + rest)[|Ident(name + rest)|..])
       <==> IsModifier(name) && Opens('(', rest)
  {
    hide Opens, Lower;
    IdentThen(name, rest);
  }

  lemma TokenModifier(t: Token, next: Option<Token>, rest: string)
    requires IsToken(t) && Follows(t, next)
    requires EndsWord(t) ==> EndsIdent(rest)
    requires Opens('(', rest) <==> next == Some(Open)
    ensures var body := TokenText(t) + rest;
            IsModifier(Ident(body)) && Opens('(', body[|Ident(body)|..]) <==> IsModifierList(t)
  {
    hide Ident, Opens, EndsIdent, IsName, Closes, IsLiteral, IsNumber;
    var body := TokenText(t) + rest;
    match t
    case Word(text) =>
      ModifierIsKeyword(text);
      ModifierWord(text, rest);
    case Labels(keyword, gap, names) =>
      ListOpens(gap, names, rest);
      ModifierWord(keyword, gap + "(" + names + ")" + rest);
      Assoc(keyword, gap + "(" + names + ")", rest);
    case Metric(s) => SelectionModifier(s, rest);
    case _ =>
      TokenStart(t);
      NoModifier(body);
  }

  lemma SelectionModifier(s: Selection, rest: string)
    requires IsSelection(s)
    requires s.body.None? ==> EndsIdent(rest)
    ensures var body := SelectionText(s) + rest;
            !(IsModifier(Ident(body)) && Opens('(', body[|Ident(body)|..]))
  {
    hide Ident, Opens, EndsIdent, Closes, IsKeyword, IsModifier;
    if s.body.None? {
      ModifierIsKeyword(s.name);
      ModifierWord(s.name, rest);
    } else {
      var group := "{" + s.body.value + "}";
      if s.name == "" {
        NoModifierGap(s.gap, group + rest);
        assert SelectionText(s) + rest == s.gap + (group + rest);
      } else {
        SpacesOpen('{', s.gap, group + rest);
        ModifierWord(s.name, s.gap + (group + rest));
        assert SelectionText(s) + rest == s.name + (s.gap + (group + rest));
      }
    }
  }

  lemma NoModifierGap(gap: string, x: string)
    requires AllSpace(gap) && x != "" && x[0] == '{'
    ensures !IsModifier(Ident(gap + x))
  {
    hide Ident;
    assert gap != "" ==> (gap + x)[0] == gap[0];
    NoModifier(gap + x);
  }

  lemma RenderModifier(ts: seq<Token>, ws: seq<string>)
    requires IsSequence(ts) && IsLayout(ts, ws)
    ensures ModifierAhead(Render(ts, ws)) <==> ts != [] && IsModifierList(ts[0])
  {
    hide ModifierAhead, Opens, Ident, IsToken, IsModifier, TokenText, StartsWord, EndsWord;
    var r := Render(ts, ws);
    ModifierIsIdent(r);
    if ts == [] {
      SpaceOnly(r);
      NoModifier("");
    } else {
      RenderHead(ts, ws);
      RenderEndsIdentAfter(ts, ws);
      RenderOpens(ts[1..], ws[1..]);
      TokenModifier(ts[0], After(ts, 0), Render(ts[1..], ws[1..]));
    }
  }

  lemma RenderEndsIdentAfter(ts: seq<Token>, ws: seq<string>)
    requires ts != [] && IsSequence(ts) && IsLayout(ts, ws)
    ensures IsToken(ts[0]) && Follows(ts[0], After(ts, 0))
    ensures |ts| > 1 ==> IsToken(ts[1])
    ensures AllSpace(ws[0]) && AllSpace(ws[1])
    ensures EndsWord(ts[0]) ==> EndsIdent(Render(ts[1..], ws[1..]))
    ensures EndsWord(ts[0]) ==> Render(ts[1..], ws[1..]) != "" ==> Render(ts[1..], ws[1..])[0] != '.'
  {
    hide IsToken, StartsWord, EndsWord, AllSpace, Follows, EndsIdent, TokenText;
    assert |ts| > 1 ==> ts[1..][0] == ts[1];
    assert ws[1..][0] == ws[1];
    if EndsWord(ts[0]) {
      RenderEndsIdent(ts[1..], ws[1..]);
    }
  }

  // ---- The scanner on a token sequence ----

  lemma TailIsSequence(ts: seq<Token>, ws: seq<string>)
    requires ts != [] && IsSequence(ts) && IsLayout(ts, ws)
    ensures IsSequence(ts[1..]) && IsLayout(ts[1..], ws[1..])
  {
    hide IsToken, StartsWord, EndsWord, AllSpace, Follows;
    forall i | 0 <= i < |ts[1..]|
      ensures IsToken(ts[1..][i]) && Follows(ts[1..][i], After(ts[1..], i))
    {
      assert ts[1..][i] == ts[i + 1] && After(ts[1..], i) == After(ts, i + 1);
    }
    assert forall i | 0 <= i < |ws[1..]| :: ws[1..][i] == ws[i + 1];
    forall i | 0 < i < |ts[1..]| && EndsWord(ts[1..][i - 1]) && StartsWord(ts[1..][i])
      ensures ws[1..][i] != ""
    {
      assert ts[1..][i - 1] == ts[i] && ts[1..][i] == ts[i + 1];
    }
  }

  lemma NextIsAllowed(ts: seq<Token>, ws: seq<string>)
    requires ts != [] && IsSequence(ts) && IsLayout(ts, ws)
    ensures Allows(ts[0], Render(ts[1..], ws[1..]))
  {
    hide IsToken, AllSpace, EndsIdent, TokenText, Opens, ModifierAhead, IsModifierList, IsNameless, IsKeyword,
        IsListKeyword, Lower;
    RenderEndsIdentAfter(ts, ws);
    TailIsSequence(ts, ws);
    RenderOpens(ts[1..], ws[1..]);
    RenderModifier(ts[1..], ws[1..]);
  }

  /**
   * Scanning the text of a token sequence, in any layout, holds exactly its selectors: the text
   * that comes out is that of the held tokens in the same layout.
   */
  lemma {:induction false} ScanTokens(ts: seq<Token>, ws: seq<string>, m: string)
    requires IsSequence(ts) && IsLayout(ts, ws)
    ensures Lex(Render(ts, ws), PromQL).Some?
    ensures Held(Render(ts, ws), PromQL, m) == Render(HoldTokens(ts, m), ws)
    decreases |ts|
  {
    if ts == [] {
      EmptyScan(ws[0], m);
    } else {
      TailIsSequence(ts, ws);
      ScanTokens(ts[1..], ws[1..], m);
      NextIsAllowed(ts, ws);
      ScanStep(ts, ws, m);
    }
  }

  lemma EmptyScan(w: string, m: string)
    requires AllSpace(w)
    ensures Lex(w, PromQL).Some? && Held(w, PromQL, m) == w
  {
    hide Next;
    ReadSpace(w, "", m);
    assert w + "" == w;
  }

  lemma ScanStep(ts: seq<Token>, ws: seq<string>, m: string)
    requires ts != [] && IsSequence(ts) && IsLayout(ts, ws)
    requires Lex(Render(ts[1..], ws[1..]), PromQL).Some?
    requires Held(Render(ts[1..], ws[1..]), PromQL, m) == Render(HoldTokens(ts[1..], m), ws[1..])
    requires Allows(ts[0], Render(ts[1..], ws[1..]))
    ensures Lex(Render(ts, ws), PromQL).Some?
    ensures Held(Render(ts, ws), PromQL, m) == Render(HoldTokens(ts, m), ws)
  {
    hide Lex, Held, IsToken, Follows, Allows, AllSpace, TokenText, HoldToken;
    var rest := Render(ts[1..], ws[1..]);
    ReadToken(ts[0], rest, m);
    ReadSpace(ws[0], TokenText(ts[0]) + rest, m);
    assert HoldTokens(ts, m)[1..] == HoldTokens(ts[1..], m);
  }
}
