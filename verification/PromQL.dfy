/**
 * A PromQL fragment as syntax trees: selectors, calls, aggregations, binary operators with vector
 * matching, ranges, subqueries and modifiers; how a tree is written, and what it means on a store.
 */
module PromQL {
  import opened Text
  import opened Scope
  import opened ScopeProperties
  import opened PromTokens

  // ---- Syntax ----

  datatype MatchOp = Equal | NotEqual | Matching | NotMatching

  /** One label matcher, with the white space it is written with. */
  datatype LabelMatch = LabelMatch(lead: string, name: string, before: string, op: MatchOp, after: string,
      value: string, trail: string)

  /**
   * A metric name, a brace body, or both. `end` is how a body ends: the white space of an empty one, a
   * trailing comma, or nothing.
   */
  datatype Selector = Selector(metric: string, gap: string, braces: bool, matchers: seq<LabelMatch>, end: string)

  datatype LabelList = LabelList(keyword: string, gap: string, names: string)

  /** `on(..)` or `ignoring(..)`, and `group_left`/`group_right` with or without its own labels. */
  datatype VectorMatching = VectorMatching(on: LabelList, group: Option<string>, labels: Option<LabelList>)

  datatype Postfix = Over(range: string) | Offset(negative: bool, duration: string) | At(time: string) | AtStart | AtEnd

  datatype BinaryOp = Symbol(text: string) | Keyword(word: string)

  datatype Expr =
    | NumberLiteral(text: string)
    | NamedNumber(word: string)
    | StringLiteral(text: string)
    | Select(selector: Selector, tail: seq<Postfix>)
    | Call(name: string, args: seq<Expr>)
    | Aggregate(name: string, grouping: LabelList, first: bool, args: seq<Expr>)
    | Binary(op: BinaryOp, boolean: bool, matching: Option<VectorMatching>, lhs: Expr, rhs: Expr)
    | Unary(sign: string, arg: Expr)
    | Paren(arg: Expr)
    | Subquery(arg: Expr, tail: seq<Postfix>)

  // ---- Writing a tree ----

  function OpText(op: MatchOp): string {
    match op
    case Equal => "="
    case NotEqual => "!="
    case Matching => "=~"
    case NotMatching => "!~"
  }

  function MatchText(m: LabelMatch): string {
    m.lead + (m.name + (m.before + (OpText(m.op) + (m.after + (m.value + m.trail)))))
  }

  function MatchesText(ms: seq<LabelMatch>): string {
    if ms == [] then ""
    else if |ms| == 1 then MatchText(ms[0])
    else MatchText(ms[0]) + ("," + MatchesText(ms[1..]))
  }

  function BodyText(s: Selector): string {
    if s.matchers == [] then s.end else MatchesText(s.matchers) + s.end
  }

  function ToSelection(s: Selector): Selection {
    Selection(s.metric, s.gap, if s.braces then Some(BodyText(s)) else None)
  }

  /** A bare metric spelled like a keyword is no metric to the scanner. */
  predicate IsUnread(s: Selector) { !s.braces && IsKeyword(Lower(s.metric)) }

  function SelectorToken(s: Selector): Token {
    if IsUnread(s) then Word(s.metric) else Metric(ToSelection(s))
  }

  function ListToken(l: LabelList): Token { Labels(l.keyword, l.gap, l.names) }

  function PostfixTokens(p: Postfix): seq<Token> {
    match p
    case Over(range) => [Range(range)]
    case Offset(negative, duration) => [Word("offset")] + (if negative then [Operator("-")] else [])
      + [Number(duration)]
    case At(time) => [Operator("@"), Number(time)]
    case AtStart => [Operator("@"), Word("start"), Open, Close]
    case AtEnd => [Operator("@"), Word("end"), Open, Close]
  }

  function TailTokens(ps: seq<Postfix>): seq<Token> {
    if ps == [] then [] else PostfixTokens(ps[0]) + TailTokens(ps[1..])
  }

  function MatchingTokens(v: VectorMatching): seq<Token> {
    [ListToken(v.on)] +
    match v.labels
    case Some(l) => [ListToken(l)]
    case None => match v.group case Some(w) => [Word(w)] case None => []
  }

  function OperatorTokens(op: BinaryOp, boolean: bool, matching: Option<VectorMatching>): seq<Token> {
    [if op.Symbol? then Operator(op.text) else Word(op.word)]
    + (if boolean then [Word("bool")] else [])
    + (if matching.Some? then MatchingTokens(matching.value) else [])
  }

  function Tokens(e: Expr): (ts: seq<Token>)
    ensures ts != []
    decreases e, 1
  {
    match e
    case NumberLiteral(text) => [Number(text)]
    case NamedNumber(word) => [Word(word)]
    case StringLiteral(text) => [Literal(text)]
    case Select(s, tail) => [SelectorToken(s)] + TailTokens(tail)
    case Call(name, args) => [Word(name), Open] + (ArgTokens(args) + [Close])
    case Aggregate(name, grouping, first, args) =>
      if first then [Word(name), ListToken(grouping), Open] + (ArgTokens(args) + [Close])
      else [Word(name), Open] + (ArgTokens(args) + [Close, ListToken(grouping)])
    case Binary(op, boolean, matching, lhs, rhs) =>
      Tokens(lhs) + (OperatorTokens(op, boolean, matching) + Tokens(rhs))
    case Unary(sign, arg) => [Operator(sign)] + Tokens(arg)
    case Paren(arg) => [Open] + (Tokens(arg) + [Close])
    case Subquery(arg, tail) => Tokens(arg) + TailTokens(tail)
  }

  function ArgTokens(args: seq<Expr>): seq<Token>
    decreases args, 0
  {
    if args == [] then []
    else if |args| == 1 then Tokens(args[0])
    else Tokens(args[0]) + ([Comma] + ArgTokens(args[1..]))
  }

  // ---- Well-formed trees ----

  predicate IsMatch(m: LabelMatch) {
    && AllSpace(m.lead) && AllSpace(m.before) && AllSpace(m.after) && AllSpace(m.trail)
    && IsName(m.name) && ':' !in m.name
    && IsLiteral(m.value)
  }

  /** `Inf` and `NaN`, in any case. */
  predicate IsNumberWord(word: string) { IsName(word) && Lower(word) in {"inf", "nan"} }

  predicate IsSelector(s: Selector) {
    && (s.metric == "" ==> s.braces && s.gap == "")
    && (s.metric != "" ==> IsName(s.metric))
    && (!s.braces ==> s.matchers == [] && !IsNumberWord(s.metric))
    && AllSpace(s.gap)
    && (if s.matchers == [] then AllSpace(s.end) else s.end == "" || (s.end[0] == ',' && AllSpace(s.end[1..])))
    && (forall i | 0 <= i < |s.matchers| :: IsMatch(s.matchers[i]))
  }

  predicate IsGrouping(l: LabelList) {
    IsName(l.keyword) && IsListKeyword(Lower(l.keyword)) && AllSpace(l.gap) && ')' !in l.names
  }

  predicate IsPostfix(p: Postfix) {
    match p
    case Over(range) => ']' !in range
    case Offset(_, duration) => IsNumber(duration)
    case At(time) => IsNumber(time)
    case AtStart => true
    case AtEnd => true
  }

  predicate IsTail(ps: seq<Postfix>) { forall i | 0 <= i < |ps| :: IsPostfix(ps[i]) }

  /** `on`, `ignoring`, `group_left` and `group_right`: the lists of a binary operator. */
  predicate IsMatching(v: VectorMatching) {
    && IsGrouping(v.on) && !IsModifier(v.on.keyword)
    && (v.labels.Some? ==> IsGrouping(v.labels.value) && !IsModifier(v.labels.value.keyword))
    && (v.group.Some? ==> IsName(v.group.value) && IsListKeyword(Lower(v.group.value)))
  }

  predicate IsBinaryOp(op: BinaryOp) {
    match op
    case Symbol(text) => IsOperator(text)
    case Keyword(word) => IsName(word) && IsKeyword(Lower(word)) && !IsListKeyword(Lower(word))
  }

  /** A word before the right operand that would take its parenthesis for a label list. */
  predicate EndsInGroupWord(m: Option<VectorMatching>) {
    m.Some? && m.value.labels.None? && m.value.group.Some?
  }

  predicate IsCallName(name: string) { IsName(name) && !IsKeyword(Lower(name)) }

  predicate IsExpr(e: Expr)
    decreases e, 1
  {
    match e
    case NumberLiteral(text) => IsNumber(text)
    case NamedNumber(word) => IsNumberWord(word)
    case StringLiteral(text) => IsLiteral(text)
    case Select(s, tail) => IsSelector(s) && IsTail(tail)
    case Call(name, args) => IsCallName(name) && AreExprs(args)
    case Aggregate(name, grouping, _, args) =>
      IsCallName(name) && IsGrouping(grouping) && IsModifier(grouping.keyword) && AreExprs(args)
    case Binary(op, _, matching, lhs, rhs) =>
      && IsBinaryOp(op) && IsExpr(lhs) && IsExpr(rhs)
      && (matching.Some? ==> IsMatching(matching.value))
      && (EndsInGroupWord(matching) ==> Tokens(rhs)[0] != Open)
    case Unary(sign, arg) => IsOperator(sign) && IsExpr(arg)
    case Paren(arg) => IsExpr(arg)
    case Subquery(arg, tail) => IsExpr(arg) && tail != [] && tail[0].Over? && IsTail(tail)
  }

  predicate AreExprs(args: seq<Expr>)
    decreases args, 0
  {
    args != [] ==> IsExpr(args[0]) && AreExprs(args[1..])
  }

  // ---- Every selector, and the matcher added to it ----

  function Selectors(e: Expr): seq<Selector>
    decreases e, 1
  {
    match e
    case NumberLiteral(_) => []
    case NamedNumber(_) => []
    case StringLiteral(_) => []
    case Select(s, _) => [s]
    case Call(_, args) => SelectorsOf(args)
    case Aggregate(_, _, _, args) => SelectorsOf(args)
    case Binary(_, _, _, lhs, rhs) => Selectors(lhs) + Selectors(rhs)
    case Unary(_, arg) => Selectors(arg)
    case Paren(arg) => Selectors(arg)
    case Subquery(arg, _) => Selectors(arg)
  }

  function SelectorsOf(args: seq<Expr>): seq<Selector>
    decreases args, 0
  {
    if args == [] then [] else Selectors(args[0]) + SelectorsOf(args[1..])
  }

  predicate NamesLabel(ms: seq<LabelMatch>, name: string) {
    exists i | 0 <= i < |ms| :: ms[i].name == name
  }

  function ClusterMatch(cluster: string): LabelMatch {
    LabelMatch("", "cluster", "", Equal, "", "\"" + cluster + "\"", "")
  }

  /** The selector with `cluster="<cluster>"` in front, unless it names a cluster itself. */
  function AddToSelector(s: Selector, cluster: string): Selector {
    if NamesLabel(s.matchers, "cluster") then s
    else Selector(
      s.metric,
      if s.braces then s.gap else "",
      true,
      [ClusterMatch(cluster)] + (if s.matchers == [] then [] else [s.matchers[0].(lead := " ")] + s.matchers[1..]),
      if s.matchers == [] then "" else s.end)
  }

  function AddCluster(e: Expr, cluster: string): Expr
    decreases e, 1
  {
    match e
    case NumberLiteral(_) => e
    case NamedNumber(_) => e
    case StringLiteral(_) => e
    case Select(s, tail) => Select(AddToSelector(s, cluster), tail)
    case Call(name, args) => Call(name, AddToAll(args, cluster))
    case Aggregate(name, grouping, first, args) => Aggregate(name, grouping, first, AddToAll(args, cluster))
    case Binary(op, boolean, matching, lhs, rhs) =>
      Binary(op, boolean, matching, AddCluster(lhs, cluster), AddCluster(rhs, cluster))
    case Unary(sign, arg) => Unary(sign, AddCluster(arg, cluster))
    case Paren(arg) => Paren(AddCluster(arg, cluster))
    case Subquery(arg, tail) => Subquery(AddCluster(arg, cluster), tail)
  }

  function AddToAll(args: seq<Expr>, cluster: string): (r: seq<Expr>)
    ensures |r| == |args|
    decreases args, 0
  {
    if args == [] then [] else [AddCluster(args[0], cluster)] + AddToAll(args[1..], cluster)
  }

  // ---- Meaning ----

  /** A stored series: its labels, the metric name under `__name__`, and its samples. */
  datatype Series<D> = Series(labels: map<string, string>, data: D)

  /**
   * What the language itself means: literals and regular expressions, and every construct as a
   * function of the values of its parts.
   */
  datatype Interp<!D, !V> = Interp(
    literal: string -> string,
    regex: (string, string) -> bool,
    number: string -> V,
    text: string -> V,
    select: (seq<Series<D>>, seq<Postfix>) -> V,
    call: (string, seq<V>) -> V,
    aggregate: (string, LabelList, seq<V>) -> V,
    binary: (BinaryOp, bool, Option<VectorMatching>, V, V) -> V,
    unary: (string, V) -> V,
    subquery: (V, seq<Postfix>) -> V)

  /** An absent label reads as the empty string. */
  function LabelOf<D>(s: Series<D>, name: string): string {
    if name in s.labels then s.labels[name] else ""
  }

  predicate Satisfies<D, V>(s: Series<D>, m: LabelMatch, i: Interp<D, V>) {
    var actual := LabelOf(s, m.name);
    var wanted := i.literal(m.value);
    match m.op
    case Equal => actual == wanted
    case NotEqual => actual != wanted
    case Matching => i.regex(wanted, actual)
    case NotMatching => !i.regex(wanted, actual)
  }

  predicate SatisfiesAll<D, V>(s: Series<D>, ms: seq<LabelMatch>, i: Interp<D, V>) {
    forall k | 0 <= k < |ms| :: Satisfies(s, ms[k], i)
  }

  predicate IsSelected<D, V>(s: Series<D>, sel: Selector, i: Interp<D, V>) {
    (sel.metric == "" || LabelOf(s, "__name__") == sel.metric) && SatisfiesAll(s, sel.matchers, i)
  }

  function Selected<D, V>(store: seq<Series<D>>, sel: Selector, i: Interp<D, V>): seq<Series<D>> {
    if store == [] then []
    else (if IsSelected(store[0], sel, i) then [store[0]] else []) + Selected(store[1..], sel, i)
  }

  /** The value of `e` when selector `s` reads `source(s)`. */
  function Eval<D, V>(e: Expr, source: Selector -> seq<Series<D>>, i: Interp<D, V>): V
    decreases e, 1
  {
    match e
    case NumberLiteral(text) => i.number(text)
    case NamedNumber(word) => i.number(word)
    case StringLiteral(text) => i.text(text)
    case Select(s, tail) => i.select(Selected(source(s), s, i), tail)
    case Call(name, args) => i.call(name, EvalAll(args, source, i))
    case Aggregate(name, grouping, _, args) => i.aggregate(name, grouping, EvalAll(args, source, i))
    case Binary(op, boolean, matching, lhs, rhs) =>
      i.binary(op, boolean, matching, Eval(lhs, source, i), Eval(rhs, source, i))
    case Unary(sign, arg) => i.unary(sign, Eval(arg, source, i))
    case Paren(arg) => Eval(arg, source, i)
    case Subquery(arg, tail) => i.subquery(Eval(arg, source, i), tail)
  }

  function EvalAll<D, V>(args: seq<Expr>, source: Selector -> seq<Series<D>>, i: Interp<D, V>): seq<V>
    decreases args, 0
  {
    if args == [] then [] else [Eval(args[0], source, i)] + EvalAll(args[1..], source, i)
  }

  function ClusterSeries<D>(store: seq<Series<D>>, cluster: string): seq<Series<D>> {
    if store == [] then []
    else (if LabelOf(store[0], "cluster") == cluster then [store[0]] else []) + ClusterSeries(store[1..], cluster)
  }
}
