/**
 * Scoping a PromQL query, from its text to its meaning: when the scanner sees every selector
 * for what it is, it adds the matcher to every selector of the tree that names no cluster, and the
 * query then reads that cluster's series only.
 */
module PromQLScoping {
  import opened Text
  import opened Scope
  import opened ScopeProperties
  import opened PromTokens
  import opened PromQL
  import opened PromQLBodies

  // ---- A written tree is a token sequence the scanner can read ----

  /** `ts` is a readable sequence when `next` comes after it. */
  ghost predicate Fits(ts: seq<Token>, next: Option<Token>) {
    forall i | 0 <= i < |ts| ::
      IsToken(ts[i]) && Follows(ts[i], if i + 1 == |ts| then next else After(ts, i))
  }

  function First(ts: seq<Token>, next: Option<Token>): Option<Token> {
    if ts == [] then next else Some(ts[0])
  }

  lemma FitsConcat(a: seq<Token>, b: seq<Token>, next: Option<Token>)
    requires Fits(a, First(b, next)) && Fits(b, next)
    ensures Fits(a + b, next)
  {
    hide IsToken, Follows;
    var s := a + b;
    forall i | 0 <= i < |s|
      ensures IsToken(s[i]) && Follows(s[i], if i + 1 == |s| then next else After(s, i))
    {
      if i < |a| {
        assert s[i] == a[i];
      } else {
        assert s[i] == b[i - |a|];
      }
    }
  }

  lemma FitsOne(t: Token, next: Option<Token>)
    requires IsToken(t) && Follows(t, next)
    ensures Fits([t], next)
  {
    hide IsToken, Follows;
  }

  lemma FitsCons(t: Token, ts: seq<Token>, next: Option<Token>)
    requires IsToken(t) && Follows(t, First(ts, next)) && Fits(ts, next)
    ensures Fits([t] + ts, next)
  {
    hide IsToken, Follows, Fits;
    FitsOne(t, First(ts, next));
    FitsConcat([t], ts, next);
  }

  /** What may come after an operand. */
  predicate MayFollow(next: Option<Token>) {
    next.Some? ==>
      next.value.Close? || next.value.Comma? || next.value.Operator? || next.value.Word? || next.value.Range?
  }

  lemma MayFollowAny(t: Token, next: Option<Token>)
    requires MayFollow(next)
    ensures !t.Word? ==> Follows(t, next)
  {
  }

  lemma PlainWords()
    ensures forall w | w in {"offset", "start", "end", "bool"} ::
              IsName(w) && IsKeyword(Lower(w)) && !IsListKeyword(Lower(w))
  {
    hide IsKeyword, IsListKeyword;
    PlainWord("offset");
    PlainWord("start");
    PlainWord("end");
    PlainWord("bool");
  }

  lemma PlainWord(w: string)
    requires w in {"offset", "start", "end", "bool"}
    ensures IsName(w) && IsKeyword(Lower(w)) && !IsListKeyword(Lower(w))
  {
    hide Span;
    assert forall k | 0 <= k < |w| :: 'a' <= w[k] <= 'z';
    SpanUnique(IsIdentChar, w, |w|);
    assert Lower(w) == w;
  }

  lemma PostfixFits(p: Postfix, next: Option<Token>)
    requires IsPostfix(p)
    ensures Fits(PostfixTokens(p), next)
    ensures MayFollow(First(PostfixTokens(p), next))
  {
    hide IsNumber, IsKeyword, IsListKeyword, IsName, Lower;
    PlainWords();
    match p
    case Over(range) => FitsOne(Range(range), next);
    case Offset(negative, duration) =>
      FitsOne(Number(duration), next);
      if negative {
        FitsCons(Operator("-"), [Number(duration)], next);
        FitsCons(Word("offset"), [Operator("-"), Number(duration)], next);
        assert PostfixTokens(p) == [Word("offset")] + [Operator("-"), Number(duration)];
      } else {
        FitsCons(Word("offset"), [Number(duration)], next);
        assert PostfixTokens(p) == [Word("offset")] + [Number(duration)];
      }
    case At(time) =>
      FitsOne(Number(time), next);
      FitsCons(Operator("@"), [Number(time)], next);
      assert PostfixTokens(p) == [Operator("@")] + [Number(time)];
    case AtStart => BoundaryFits("start", next);
    case AtEnd => BoundaryFits("end", next);
  }

  lemma BoundaryFits(word: string, next: Option<Token>)
    requires word in {"start", "end"}
    ensures Fits([Operator("@"), Word(word), Open, Close], next)
  {
    hide IsKeyword, IsListKeyword, IsName, Lower;
    PlainWords();
    FitsOne(Close, next);
    FitsCons(Open, [Close], next);
    FitsCons(Word(word), [Open, Close], next);
    FitsCons(Operator("@"), [Word(word), Open, Close], next);
    assert [Open] + [Close] == [Open, Close];
    assert [Word(word)] + [Open, Close] == [Word(word), Open, Close];
    assert [Operator("@")] + [Word(word), Open, Close] == [Operator("@"), Word(word), Open, Close];
  }

  lemma {:induction false} TailFits(ps: seq<Postfix>, next: Option<Token>)
    requires IsTail(ps) && MayFollow(next)
    ensures Fits(TailTokens(ps), next)
    ensures MayFollow(First(TailTokens(ps), next))
  {
    hide IsPostfix, Fits, PostfixTokens;
    if ps == [] {
      EmptyFits(next);
    } else {
      TailFits(ps[1..], next);
      PostfixFits(ps[0], First(TailTokens(ps[1..]), next));
      FitsConcat(PostfixTokens(ps[0]), TailTokens(ps[1..]), next);
      PostfixNotEmpty(ps[0]);
    }
  }

  lemma PostfixNotEmpty(p: Postfix)
    ensures PostfixTokens(p) != []
  {
  }

  lemma EmptyFits(next: Option<Token>)
    ensures Fits([], next)
  {
  }

  lemma ListFits(l: LabelList)
    requires IsGrouping(l)
    ensures IsToken(ListToken(l))
    ensures forall next :: Follows(ListToken(l), next)
  {
    hide IsName, IsListKeyword;
  }

  lemma GroupWord(w: string, next: Option<Token>)
    requires IsName(w) && IsListKeyword(Lower(w)) && next != Some(Open)
    ensures IsToken(Word(w)) && Follows(Word(w), next)
  {
    hide IsName;
    ListIsKeyword(Lower(w));
    hide IsListKeyword, IsKeyword;
  }

  lemma ListIsKeyword(w: string)
    ensures IsListKeyword(w) ==> IsKeyword(w)
  {
  }

  lemma MatchingFits(v: VectorMatching, next: Option<Token>)
    requires IsMatching(v)
    requires EndsInGroupWord(Some(v)) ==> next != Some(Open)
    ensures Fits(MatchingTokens(v), next)
    ensures MatchingTokens(v) != [] && MatchingTokens(v)[0] == ListToken(v.on)
  {
    hide IsName, IsListKeyword, IsKeyword, IsGrouping, Fits, Follows;
    ListFits(v.on);
    EmptyFits(next);
    if v.labels.Some? {
      ListFits(v.labels.value);
      FitsOne(ListToken(v.labels.value), next);
      FitsCons(ListToken(v.on), [ListToken(v.labels.value)], next);
    } else if v.group.Some? {
      GroupWord(v.group.value, next);
      FitsOne(Word(v.group.value), next);
      FitsCons(ListToken(v.on), [Word(v.group.value)], next);
    } else {
      FitsCons(ListToken(v.on), [], next);
    }
  }

  function OpToken(op: BinaryOp): Token { if op.Symbol? then Operator(op.text) else Word(op.word) }

  lemma OpFits(op: BinaryOp, next: Option<Token>)
    requires IsBinaryOp(op)
    ensures IsToken(OpToken(op)) && Follows(OpToken(op), next)
    ensures MayFollow(Some(OpToken(op)))
  {
    hide IsName, IsListKeyword, IsKeyword, IsOperator;
  }

  function MatchingPart(matching: Option<VectorMatching>): seq<Token> {
    if matching.Some? then MatchingTokens(matching.value) else []
  }

  lemma OperatorFits(op: BinaryOp, boolean: bool, matching: Option<VectorMatching>, next: Option<Token>)
    requires IsBinaryOp(op) && (matching.Some? ==> IsMatching(matching.value))
    requires EndsInGroupWord(matching) ==> next != Some(Open)
    ensures Fits(OperatorTokens(op, boolean, matching), next)
    ensures OperatorTokens(op, boolean, matching) != []
    ensures MayFollow(Some(OperatorTokens(op, boolean, matching)[0]))
  {
    hide IsBinaryOp, IsMatching, Fits, MatchingTokens, OpToken, IsKeyword, IsListKeyword, IsName, Lower;
    var part := MatchingPart(matching);
    if matching.Some? {
      MatchingFits(matching.value, next);
    } else {
      EmptyFits(next);
    }
    var more := (if boolean then [Word("bool")] else []) + part;
    if boolean {
      PlainWords();
      FitsCons(Word("bool"), part, next);
    } else {
      assert more == part;
    }
    OpFits(op, First(more, next));
    FitsCons(OpToken(op), more, next);
    OperatorShape(op, boolean, matching);
  }

  lemma OperatorShape(op: BinaryOp, boolean: bool, matching: Option<VectorMatching>)
    ensures OperatorTokens(op, boolean, matching)
         == [OpToken(op)] + ((if boolean then [Word("bool")] else []) + MatchingPart(matching))
  {
    hide MatchingTokens;
  }

  lemma SelectionFits(s: Selector, next: Option<Token>)
    requires IsSelector(s) && MayFollow(next)
    ensures Fits([SelectorToken(s)], next)
  {
    hide IsKeyword, IsListKeyword, BodyText, IsMatch, IsName, Closes;
    BodyCloses(s);
    if IsUnread(s) {
      FitsOne(Word(s.metric), next);
    } else {
      assert IsSelection(ToSelection(s));
      MayFollowAny(Metric(ToSelection(s)), next);
      FitsOne(Metric(ToSelection(s)), next);
    }
  }

  lemma CallWord(name: string, next: Token)
    requires IsCallName(name) && (next.Open? || IsModifierList(next))
    ensures IsToken(Word(name)) && Follows(Word(name), Some(next))
  {
    hide IsName;
    ListIsKeyword(Lower(name));
    hide IsKeyword, IsListKeyword;
  }

  /** A written tree fits wherever an operand may end. */
  lemma {:induction false} TreeFits(e: Expr, next: Option<Token>)
    requires IsExpr(e) && MayFollow(next)
    ensures Fits(Tokens(e), next)
    decreases e, 1
  {
    hide Fits, IsSelector, IsBinaryOp, IsMatching, IsCallName, IsGrouping, IsOperator, OperatorTokens, TailTokens,
        Follows, IsNumber, IsNumberWord, IsLiteral, IsModifier;
    match e
    case NumberLiteral(text) =>
      LeafFits(Number(text), next);
    case NamedNumber(word) =>
      NumberWordFits(word, next);
    case StringLiteral(text) =>
      LeafFits(Literal(text), next);
    case Select(s, tail) =>
      TailFits(tail, next);
      SelectionFits(s, First(TailTokens(tail), next));
      FitsConcat([SelectorToken(s)], TailTokens(tail), next);
    case Call(name, args) =>
      ArgsFit(args, Close);
      CallFits(name, args, next);
    case Aggregate(name, grouping, first, args) =>
      ArgsFit(args, Close);
      AggregateFits(name, grouping, first, args, next);
    case Binary(op, boolean, matching, lhs, rhs) =>
      TreeFits(rhs, next);
      OperatorFits(op, boolean, matching, Some(Tokens(rhs)[0]));
      TreeFits(lhs, Some(OperatorTokens(op, boolean, matching)[0]));
      BinaryFits(Tokens(lhs), OperatorTokens(op, boolean, matching), Tokens(rhs), next);
    case Unary(sign, arg) =>
      TreeFits(arg, next);
      UnaryFits(sign, Tokens(arg), next);
    case Paren(arg) =>
      TreeFits(arg, Some(Close));
      ParenFits(Tokens(arg), next);
    case Subquery(arg, tail) =>
      TailFits(tail, next);
      SubqueryTail(tail);
      TreeFits(arg, Some(TailTokens(tail)[0]));
      FitsConcat(Tokens(arg), TailTokens(tail), next);
  }

  /** The scanner knows `inf` and `nan` as keywords. */
  lemma NumberWordFits(word: string, next: Option<Token>)
    requires IsNumberWord(word)
    ensures Fits([Word(word)], next)
  {
    hide IsName;
    FitsOne(Word(word), next);
  }

  lemma LeafFits(t: Token, next: Option<Token>)
    requires IsToken(t) && (t.Number? || t.Literal?)
    ensures Fits([t], next)
  {
    hide IsToken;
    FitsOne(t, next);
  }

  lemma SubqueryTail(tail: seq<Postfix>)
    requires tail != [] && tail[0].Over?
    ensures TailTokens(tail) != [] && TailTokens(tail)[0].Range?
  {
  }

  lemma BinaryFits(a: seq<Token>, o: seq<Token>, b: seq<Token>, next: Option<Token>)
    requires a != [] && o != [] && b != []
    requires Fits(a, Some(o[0])) && Fits(o, Some(b[0])) && Fits(b, next)
    ensures Fits(a + (o + b), next)
  {
    hide Fits;
    FitsConcat(o, b, next);
    FitsConcat(a, o + b, next);
  }

  lemma UnaryFits(sign: string, ts: seq<Token>, next: Option<Token>)
    requires IsOperator(sign) && Fits(ts, next)
    ensures Fits([Operator(sign)] + ts, next)
  {
    hide Fits, IsOperator;
    FitsCons(Operator(sign), ts, next);
  }

  lemma ParenFits(ts: seq<Token>, next: Option<Token>)
    requires Fits(ts, Some(Close))
    ensures Fits([Open] + (ts + [Close]), next)
  {
    hide Fits;
    FitsOne(Close, next);
    FitsConcat(ts, [Close], next);
    FitsCons(Open, ts + [Close], next);
  }

  lemma CallFits(name: string, args: seq<Expr>, next: Option<Token>)
    requires IsCallName(name) && Fits(ArgTokens(args), Some(Close))
    ensures Fits([Word(name), Open] + (ArgTokens(args) + [Close]), next)
  {
    hide Fits, IsCallName, ArgTokens, Follows;
    var ts := ArgTokens(args);
    ParenFits(ts, next);
    CallWord(name, Open);
    FitsCons(Word(name), [Open] + (ts + [Close]), next);
    assert [Word(name)] + ([Open] + (ts + [Close])) == [Word(name), Open] + (ts + [Close]);
  }

  lemma AggregateFits(name: string, grouping: LabelList, first: bool, args: seq<Expr>, next: Option<Token>)
    requires IsCallName(name) && IsGrouping(grouping) && IsModifier(grouping.keyword)
    requires Fits(ArgTokens(args), Some(Close))
    ensures Fits(if first then [Word(name), ListToken(grouping), Open] + (ArgTokens(args) + [Close])
                 else [Word(name), Open] + (ArgTokens(args) + [Close, ListToken(grouping)]), next)
  {
    hide Fits, IsCallName, ArgTokens, Follows, IsGrouping, IsModifier, IsToken;
    var ts := ArgTokens(args);
    var list := ListToken(grouping);
    ListFits(grouping);
    if first {
      ParenFits(ts, next);
      FitsCons(list, [Open] + (ts + [Close]), next);
      CallWord(name, list);
      FitsCons(Word(name), [list] + ([Open] + (ts + [Close])), next);
      assert [Word(name)] + ([list] + ([Open] + (ts + [Close]))) == [Word(name), list, Open] + (ts + [Close]);
    } else {
      FitsOne(list, next);
      ParenFits(ts, Some(list));
      FitsConcat([Open] + (ts + [Close]), [list], next);
      CallWord(name, Open);
      FitsCons(Word(name), [Open] + (ts + [Close]) + [list], next);
      assert [Word(name)] + ([Open] + (ts + [Close]) + [list]) == [Word(name), Open] + (ts + [Close, list]);
    }
  }

  lemma {:induction false} ArgsFit(args: seq<Expr>, next: Token)
    requires AreExprs(args) && next.Close?
    ensures Fits(ArgTokens(args), Some(next))
    decreases args, 0
  {
    hide Fits, Tokens, IsExpr;
    if args == [] {
      EmptyFits(Some(next));
    } else if |args| == 1 {
      TreeFits(args[0], Some(next));
    } else {
      ArgsFit(args[1..], next);
      FitsCons(Comma, ArgTokens(args[1..]), Some(next));
      TreeFits(args[0], Some(Comma));
      FitsConcat(Tokens(args[0]), [Comma] + ArgTokens(args[1..]), Some(next));
    }
  }

  lemma TreeIsSequence(e: Expr)
    requires IsExpr(e)
    ensures IsSequence(Tokens(e))
  {
    hide Tokens, IsToken, Follows, IsExpr;
    TreeFits(e, None);
    var ts := Tokens(e);
    forall i | 0 <= i < |ts|
      ensures IsToken(ts[i]) && Follows(ts[i], After(ts, i))
    {
    }
  }

  // ---- Adding to the tree is holding the tokens ----

  /** The scanner sees every selector of the query for what it is. */
  predicate AreTelling(ss: seq<Selector>) { forall k | 0 <= k < |ss| :: IsTelling(ss[k]) }

  lemma HoldConcat(a: seq<Token>, b: seq<Token>, m: string)
    ensures HoldTokens(a + b, m) == HoldTokens(a, m) + HoldTokens(b, m)
  {
    hide HoldToken;
  }

  predicate NoMetric(ts: seq<Token>) { forall i | 0 <= i < |ts| :: !ts[i].Metric? }

  lemma HoldNothing(ts: seq<Token>, m: string)
    requires NoMetric(ts)
    ensures HoldTokens(ts, m) == ts
  {
  }

  lemma {:induction false} TailHasNoMetric(ps: seq<Postfix>)
    ensures NoMetric(TailTokens(ps))
  {
    if ps != [] {
      TailHasNoMetric(ps[1..]);
    }
  }

  lemma OperatorHasNoMetric(op: BinaryOp, boolean: bool, matching: Option<VectorMatching>)
    ensures NoMetric(OperatorTokens(op, boolean, matching))
  {
  }

  // ---- Ink: how much of a text is not white space ----

  function Ink(s: string): nat {
    if s == "" then 0 else (if IsSpace(s[0]) then 0 else 1) + Ink(s[1..])
  }

  lemma {:induction false} InkConcat(a: string, b: string)
    ensures Ink(a + b) == Ink(a) + Ink(b)
  {
    hide IsSpace;
    if a == "" {
      assert a + b == b;
    } else {
      InkConcat(a[1..], b);
      assert (a + b)[1..] == a[1..] + b;
    }
  }

  lemma {:induction false} SpaceHasNoInk(w: string)
    requires AllSpace(w)
    ensures Ink(w) == 0
  {
    if w != "" {
      SpaceHasNoInk(w[1..]);
    }
  }

  lemma TrimKeepsInk(s: string)
    ensures Ink(TrimStart(s)) == Ink(s)
  {
    hide Span, IsSpace;
    var t := TrimStart(s);
    var w := s[..|s| - |t|];
    SpaceHasNoInk(w);
    InkConcat(w, t);
    assert s == w + t;
  }

  function TokensInk(ts: seq<Token>): nat {
    if ts == [] then 0 else Ink(TokenText(ts[0])) + TokensInk(ts[1..])
  }

  lemma {:induction false} TokensInkConcat(a: seq<Token>, b: seq<Token>)
    ensures TokensInk(a + b) == TokensInk(a) + TokensInk(b)
  {
    hide TokenText, Ink;
    if a == [] {
      assert a + b == b;
    } else {
      TokensInkConcat(a[1..], b);
      assert (a + b)[1..] == a[1..] + b;
    }
  }

  lemma {:induction false} RenderInk(ts: seq<Token>, ws: seq<string>)
    requires |ws| == |ts| + 1 && forall i | 0 <= i < |ws| :: AllSpace(ws[i])
    ensures Ink(Render(ts, ws)) == TokensInk(ts)
  {
    hide TokenText, Ink, AllSpace;
    SpaceHasNoInk(ws[0]);
    if ts != [] {
      RenderInk(ts[1..], ws[1..]);
      InkConcat(TokenText(ts[0]), Render(ts[1..], ws[1..]));
      InkConcat(ws[0], TokenText(ts[0]) + Render(ts[1..], ws[1..]));
    }
  }

  // ---- Adding to the tree against holding the tokens ----

  /**
   * `us` are the tokens of a tree after adding the matcher, `ts` before: holding `ts` gives `us` when
   * every selector is seen for what it is, and less text than `us` when not.
   */
  ghost predicate Compares(ts: seq<Token>, us: seq<Token>, m: string, telling: bool) {
    && |ts| == |us|
    && (telling ==> HoldTokens(ts, m) == us)
    && (!telling ==> TokensInk(HoldTokens(ts, m)) < TokensInk(us))
  }

  lemma ComparesConcat(a: seq<Token>, ua: seq<Token>, ta: bool, b: seq<Token>, ub: seq<Token>, tb: bool, m: string)
    requires Compares(a, ua, m, ta) && Compares(b, ub, m, tb)
    ensures Compares(a + b, ua + ub, m, ta && tb)
  {
    hide HoldTokens, TokensInk;
    HoldConcat(a, b, m);
    TokensInkConcat(HoldTokens(a, m), HoldTokens(b, m));
    TokensInkConcat(ua, ub);
  }

  lemma ComparesSame(ts: seq<Token>, m: string)
    requires NoMetric(ts)
    ensures Compares(ts, ts, m, true)
  {
    hide HoldTokens;
    HoldNothing(ts, m);
  }

  lemma ComparesAround(a: seq<Token>, ts: seq<Token>, us: seq<Token>, b: seq<Token>, m: string, telling: bool)
    requires NoMetric(a) && NoMetric(b) && Compares(ts, us, m, telling)
    ensures Compares(a + (ts + b), a + (us + b), m, telling)
  {
    hide Compares;
    ComparesSame(a, m);
    ComparesSame(b, m);
    ComparesConcat(ts, us, telling, b, b, true, m);
    ComparesConcat(a, a, true, ts + b, us + b, telling, m);
  }

  lemma BodyGrows(s: Selector, cluster: string)
    requires IsSelector(s) && s.braces && !NamesLabel(s.matchers, "cluster")
    ensures Ink(BodyText(AddToSelector(s, cluster))) > Ink(BodyText(s))
  {
    hide MatchText, MatchesText, Matcher, ClusterMatch, IsMatch, Ink, Span;
    MatcherInk(cluster);
    if s.matchers == [] {
      SpaceHasNoInk(s.end);
      MatchesCons(ClusterMatch(cluster), []);
      ClusterText(cluster);
      assert [ClusterMatch(cluster)] + [] == [ClusterMatch(cluster)];
      assert Matcher(cluster) + "" == Matcher(cluster);
    } else {
      var body := BodyText(s);
      AddedText(s.matchers, cluster, s.end);
      TrimKeepsInk(body);
      InkConcat(Matcher(cluster) + ", ", TrimStart(body));
      InkConcat(Matcher(cluster), ", ");
    }
  }

  lemma MatcherInk(cluster: string)
    ensures Ink(Matcher(cluster)) > 0
  {
    hide Ink;
    InkConcat("c", Matcher(cluster)[1..]);
    assert Matcher(cluster) == "c" + Matcher(cluster)[1..];
    OneInk();
  }

  lemma OneInk()
    ensures Ink("c") == 1
  {
  }

  lemma GroupInk(name: string, gap: string, a: string, b: string)
    requires Ink(a) < Ink(b)
    ensures Ink(name + gap + ("{" + a + "}")) < Ink(name + gap + ("{" + b + "}"))
  {
    hide Ink;
    InkConcat("{", a);
    InkConcat("{", b);
    InkConcat("{" + a, "}");
    InkConcat("{" + b, "}");
    InkConcat(name + gap, "{" + a + "}");
    InkConcat(name + gap, "{" + b + "}");
  }

  lemma ComparesOne(t: Token, u: Token, m: string, telling: bool)
    requires telling ==> HoldToken(t, m) == u
    requires !telling ==> HoldToken(t, m) == t && Ink(TokenText(t)) < Ink(TokenText(u))
    ensures Compares([t], [u], m, telling)
  {
    hide HoldToken, TokenText, Ink;
    assert HoldTokens([t], m) == [HoldToken(t, m)];
    OneTokenInk(t);
    OneTokenInk(u);
  }

  lemma ComparesSelect(s: Selector, cluster: string)
    requires IsSelector(s)
    ensures Compares([SelectorToken(s)], [SelectorToken(AddToSelector(s, cluster))], Matcher(cluster), IsTelling(s))
  {
    hide IsSelector, AddToSelector, ToSelection, HoldSelection, Matcher, Compares, Ink, SelectionText, HasCluster,
        BodyText, IsKeyword;
    AddedIsRead(s, cluster);
    if IsTelling(s) {
      HoldIsAdd(s, cluster);
    } else if IsUnread(s) {
      UnreadGrows(s, cluster);
    } else {
      MisreadIsKept(s, Matcher(cluster));
      MisreadGrows(s, cluster);
    }
    ComparesOne(SelectorToken(s), SelectorToken(AddToSelector(s, cluster)), Matcher(cluster), IsTelling(s));
  }

  lemma AddedIsRead(s: Selector, cluster: string)
    requires IsSelector(s)
    ensures !IsUnread(AddToSelector(s, cluster))
  {
    hide IsKeyword;
  }

  lemma UnreadGrows(s: Selector, cluster: string)
    requires IsSelector(s) && IsUnread(s)
    ensures !NamesLabel(s.matchers, "cluster")
    ensures Ink(s.metric) < Ink(SelectionText(ToSelection(AddToSelector(s, cluster))))
  {
    hide IsKeyword, Ink, BodyText, ClusterMatch;
    var body := BodyText(AddToSelector(s, cluster));
    BraceInk(body);
    InkConcat(s.metric, "{" + body + "}");
    assert s.metric + "" == s.metric;
  }

  lemma BraceInk(body: string)
    ensures Ink("{" + body + "}") > 0
  {
    assert ("{" + body + "}")[0] == '{';
  }

  lemma OneTokenInk(t: Token)
    ensures TokensInk([t]) == Ink(TokenText(t))
  {
    hide TokenText, Ink;
  }

  lemma MisreadGrows(s: Selector, cluster: string)
    requires IsSelector(s) && !IsTelling(s) && !IsUnread(s)
    ensures Ink(SelectionText(ToSelection(s))) < Ink(SelectionText(ToSelection(AddToSelector(s, cluster))))
  {
    hide IsSelector, HasCluster, BodyText, Ink, ClusterMatch;
    BodyGrows(s, cluster);
    GroupInk(s.metric, s.gap, BodyText(s), BodyText(AddToSelector(s, cluster)));
  }

  lemma TellingParts(a: seq<Selector>, b: seq<Selector>)
    ensures AreTelling(a + b) <==> AreTelling(a) && AreTelling(b)
  {
    hide IsTelling;
    assert forall k | 0 <= k < |a| :: (a + b)[k] == a[k];
    assert forall k | 0 <= k < |b| :: (a + b)[|a| + k] == b[k];
  }

  lemma OneIsTelling(s: Selector)
    ensures AreTelling([s]) <==> IsTelling(s)
  {
    hide IsTelling;
    assert [s][0] == s;
  }

  lemma {:induction false} CompareTree(e: Expr, cluster: string)
    requires IsExpr(e)
    ensures Compares(Tokens(e), Tokens(AddCluster(e, cluster)), Matcher(cluster), AreTelling(Selectors(e)))
    decreases e, 1
  {
    hide Compares, Matcher, IsTelling, IsSelector, AddToSelector, ToSelection, OperatorTokens, TailTokens, IsNumber,
        IsNumberWord, IsLiteral, IsOperator, IsCallName, IsGrouping, IsMatching, IsModifier, IsBinaryOp, AreTelling;
    var m := Matcher(cluster);
    match e
    case NumberLiteral(text) =>
      NoneAreTelling();
      ComparesSame([Number(text)], m);
    case NamedNumber(word) =>
      NoneAreTelling();
      ComparesSame([Word(word)], m);
    case StringLiteral(text) =>
      NoneAreTelling();
      ComparesSame([Literal(text)], m);
    case Select(s, tail) =>
      OneIsTelling(s);
      ComparesSelect(s, cluster);
      TailHasNoMetric(tail);
      ComparesSame(TailTokens(tail), m);
      ComparesConcat([SelectorToken(s)], [SelectorToken(AddToSelector(s, cluster))], IsTelling(s),
                     TailTokens(tail), TailTokens(tail), true, m);
    case Call(name, args) =>
      CompareArgs(args, cluster);
      ComparesAround([Word(name), Open], ArgTokens(args), ArgTokens(AddToAll(args, cluster)), [Close], m,
          AreTelling(SelectorsOf(args)));
    case Aggregate(name, grouping, first, args) =>
      CompareArgs(args, cluster);
      var before := if first then [Word(name), ListToken(grouping), Open] else [Word(name), Open];
      var after := if first then [Close] else [Close, ListToken(grouping)];
      ComparesAround(before, ArgTokens(args), ArgTokens(AddToAll(args, cluster)), after, m,
          AreTelling(SelectorsOf(args)));
    case Binary(op, boolean, matching, lhs, rhs) =>
      TellingParts(Selectors(lhs), Selectors(rhs));
      CompareTree(lhs, cluster);
      CompareTree(rhs, cluster);
      OperatorHasNoMetric(op, boolean, matching);
      var o := OperatorTokens(op, boolean, matching);
      ComparesSame(o, m);
      ComparesConcat(o, o, true, Tokens(rhs), Tokens(AddCluster(rhs, cluster)), AreTelling(Selectors(rhs)), m);
      ComparesConcat(Tokens(lhs), Tokens(AddCluster(lhs, cluster)), AreTelling(Selectors(lhs)),
                     o + Tokens(rhs), o + Tokens(AddCluster(rhs, cluster)), AreTelling(Selectors(rhs)), m);
    case Unary(sign, arg) =>
      CompareTree(arg, cluster);
      ComparesSame([Operator(sign)], m);
      ComparesConcat([Operator(sign)], [Operator(sign)], true, Tokens(arg), Tokens(AddCluster(arg, cluster)),
          AreTelling(Selectors(arg)), m);
    case Paren(arg) =>
      CompareTree(arg, cluster);
      ComparesAround([Open], Tokens(arg), Tokens(AddCluster(arg, cluster)), [Close], m, AreTelling(Selectors(arg)));
    case Subquery(arg, tail) =>
      CompareTree(arg, cluster);
      TailHasNoMetric(tail);
      ComparesSame(TailTokens(tail), m);
      ComparesConcat(Tokens(arg), Tokens(AddCluster(arg, cluster)), AreTelling(Selectors(arg)), TailTokens(tail),
          TailTokens(tail), true, m);
  }

  lemma NoneAreTelling()
    ensures AreTelling([])
  {
  }

  lemma {:induction false} CompareArgs(args: seq<Expr>, cluster: string)
    requires AreExprs(args)
    ensures Compares(ArgTokens(args), ArgTokens(AddToAll(args, cluster)), Matcher(cluster),
            AreTelling(SelectorsOf(args)))
    decreases args, 0
  {
    hide Compares, Matcher, AreTelling, Tokens, AddCluster, IsExpr, Selectors;
    var m := Matcher(cluster);
    NoneAreTelling();
    if args == [] {
      ComparesSame([], m);
    } else {
      TellingParts(Selectors(args[0]), SelectorsOf(args[1..]));
      CompareTree(args[0], cluster);
      CompareArgs(args[1..], cluster);
      AddedArgs(args, cluster);
      if |args| > 1 {
        var rest := ArgTokens(args[1..]);
        var more := ArgTokens(AddToAll(args[1..], cluster));
        var telling := AreTelling(SelectorsOf(args[1..]));
        ComparesSame([Comma], m);
        ComparesConcat([Comma], [Comma], true, rest, more, telling, m);
        ComparesConcat(Tokens(args[0]), Tokens(AddCluster(args[0], cluster)), AreTelling(Selectors(args[0])),
                       [Comma] + rest, [Comma] + more, telling, m);
      }
    }
  }

  lemma AddedArgs(args: seq<Expr>, cluster: string)
    requires args != []
    ensures AddToAll(args, cluster)[0] == AddCluster(args[0], cluster)
    ensures AddToAll(args, cluster)[1..] == AddToAll(args[1..], cluster)
  {
    hide AddCluster;
  }

  /**
   * In any layout, the scanner turns the text of a tree into the text of the tree with the matcher
   * added to every selector that names no cluster, exactly when it sees every selector for what it is:
   * no string literal in one passes for a cluster matcher, and no bare metric is spelled like a keyword.
   */
  lemma ScanAddsCluster(e: Expr, ws: seq<string>, cluster: string)
    requires IsExpr(e) && IsLayout(Tokens(e), ws)
    ensures |Tokens(AddCluster(e, cluster))| == |Tokens(e)|
    ensures Scoped(Render(Tokens(e), ws), cluster, PromQL) == Render(Tokens(AddCluster(e, cluster)), ws)
       <==> AreTelling(Selectors(e))
  {
    hide Tokens, AddCluster, IsExpr, AreTelling, Selectors, TokensInk, Render, HoldTokens, IsSequence, AllSpace, Lex,
        EndsWord, StartsWord, Matcher, Ink;
    TreeIsSequence(e);
    ScanTokens(Tokens(e), ws, Matcher(cluster));
    CompareTree(e, cluster);
    RenderInk(HoldTokens(Tokens(e), Matcher(cluster)), ws);
    RenderInk(Tokens(AddCluster(e, cluster)), ws);
  }
}
