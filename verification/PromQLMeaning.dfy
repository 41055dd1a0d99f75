/** What a scoped query means: on the whole store, it is the original query on one cluster's series. */
module PromQLMeaning {
  import opened Text
  import opened Scope
  import opened ScopeProperties
  import opened PromTokens
  import opened PromQL
  import opened PromQLBodies
  import opened PromQLScoping

  function Everywhere<D>(store: seq<Series<D>>): Selector -> seq<Series<D>> { (s: Selector) => store }

  function Only<D>(store: seq<Series<D>>, cluster: string): Selector -> seq<Series<D>> {
    (s: Selector) => ClusterSeries(store, cluster)
  }

  /** A selector that names a cluster is a deliberate read; every other one is held. */
  function HeldTo<D>(store: seq<Series<D>>, cluster: string): Selector -> seq<Series<D>> {
    (s: Selector) => if NamesLabel(s.matchers, "cluster") then store else ClusterSeries(store, cluster)
  }

  lemma LeadIsLayout<D, V>(x: Series<D>, m: LabelMatch, i: Interp<D, V>)
    ensures Satisfies(x, m.(lead := " "), i) <==> Satisfies(x, m, i)
  {
  }

  lemma AddedMatcherSelects<D, V>(x: Series<D>, s: Selector, cluster: string, i: Interp<D, V>)
    requires i.literal("\"" + cluster + "\"") == cluster
    requires !NamesLabel(s.matchers, "cluster")
    ensures IsSelected(x, AddToSelector(s, cluster), i) <==> LabelOf(x, "cluster") == cluster && IsSelected(x, s, i)
  {
    hide LabelOf;
    var ms := s.matchers;
    var added := AddToSelector(s, cluster).matchers;
    assert added[0] == ClusterMatch(cluster);
    assert Satisfies(x, added[0], i) <==> LabelOf(x, "cluster") == cluster;
    forall k | 0 <= k < |ms|
      ensures Satisfies(x, added[k + 1], i) <==> Satisfies(x, ms[k], i)
    {
      if k == 0 {
        LeadIsLayout(x, ms[0], i);
      } else {
        assert added[k + 1] == ms[k];
      }
    }
    AllShifted(x, ms, added, i);
  }

  lemma AllShifted<D, V>(x: Series<D>, ms: seq<LabelMatch>, added: seq<LabelMatch>, i: Interp<D, V>)
    requires |added| == |ms| + 1
    requires forall k | 0 <= k < |ms| :: Satisfies(x, added[k + 1], i) <==> Satisfies(x, ms[k], i)
    ensures SatisfiesAll(x, added, i) <==> Satisfies(x, added[0], i) && SatisfiesAll(x, ms, i)
  {
    hide Satisfies;
    if Satisfies(x, added[0], i) && SatisfiesAll(x, ms, i) {
      forall k | 0 <= k < |added|
        ensures Satisfies(x, added[k], i)
      {
        if k > 0 {
          assert Satisfies(x, ms[k - 1], i);
        }
      }
    }
  }

  /** The added matcher keeps exactly what the selector keeps of the cluster's series. */
  lemma {:induction false} AddedSelection<D, V>(store: seq<Series<D>>, s: Selector, cluster: string, i: Interp<D, V>)
    requires i.literal("\"" + cluster + "\"") == cluster
    requires !NamesLabel(s.matchers, "cluster")
    ensures Selected(store, AddToSelector(s, cluster), i) == Selected(ClusterSeries(store, cluster), s, i)
  {
    hide IsSelected, AddToSelector, LabelOf;
    if store != [] {
      AddedSelection(store[1..], s, cluster, i);
      AddedMatcherSelects(store[0], s, cluster, i);
      if LabelOf(store[0], "cluster") == cluster {
        assert ClusterSeries(store, cluster) == [store[0]] + ClusterSeries(store[1..], cluster);
        assert ClusterSeries(store, cluster)[1..] == ClusterSeries(store[1..], cluster);
      } else {
        assert ClusterSeries(store, cluster) == ClusterSeries(store[1..], cluster);
      }
    }
  }

  lemma {:induction false} AddedTree<D, V>(e: Expr, store: seq<Series<D>>, cluster: string, i: Interp<D, V>)
    requires i.literal("\"" + cluster + "\"") == cluster
    ensures Eval(AddCluster(e, cluster), Everywhere(store), i) == Eval(e, HeldTo(store, cluster), i)
    decreases e, 1
  {
    hide Selected, AddToSelector;
    match e
    case NumberLiteral(_) =>
    case NamedNumber(_) =>
    case StringLiteral(_) =>
    case Select(s, _) =>
      AddedRead(store, s, cluster, i);
      assert Everywhere(store)(AddToSelector(s, cluster)) == store;
    case Call(_, args) => AddedTrees(args, store, cluster, i);
    case Aggregate(_, _, _, args) => AddedTrees(args, store, cluster, i);
    case Binary(_, _, _, lhs, rhs) =>
      AddedTree(lhs, store, cluster, i);
      AddedTree(rhs, store, cluster, i);
    case Unary(_, arg) => AddedTree(arg, store, cluster, i);
    case Paren(arg) => AddedTree(arg, store, cluster, i);
    case Subquery(arg, _) => AddedTree(arg, store, cluster, i);
  }

  lemma AddedRead<D, V>(store: seq<Series<D>>, s: Selector, cluster: string, i: Interp<D, V>)
    requires i.literal("\"" + cluster + "\"") == cluster
    ensures Selected(store, AddToSelector(s, cluster), i) == Selected(HeldTo(store, cluster)(s), s, i)
  {
    hide Selected;
    if !NamesLabel(s.matchers, "cluster") {
      AddedSelection(store, s, cluster, i);
    }
  }

  lemma {:induction false} AddedTrees<D, V>(args: seq<Expr>, store: seq<Series<D>>, cluster: string, i: Interp<D, V>)
    requires i.literal("\"" + cluster + "\"") == cluster
    ensures EvalAll(AddToAll(args, cluster), Everywhere(store), i) == EvalAll(args, HeldTo(store, cluster), i)
    decreases args, 0
  {
    hide Eval, AddCluster;
    if args != [] {
      AddedTree(args[0], store, cluster, i);
      AddedTrees(args[1..], store, cluster, i);
      AddedArgs(args, cluster);
    }
  }

  predicate NoneNamesCluster(ss: seq<Selector>) {
    forall k | 0 <= k < |ss| :: !NamesLabel(ss[k].matchers, "cluster")
  }

  lemma {:induction false} UnnamedIsOnly<D, V>(e: Expr, store: seq<Series<D>>, cluster: string, i: Interp<D, V>)
    requires NoneNamesCluster(Selectors(e))
    ensures Eval(e, HeldTo(store, cluster), i) == Eval(e, Only(store, cluster), i)
    decreases e, 1
  {
    hide Selected, NamesLabel;
    match e
    case NumberLiteral(_) =>
    case NamedNumber(_) =>
    case StringLiteral(_) =>
    case Select(s, _) =>
      assert !NamesLabel(Selectors(e)[0].matchers, "cluster");
    case Call(_, args) => UnnamedAreOnly(args, store, cluster, i);
    case Aggregate(_, _, _, args) => UnnamedAreOnly(args, store, cluster, i);
    case Binary(_, _, _, lhs, rhs) =>
      UnnamedParts(Selectors(lhs), Selectors(rhs));
      UnnamedIsOnly(lhs, store, cluster, i);
      UnnamedIsOnly(rhs, store, cluster, i);
    case Unary(_, arg) => UnnamedIsOnly(arg, store, cluster, i);
    case Paren(arg) => UnnamedIsOnly(arg, store, cluster, i);
    case Subquery(arg, _) => UnnamedIsOnly(arg, store, cluster, i);
  }

  lemma UnnamedParts(a: seq<Selector>, b: seq<Selector>)
    requires NoneNamesCluster(a + b)
    ensures NoneNamesCluster(a) && NoneNamesCluster(b)
  {
    hide NamesLabel;
    assert forall k | 0 <= k < |a| :: (a + b)[k] == a[k];
    assert forall k | 0 <= k < |b| :: (a + b)[|a| + k] == b[k];
  }

  lemma {:induction false} UnnamedAreOnly<D, V>(args: seq<Expr>, store: seq<Series<D>>, cluster: string,
      i: Interp<D, V>)
    requires NoneNamesCluster(SelectorsOf(args))
    ensures EvalAll(args, HeldTo(store, cluster), i) == EvalAll(args, Only(store, cluster), i)
    decreases args, 0
  {
    hide Eval, NoneNamesCluster, Selectors;
    if args != [] {
      UnnamedParts(Selectors(args[0]), SelectorsOf(args[1..]));
      UnnamedIsOnly(args[0], store, cluster, i);
      UnnamedAreOnly(args[1..], store, cluster, i);
    }
  }

  /**
   * Scoping preserves meaning. Where every selector is seen for what it is, the scanned text is the text of the tree
   * with the matcher added, and on the whole store that tree means what the original means when its
   * selectors read the cluster's series only - all of them, unless some name a cluster themselves.
   */
  lemma ScopingKeepsMeaning<D, V>(e: Expr, ws: seq<string>, cluster: string, store: seq<Series<D>>, i: Interp<D, V>)
    requires IsExpr(e) && IsLayout(Tokens(e), ws) && AreTelling(Selectors(e))
    requires i.literal("\"" + cluster + "\"") == cluster
    ensures |Tokens(AddCluster(e, cluster))| + 1 == |ws|
    ensures Scoped(Render(Tokens(e), ws), cluster, PromQL) == Render(Tokens(AddCluster(e, cluster)), ws)
    ensures Eval(AddCluster(e, cluster), Everywhere(store), i) == Eval(e, HeldTo(store, cluster), i)
    ensures NoneNamesCluster(Selectors(e)) ==>
              Eval(AddCluster(e, cluster), Everywhere(store), i) == Eval(e, Only(store, cluster), i)
  {
    hide Eval, Tokens, AddCluster, Render, Scoped, IsExpr, Selectors, AreTelling, NoneNamesCluster;
    ScanAddsCluster(e, ws, cluster);
    AddedTree(e, store, cluster, i);
    if NoneNamesCluster(Selectors(e)) {
      UnnamedIsOnly(e, store, cluster, i);
    }
  }

  // ---- A query the text test misreads ----

  const MISREAD_MATCH: LabelMatch := LabelMatch("", "job", "", Equal, "", "\",cluster=x\"", "")

  const MISREAD: Expr := Select(Selector("up", "", true, [MISREAD_MATCH], ""), [])

  const DEV_SERIES: Series<()> :=
    Series(map["__name__" := "up", "job" := ",cluster=x", "cluster" := "dev"], ())

  /** Literals stand for their contents, and an expression counts the series it reads. */
  function Counting(): Interp<(), nat> {
    Interp(
      text => if |text| >= 2 then text[1..|text| - 1] else text,
      (pattern, value) => pattern == value,
      text => 0, text => 0,
      (read, tail) => |read|,
      (name, args) => 0, (name, grouping, args) => 0, (op, boolean, matching, l, r) => 0,
      (sign, arg) => arg, (arg, tail) => arg)
  }

  lemma MisreadIsExpr()
    ensures IsExpr(MISREAD)
  {
    hide IsName, IsLiteral;
    PlainName("up");
    PlainName("job");
    MisreadLiteral();
  }

  lemma PlainName(w: string)
    requires w != "" && forall k | 0 <= k < |w| :: 'a' <= w[k] <= 'z'
    ensures IsName(w)
  {
    hide Span;
    SpanUnique(IsIdentChar, w, |w|);
  }

  lemma MisreadLiteral()
    ensures IsLiteral(MISREAD_MATCH.value)
  {
    hide LiteralTail;
    CleanLiteral(",cluster=x", " ");
    assert MISREAD_MATCH.value + " " == "\"" + (",cluster=x" + "\"" + " ");
    assert (MISREAD_MATCH.value + " ")[1..] == ",cluster=x" + "\"" + " ";
  }

  lemma InnerClusterIsHit(a: string, b: string)
    requires b != "" && b[0] == '='
    ensures Hit(a + ("," + ("cluster" + b)))
  {
    hide NamesCluster;
    ClusterEquals(b);
    HitFirst(',', "cluster" + b);
    hide Hit;
    HitSuffix(a, [','] + ("cluster" + b));
  }

  lemma MisreadIsHit()
    ensures HasCluster("job=\",cluster=x\"")
  {
    hide NamesCluster;
    InnerClusterIsHit("{job=\"", "=x\"");
    HitIsHasCluster("job=\",cluster=x\"", "{job=\"" + ("," + ("cluster" + "=x\"")));
  }

  lemma HitIsHasCluster(inner: string, t: string)
    requires Hit(t) && t == "{" + inner
    ensures HasCluster(inner)
  {
    hide NamesCluster;
  }

  lemma MisreadBody()
    ensures BodyText(MISREAD.selector) == "job=\",cluster=x\""
    ensures MISREAD.selector.matchers[0] == MISREAD_MATCH
  {
    assert MatchText(MISREAD_MATCH) + "" == "job=\",cluster=x\"";
  }

  lemma MisreadTokens()
    ensures Tokens(MISREAD) == [Metric(ToSelection(MISREAD.selector))]
  {
    hide ToSelection;
    assert TailTokens([]) == [];
  }

  lemma MisreadText()
    ensures |Tokens(MISREAD)| == 1 && Render(Tokens(MISREAD), ["", ""]) == "up{job=\",cluster=x\"}"
    ensures HoldTokens(Tokens(MISREAD), Matcher("stg")) == Tokens(MISREAD)
    ensures IsLayout(Tokens(MISREAD), ["", ""])
  {
    hide HasCluster, BodyText, Tokens, Matcher;
    MisreadIsHit();
    MisreadBody();
    MisreadTokens();
    var s := MISREAD.selector;
    MisreadIsKept(s, Matcher("stg"));
    hide ToSelection, HoldSelection;
    var ts := Tokens(MISREAD);
    assert ["", ""][1..] == [""];
    assert Render(ts[1..], [""]) == "";
    assert SelectionText(ToSelection(s)) == "up{job=\",cluster=x\"}" by { MisreadSelection(); }
  }

  lemma MisreadSelection()
    ensures SelectionText(ToSelection(MISREAD.selector)) == "up{job=\",cluster=x\"}"
  {
    hide BodyText;
    MisreadBody();
    GroupText("up", "", "job=\",cluster=x\"");
  }

  lemma GroupText(name: string, gap: string, body: string)
    ensures SelectionText(Selection(name, gap, Some(body))) == name + gap + ("{" + body + "}")
  {
  }

  /**
   * Not every query is held: `up{job=",cluster=x"}` comes back as it was, because its string passes for
   * a cluster matcher, and then reads another cluster's series.
   */
  lemma MisreadQueryIsNotHeld()
    ensures Scoped("up{job=\",cluster=x\"}", "stg", PromQL) == "up{job=\",cluster=x\"}"
    ensures NoneNamesCluster(Selectors(MISREAD)) && !AreTelling(Selectors(MISREAD))
    ensures Eval(MISREAD, Everywhere([DEV_SERIES]), Counting()) == 1
    ensures Eval(MISREAD, Only([DEV_SERIES], "stg"), Counting()) == 0
  {
    MisreadScan();
    MisreadSelectors();
    MisreadCounts();
  }

  lemma MisreadScan()
    ensures Scoped("up{job=\",cluster=x\"}", "stg", PromQL) == "up{job=\",cluster=x\"}"
  {
    hide Tokens, Render, IsExpr, IsLayout, HoldTokens, Matcher, Lex, IsSequence;
    MisreadText();
    MisreadIsExpr();
    TreeIsSequence(MISREAD);
    ScanTokens(Tokens(MISREAD), ["", ""], Matcher("stg"));
  }

  lemma MisreadSelectors()
    ensures NoneNamesCluster(Selectors(MISREAD)) && !AreTelling(Selectors(MISREAD))
  {
    hide HasCluster, BodyText;
    MisreadIsHit();
    MisreadBody();
    assert Selectors(MISREAD)[0] == MISREAD.selector;
  }

  lemma MisreadCounts()
    ensures Eval(MISREAD, Everywhere([DEV_SERIES]), Counting()) == 1
    ensures Eval(MISREAD, Only([DEV_SERIES], "stg"), Counting()) == 0
  {
    var s := MISREAD.selector;
    var store := [DEV_SERIES];
    assert store[1..] == [];
    assert Counting().literal(MISREAD_MATCH.value) == ",cluster=x";
    assert IsSelected(DEV_SERIES, s, Counting());
    assert Selected(store, s, Counting()) == [DEV_SERIES];
    assert ClusterSeries(store, "stg") == [];
  }

  // ---- A metric the scanner takes for a keyword ----

  function BareQuery(word: string): Expr { Select(Selector(word, "", false, [], ""), []) }

  function Of(word: string, cluster: string): Series<()> {
    Series(map["__name__" := word, "cluster" := cluster], ())
  }

  lemma UnreadScan(word: string, cluster: string)
    requires IsName(word) && IsKeyword(Lower(word))
    ensures Scoped(word, cluster, PromQL) == word
  {
    hide Matcher, Lex, IsKeyword, IsName, Lower;
    var ts, ws := [Word(word)], ["", ""];
    assert ws[1..] == [""] && ts[1..] == [];
    assert Render(ts, ws) == word;
    ScanTokens(ts, ws, Matcher(cluster));
    assert HoldTokens(ts, Matcher(cluster)) == ts;
  }

  /** A bare metric spelled like a keyword, `start` say, comes back as it was and reads every cluster. */
  lemma UnreadMetricIsNotHeld(word: string, cluster: string, other: string)
    requires IsName(word) && IsKeyword(Lower(word)) && !IsNumberWord(word) && other != cluster
    ensures IsExpr(BareQuery(word)) && NoneNamesCluster(Selectors(BareQuery(word)))
    ensures Scoped(word, cluster, PromQL) == word
    ensures Eval(BareQuery(word), Everywhere([Of(word, other)]), Counting()) == 1
    ensures Eval(BareQuery(word), Only([Of(word, other)], cluster), Counting()) == 0
  {
    hide Ident, IsKeyword, Lower, Scoped;
    UnreadScan(word, cluster);
    var store := [Of(word, other)];
    assert store[1..] == [];
    assert Selectors(BareQuery(word)) == [BareQuery(word).selector];
    assert IsSelected(Of(word, other), BareQuery(word).selector, Counting());
    assert Selected(store, BareQuery(word).selector, Counting()) == store;
    assert ClusterSeries(store, cluster) == [];
  }

  // ---- A comment ----

  /** A quote with no other one after it opens a literal that runs to the end. */
  lemma {:induction false} OpenLiteral(b: string)
    requires '\'' !in b
    ensures LiteralTail('\'', b) == |b|
    decreases |b|
  {
    if b != "" {
      var n := if b[0] == '\\' && |b| > 1 then 2 else 1;
      assert forall k | 0 <= k < |b[n..]| :: b[n..][k] == b[n + k];
      OpenLiteral(b[n..]);
    }
  }

  lemma LiteralReads(b: string, m: string)
    requires Lex(("'" + b)[LiteralLength("'" + b)..], PromQL).Some?
    ensures var q := "'" + b;
            var n := LiteralLength(q);
            Lex(q, PromQL).Some? && Held(q, PromQL, m) == q[..n] + Held(q[n..], PromQL, m)
  {
    hide LiteralLength, Lex;
    var q := "'" + b;
    var n := LiteralLength(q);
    assert q[..n] + q[n..] == q;
    ReadCopy(q[..n], q[n..], m);
  }

  /**
   * The scanner does not know comments. After an apostrophe in one it takes everything up to the next
   * apostrophe for a string literal; without a next one, nothing that follows the comment is held.
   */
  lemma ApostropheHidesQuery(word: string, comment: string, query: string, cluster: string)
    requires IsName(word) && !IsKeyword(Lower(word))
    requires '\'' !in comment && '\'' !in query
    ensures var start, rest := "# " + word, "'" + comment + "\n";
            var out := Scoped(start + (rest + query), cluster, PromQL);
            && out == start + ("{" + Matcher(cluster) + "}") + (rest + query)
            && (out == start + ("{" + Matcher(cluster) + "}") + (rest + Scoped(query, cluster, PromQL)) <==>
                Scoped(query, cluster, PromQL) == query)
  {
    hide Lex, LiteralTail, Matcher, IsName, IsKeyword, Lower, Held, Scoped;
    var m := Matcher(cluster);
    var b := comment + "\n" + query;
    var q := "'" + b;
    OpenLiteralReads(b, m);
    BareThenQuote(word, b, m);
    ReadPlain("# ", word + q, m);
    ReadTwo("# ", "# ", word, word + ("{" + m + "}"), q, m);
    var start, rest := "# " + word, "'" + comment + "\n";
    assert rest + query == q;
    assert Held(start + q, PromQL, m) == "# " + (word + ("{" + m + "}")) + q;
    assert "# " + (word + ("{" + m + "}")) == start + ("{" + m + "}");
    ScopedIsHeld(start + q, cluster);
    SameTail(start + ("{" + m + "}") + rest, Scoped(query, cluster, PromQL), query);
    Assoc(start + ("{" + m + "}"), rest, query);
    Assoc(start + ("{" + m + "}"), rest, Scoped(query, cluster, PromQL));
  }

  lemma ScopedIsHeld(q: string, cluster: string)
    requires Lex(q, PromQL).Some?
    ensures Scoped(q, cluster, PromQL) == Held(q, PromQL, Matcher(cluster))
  {
  }

  lemma SameTail(p: string, x: string, y: string)
    ensures p + x == p + y <==> x == y
  {
    assert (p + x)[|p|..] == x && (p + y)[|p|..] == y;
  }

  lemma OpenLiteralReads(b: string, m: string)
    requires '\'' !in b
    ensures Lex("'" + b, PromQL).Some? && Held("'" + b, PromQL, m) == "'" + b
  {
    hide LiteralTail;
    OpenLiteral(b);
    var q := "'" + b;
    assert q[1..] == b && LiteralLength(q) == |q|;
    assert q[|q|..] == "" && q[..|q|] == q;
    LiteralReads(b, m);
  }

  lemma BareThenQuote(word: string, b: string, m: string)
    requires IsName(word) && !IsKeyword(Lower(word)) && Lex("'" + b, PromQL).Some?
    ensures Reads(word, word + ("{" + m + "}"), "'" + b, m)
  {
    hide Lex, IsName, IsKeyword, Lower, Held;
    SpanUnique(IsSpace, "'" + b, 0);
    assert TrimStart("'" + b) == "'" + b;
    ReadBare(word, "'" + b, m);
  }
}
