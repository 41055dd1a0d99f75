/**
 * Selector bodies: written label matchers close their braces, a cluster matcher in the tree shows in
 * the text, and holding the text is adding a matcher to the tree exactly when the text can be trusted.
 */
module PromQLBodies {
  import opened Text
  import opened Scope
  import opened ScopeProperties
  import opened PromTokens
  import opened PromQL

  lemma LiteralThen(v: string, rest: string)
    requires IsLiteral(v)
    ensures LiteralLength(v + rest) == |v|
  {
    hide LiteralLength;
    LiteralLocal(v + " ", rest);
    assert (v + " ")[..|v|] == v;
  }

  lemma NameIsPlain(name: string)
    requires IsName(name)
    ensures forall k | 0 <= k < |name| :: IsIdentChar(name[k]) && !IsQuote(name[k]) && name[k] != '}'
  {
    hide Span;
  }

  lemma OpIsPlain(op: MatchOp)
    ensures forall k | 0 <= k < |OpText(op)| :: !IsQuote(OpText(op)[k]) && OpText(op)[k] != '}'
  {
  }

  /** What comes before the value of a matcher. */
  function MatchHead(m: LabelMatch): string { m.lead + (m.name + (m.before + (OpText(m.op) + m.after))) }

  lemma MatchSplit(m: LabelMatch)
    ensures MatchText(m) == MatchHead(m) + (m.value + m.trail)
  {
  }

  lemma BraceSkipsHead(m: LabelMatch, rest: string)
    requires IsMatch(m)
    ensures BraceOffset(MatchHead(m) + rest) == Shift(|MatchHead(m)|, BraceOffset(rest))
  {
    hide BraceOffset, IsName, IsLiteral, IsIdentChar;
    NameIsPlain(m.name);
    OpIsPlain(m.op);
    SpacesArePlain(m.lead);
    SpacesArePlain(m.before);
    SpacesArePlain(m.after);
    hide OpText, AllSpace;
    BraceSkipsWord(m.after, rest);
    BraceSkipsWord(OpText(m.op), m.after + rest);
    BraceSkipsWord(m.before, OpText(m.op) + (m.after + rest));
    BraceSkipsWord(m.name, m.before + (OpText(m.op) + (m.after + rest)));
    BraceSkipsWord(m.lead, m.name + (m.before + (OpText(m.op) + (m.after + rest))));
    assert MatchHead(m) + rest == m.lead + (m.name + (m.before + (OpText(m.op) + (m.after + rest))));
  }

  lemma BraceSkipsMatch(m: LabelMatch, rest: string)
    requires IsMatch(m)
    ensures BraceOffset(MatchText(m) + rest) == Shift(|MatchText(m)|, BraceOffset(rest))
  {
    hide BraceOffset, MatchHead, MatchText, LiteralLength;
    SpacesArePlain(m.trail);
    BraceSkipsWord(m.trail, rest);
    LiteralThen(m.value, m.trail + rest);
    BraceSkipsLiteral(m.value, m.trail + rest);
    BraceSkipsHead(m, m.value + (m.trail + rest));
    MatchSplit(m);
    assert MatchText(m) + rest == MatchHead(m) + (m.value + (m.trail + rest));
  }

  predicate AreMatches(ms: seq<LabelMatch>) { forall k | 0 <= k < |ms| :: IsMatch(ms[k]) }

  lemma {:induction false} BraceSkipsMatches(ms: seq<LabelMatch>, rest: string)
    requires AreMatches(ms)
    ensures BraceOffset(MatchesText(ms) + rest) == Shift(|MatchesText(ms)|, BraceOffset(rest))
  {
    hide BraceOffset, MatchText, IsMatch;
    if ms == [] {
      assert "" + rest == rest;
    } else if |ms| == 1 {
      BraceSkipsMatch(ms[0], rest);
    } else {
      BraceSkipsMatches(ms[1..], rest);
      BraceSkipsWord(",", MatchesText(ms[1..]) + rest);
      BraceSkipsMatch(ms[0], "," + (MatchesText(ms[1..]) + rest));
      assert MatchesText(ms) + rest == MatchText(ms[0]) + ("," + (MatchesText(ms[1..]) + rest));
    }
  }

  lemma EndIsPlain(s: Selector)
    requires IsSelector(s) && s.matchers != []
    ensures forall k | 0 <= k < |s.end| :: !IsQuote(s.end[k]) && s.end[k] != '}'
  {
    if s.end != "" {
      SpacesArePlain(s.end[1..]);
      assert s.end == [s.end[0]] + s.end[1..];
    }
  }

  lemma BodyCloses(s: Selector)
    requires IsSelector(s)
    ensures Closes(BodyText(s))
  {
    hide BraceOffset, MatchesText, IsMatch;
    BraceHere();
    if s.matchers == [] {
      SpacesArePlain(s.end);
      BraceSkipsWord(s.end, "}");
    } else {
      EndIsPlain(s);
      BraceSkipsWord(s.end, "}");
      BraceSkipsMatches(s.matchers, s.end + "}");
      assert BodyText(s) + "}" == MatchesText(s.matchers) + (s.end + "}");
    }
  }

  // ---- A cluster matcher in the tree shows in the text ----

  ghost predicate Hit(t: string) {
    exists i | 0 <= i < |t| :: t[i] in "{," && NamesCluster(t[i + 1..])
  }

  lemma HitSuffix(a: string, b: string)
    requires Hit(b)
    ensures Hit(a + b)
  {
    hide NamesCluster;
    var i :| 0 <= i < |b| && b[i] in "{," && NamesCluster(b[i + 1..]);
    assert (a + b)[|a| + i] == b[i] && (a + b)[|a| + i + 1..] == b[i + 1..];
  }

  lemma HitFirst(c: char, body: string)
    requires c in "{," && NamesCluster(body)
    ensures Hit([c] + body)
  {
    hide NamesCluster;
    var t := [c] + body;
    assert t[0] == c && t[0 + 1..] == body;
  }

  lemma OpAhead(before: string, op: MatchOp, rest: string)
    requires AllSpace(before)
    ensures var b := TrimStart(before + (OpText(op) + rest));
            b != "" && (b[0] == '=' || (|b| > 1 && b[0] == '!' && (b[1] == '=' || b[1] == '~')))
  {
    hide Span;
    TrimStartSkips(before, OpText(op) + rest);
    SpanUnique(IsSpace, OpText(op) + rest, 0);
  }

  lemma ClusterAhead(lead: string, before: string, op: MatchOp, rest: string)
    requires AllSpace(lead) && AllSpace(before)
    ensures NamesCluster(lead + ("cluster" + (before + (OpText(op) + rest))))
  {
    hide Span, OpText;
    var tail := before + (OpText(op) + rest);
    TrimStartSkips(lead, "cluster" + tail);
    SpanUnique(IsSpace, "cluster" + tail, 0);
    assert TrimStart("cluster" + tail) == "cluster" + tail;
    assert ("cluster" + tail)[7..] == tail;
    OpAhead(before, op, rest);
  }

  lemma MatchIsHit(c: char, m: LabelMatch, rest: string)
    requires c in "{," && IsMatch(m) && m.name == "cluster"
    ensures Hit([c] + (MatchText(m) + rest))
  {
    hide NamesCluster, IsLiteral, IsName, OpText;
    var body := MatchText(m) + rest;
    ClusterAhead(m.lead, m.before, m.op, m.after + (m.value + m.trail) + rest);
    assert body == m.lead + ("cluster" + (m.before + (OpText(m.op) + (m.after + (m.value + m.trail) + rest))));
    HitFirst(c, body);
  }

  lemma {:induction false} NamedIsHit(c: char, ms: seq<LabelMatch>, end: string)
    requires c in "{," && AreMatches(ms) && NamesLabel(ms, "cluster")
    ensures Hit([c] + (MatchesText(ms) + end))
  {
    hide Hit, IsMatch, MatchText;
    var rest := if |ms| == 1 then end else "," + (MatchesText(ms[1..]) + end);
    assert MatchesText(ms) + end == MatchText(ms[0]) + rest;
    if ms[0].name == "cluster" {
      MatchIsHit(c, ms[0], rest);
    } else {
      var k :| 0 <= k < |ms| && ms[k].name == "cluster";
      assert ms[1..][k - 1] == ms[k];
      NamedIsHit(',', ms[1..], end);
      HitSuffix([c] + MatchText(ms[0]), rest);
      Assoc([c], MatchText(ms[0]), rest);
    }
  }

  /** A selector that names a cluster is seen to name one. */
  lemma NamedIsSeen(s: Selector)
    requires IsSelector(s) && NamesLabel(s.matchers, "cluster")
    ensures HasCluster(BodyText(s))
  {
    hide IsMatch, MatchesText;
    NamedIsHit('{', s.matchers, s.end);
    hide NamesCluster;
    assert ['{'] + (MatchesText(s.matchers) + s.end) == "{" + BodyText(s);
  }

  // ---- Adding to the tree and adding to the text ----

  lemma TrimMatch(m: LabelMatch, rest: string)
    requires IsMatch(m)
    ensures TrimStart(MatchText(m) + rest) == MatchText(m.(lead := "")) + rest
    ensures MatchText(m.(lead := "")) != "" && !IsSpace(MatchText(m.(lead := ""))[0])
  {
    hide Span, IsLiteral, Ident, OpText;
    var t := MatchText(m.(lead := ""));
    assert t[0] == m.name[0];
    assert MatchText(m) + rest == m.lead + (t + rest);
    TrimStartSkips(m.lead, t + rest);
    SpanUnique(IsSpace, t + rest, 0);
    assert (t + rest)[0..] == t + rest;
  }

  lemma LeadText(m: LabelMatch)
    ensures MatchText(m.(lead := " ")) == " " + MatchText(m.(lead := ""))
  {
  }

  lemma ClusterText(cluster: string)
    ensures MatchText(ClusterMatch(cluster)) == Matcher(cluster)
  {
  }

  function Rest(ms: seq<LabelMatch>): string {
    if ms == [] then "" else "," + MatchesText(ms)
  }

  lemma MatchesCons(m: LabelMatch, ms: seq<LabelMatch>)
    ensures MatchesText([m] + ms) == MatchText(m) + Rest(ms)
  {
    hide MatchText;
    assert ([m] + ms)[1..] == ms;
    assert MatchText(m) + "" == MatchText(m);
  }

  lemma AddedText(ms: seq<LabelMatch>, cluster: string, end: string)
    requires ms != [] && AreMatches(ms)
    ensures MatchesText([ClusterMatch(cluster)] + ([ms[0].(lead := " ")] + ms[1..])) + end
         == Matcher(cluster) + ", " + TrimStart(MatchesText(ms) + end)
    ensures !AllSpace(MatchesText(ms) + end)
  {
    hide MatchText, MatchesText, Matcher, TrimStart, IsMatch, ClusterMatch, Rest;
    var first := ms[0].(lead := " ");
    var bare := MatchText(ms[0].(lead := ""));
    var rest := Rest(ms[1..]) + end;
    assert [ms[0]] + ms[1..] == ms;
    MatchesCons(ms[0], ms[1..]);
    Assoc(MatchText(ms[0]), Rest(ms[1..]), end);
    TrimMatch(ms[0], rest);
    NotAllSpace(MatchesText(ms) + end, bare + rest);
    MatchesCons(first, ms[1..]);
    LeadText(ms[0]);
    MatchesCons(ClusterMatch(cluster), [first] + ms[1..]);
    ClusterText(cluster);
    RestOfMore([first] + ms[1..]);
    CommaSpace(Matcher(cluster), bare, rest);
    assert Matcher(cluster) + ("," + (" " + bare + Rest(ms[1..]))) + end
        == Matcher(cluster) + ("," + (" " + bare + rest));
  }

  lemma RestOfMore(ms: seq<LabelMatch>)
    requires ms != []
    ensures Rest(ms) == "," + MatchesText(ms)
  {
  }

  lemma CommaSpace(m: string, a: string, b: string)
    ensures m + ("," + (" " + a + b)) == m + ", " + (a + b)
  {
  }

  lemma NotAllSpace(s: string, t: string)
    requires TrimStart(s) == t && t != ""
    ensures !AllSpace(s)
  {
    hide Span;
    assert s[|s| - |t|] == t[0];
  }

  /** The scanner sees this selector for what it is: as a selector, and as naming a cluster only if it does. */
  predicate IsTelling(s: Selector) {
    !IsUnread(s) && (s.braces && HasCluster(BodyText(s)) ==> NamesLabel(s.matchers, "cluster"))
  }

  lemma WithMatcherIsAdd(s: Selector, cluster: string)
    requires IsSelector(s) && s.braces && !HasCluster(BodyText(s)) && !NamesLabel(s.matchers, "cluster")
    ensures WithMatcher(BodyText(s), Matcher(cluster)) == BodyText(AddToSelector(s, cluster))
  {
    hide HasCluster, Matcher, IsMatch, MatchText, ClusterMatch;
    TrimIsEmpty(BodyText(s));
    ClusterText(cluster);
    if s.matchers != [] {
      AddedText(s.matchers, cluster, s.end);
    } else {
      assert [ClusterMatch(cluster)] + [] == [ClusterMatch(cluster)];
      assert MatchesText([ClusterMatch(cluster)]) + "" == Matcher(cluster);
    }
  }

  /** Holding a selector's text is adding the matcher to the selector, when the test is right. */
  lemma HoldIsAdd(s: Selector, cluster: string)
    requires IsSelector(s) && IsTelling(s)
    ensures HoldSelection(ToSelection(s), Matcher(cluster)) == ToSelection(AddToSelector(s, cluster))
  {
    hide HasCluster, Matcher, IsMatch, MatchText, ClusterMatch, BodyText;
    if NamesLabel(s.matchers, "cluster") {
      NamedIsSeen(s);
    } else if s.braces {
      WithMatcherIsAdd(s, cluster);
    } else {
      BareIsAdd(s, cluster);
    }
  }

  lemma BareIsAdd(s: Selector, cluster: string)
    requires IsSelector(s) && !s.braces
    ensures !NamesLabel(s.matchers, "cluster")
    ensures BodyText(AddToSelector(s, cluster)) == Matcher(cluster)
  {
    hide Matcher, MatchText, ClusterMatch;
    ClusterText(cluster);
    assert [ClusterMatch(cluster)] + [] == [ClusterMatch(cluster)];
    assert Matcher(cluster) + "" == Matcher(cluster);
  }

  /** A misread selector is left alone. */
  lemma MisreadIsKept(s: Selector, m: string)
    requires s.braces && HasCluster(BodyText(s))
    ensures HoldSelection(ToSelection(s), m) == ToSelection(s)
  {
  }
}
