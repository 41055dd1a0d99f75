/** When the scanner sees a selector for what it is: its text test is exact unless a value holds a comma or a brace. */
module PromQLTelling {
  import opened Text
  import opened Scope
  import opened PromTokens
  import opened PromQL
  import opened PromQLBodies

  /** No value of a matcher holds a character that can stand before a label name. */
  predicate IsSimple(s: Selector) {
    forall k | 0 <= k < |s.matchers| :: ',' !in s.matchers[k].value && '{' !in s.matchers[k].value
  }

  /** Neither a comma nor a brace. */
  predicate NoStop(s: string) { ',' !in s && '{' !in s }

  lemma {:induction false} NamesNothing(w: string)
    requires AllSpace(w)
    ensures !NamesCluster(w)
  {
    SpanUnique(IsSpace, w, |w|);
  }

  /** At the start of a matcher the test sees its label. */
  lemma SeesLabel(m: LabelMatch, rest: string)
    requires IsMatch(m)
    ensures NamesCluster(MatchText(m) + rest) <==> m.name == "cluster"
  {
    hide Span, IsLiteral, NamesCluster;
    if m.name == "cluster" {
      ClusterAhead(m.lead, m.before, m.op, m.after + (m.value + m.trail) + rest);
      assert MatchText(m) + rest ==
          m.lead + ("cluster" + (m.before + (OpText(m.op) + (m.after + (m.value + m.trail) + rest))));
    } else {
      var tail := m.before + (OpText(m.op) + (m.after + (m.value + m.trail) + rest));
      assert MatchText(m) + rest == m.lead + (m.name + tail);
      OtherLabel(m.lead, m.name, tail, m.before, m.op);
    }
  }

  lemma NamesAfterLead(lead: string, s: string)
    requires AllSpace(lead) && s != "" && !IsSpace(s[0])
    ensures TrimStart(lead + s) == s
  {
    hide Span, IsSpace;
    TrimStartSkips(lead, s);
    SpanUnique(IsSpace, s, 0);
    assert s[0..] == s;
  }

  lemma OpIsNoLetter(before: string, op: MatchOp, tail: string)
    requires AllSpace(before) && before + OpText(op) <= tail
    ensures tail != "" && tail[0] !in "cluster"
  {
    assert tail[0] == (before + OpText(op))[0];
    if before == "" {
      assert before + OpText(op) == OpText(op);
    }
  }

  lemma IdentIsNoOp(b: string)
    requires b != "" && IsIdentChar(b[0])
    ensures TrimStart(b) == b && b[0] != '=' && b[0] != '!'
  {
    SpanUnique(IsSpace, b, 0);
  }

  lemma OtherLabel(lead: string, name: string, tail: string, before: string, op: MatchOp)
    requires AllSpace(lead) && AllSpace(before) && IsName(name) && ':' !in name && name != "cluster"
    requires before + OpText(op) <= tail
    ensures !NamesCluster(lead + (name + tail))
  {
    hide TrimStart, IsSpace, IsName, AllSpace, OpText;
    var s := name + tail;
    NameIsPlain(name);
    NameStarts(name);
    NamesAfterLead(lead, s);
    OpIsNoLetter(before, op, tail);
    if |name| < 7 {
      ShortName(name, tail);
    } else if s[..7] == "cluster" {
      assert s[..7] == name[..7] && |name| > 7;
      assert s[7..][0] == name[7];
      IdentIsNoOp(s[7..]);
    }
  }

  lemma ShortName(name: string, tail: string)
    requires |name| < 7 && tail != "" && tail[0] !in "cluster"
    ensures |name + tail| >= 7 ==> (name + tail)[..7] != "cluster"
  {
    if |name + tail| >= 7 {
      assert (name + tail)[..7][|name|] == tail[0];
      assert "cluster"[|name|] in "cluster";
    }
  }

  lemma NameStarts(name: string)
    requires IsName(name)
    ensures name != "" && !IsSpace(name[0])
  {
  }

  // ---- Where the test can hit ----

  lemma NoStopNoHit(a: string, b: string)
    requires NoStop(a)
    ensures Hit(a + b) <==> Hit(b)
  {
    hide NamesCluster;
    if Hit(b) {
      HitSuffix(a, b);
    }
    assert forall k | 0 <= k < |a| :: a[k] in a && (a + b)[k] == a[k];
    if Hit(a + b) {
      var i :| 0 <= i < |a + b| && (a + b)[i] in "{," && NamesCluster((a + b)[i + 1..]);
      assert (a + b)[i] == b[i - |a|] && (a + b)[i + 1..] == b[i - |a| + 1..];
    }
  }

  lemma HitCons(c: char, x: string)
    requires c in "{,"
    ensures Hit([c] + x) <==> NamesCluster(x) || Hit(x)
  {
    hide NamesCluster;
    var t := [c] + x;
    assert t[0 + 1..] == x;
    if NamesCluster(x) {
      HitFirst(c, x);
    }
    if Hit(x) {
      HitSuffix([c], x);
    }
    if Hit(t) && !NamesCluster(x) {
      var i :| 0 <= i < |t| && t[i] in "{," && NamesCluster(t[i + 1..]);
      assert x[i - 1] == t[i] && x[i - 1 + 1..] == t[i + 1..];
    }
  }

  lemma SpacesHitNothing(w: string)
    requires AllSpace(w)
    ensures !NamesCluster(w) && !Hit(w) && NoStop(w)
  {
    NamesNothing(w);
  }

  lemma MatchHasNoStop(m: LabelMatch)
    requires IsMatch(m) && ',' !in m.value && '{' !in m.value
    ensures NoStop(MatchText(m))
  {
    hide IsLiteral, IsSpace;
    NameIsPlain(m.name);
    SpacesHaveNoStop(m.lead);
    SpacesHaveNoStop(m.before);
    SpacesHaveNoStop(m.after);
    SpacesHaveNoStop(m.trail);
    NameHasNoStop(m.name);
    OpHasNoStop(m.op);
    hide OpText, IsName, AllSpace;
  }

  lemma SpacesHaveNoStop(w: string)
    requires AllSpace(w)
    ensures NoStop(w)
  {
  }

  lemma NameHasNoStop(name: string)
    requires IsName(name)
    ensures NoStop(name)
  {
    NameIsPlain(name);
  }

  lemma OpHasNoStop(op: MatchOp)
    ensures NoStop(OpText(op))
  {
  }

  predicate IsEnd(end: string) { end == "" || (end[0] == ',' && AllSpace(end[1..])) }

  lemma EndHitsNothing(end: string)
    requires IsEnd(end)
    ensures !Hit(end)
  {
    hide NamesCluster, AllSpace;
    if end != "" {
      assert end == [end[0]] + end[1..];
      SpacesHitNothing(end[1..]);
      HitCons(end[0], end[1..]);
    }
  }

  lemma {:induction false} HitsIff(c: char, ms: seq<LabelMatch>, end: string)
    requires c in "{," && ms != [] && AreMatches(ms) && IsEnd(end)
    requires forall k | 0 <= k < |ms| :: ',' !in ms[k].value && '{' !in ms[k].value
    ensures Hit([c] + (MatchesText(ms) + end)) <==> NamesLabel(ms, "cluster")
  {
    hide Hit, IsMatch, MatchText, NamesCluster, IsEnd, NoStop, NamesLabel;
    var rest := if |ms| == 1 then end else "," + (MatchesText(ms[1..]) + end);
    assert MatchesText(ms) + end == MatchText(ms[0]) + rest;
    SeesLabel(ms[0], rest);
    MatchHasNoStop(ms[0]);
    NoStopNoHit(MatchText(ms[0]), rest);
    HitCons(c, MatchText(ms[0]) + rest);
    if |ms| == 1 {
      EndHitsNothing(end);
    } else {
      HitsIff(',', ms[1..], end);
      assert ms == [ms[0]] + ms[1..];
    }
    LabelsOf(ms);
  }

  lemma LabelsOf(ms: seq<LabelMatch>)
    requires ms != []
    ensures NamesLabel(ms, "cluster") <==> ms[0].name == "cluster" || NamesLabel(ms[1..], "cluster")
    ensures |ms| == 1 ==> !NamesLabel(ms[1..], "cluster")
  {
    if NamesLabel(ms[1..], "cluster") {
      var k :| 0 <= k < |ms[1..]| && ms[1..][k].name == "cluster";
      assert ms[k + 1].name == "cluster";
    }
    if NamesLabel(ms, "cluster") && ms[0].name != "cluster" {
      var k :| 0 <= k < |ms| && ms[k].name == "cluster";
      assert ms[1..][k - 1].name == "cluster";
    }
  }

  /** The test is exact on a selector whose values hold neither a comma nor a brace. */
  lemma SeesCluster(s: Selector)
    requires IsSelector(s) && IsSimple(s)
    ensures HasCluster(BodyText(s)) <==> NamesLabel(s.matchers, "cluster")
  {
    hide IsMatch, NamesCluster;
    var t := "{" + BodyText(s);
    assert HasCluster(BodyText(s)) <==> Hit(t);
    if s.matchers == [] {
      SpacesHitNothing(s.end);
      HitCons('{', s.end);
    } else {
      HitsIff('{', s.matchers, s.end);
      assert t == ['{'] + (MatchesText(s.matchers) + s.end);
    }
  }

  /**
   * A selector whose values hold neither a comma nor a brace is seen for what it is, unless it is a bare
   * metric with one of sixteen names.
   */
  lemma SimpleIsTelling(s: Selector)
    requires IsSelector(s) && IsSimple(s)
    ensures IsTelling(s) <==>
              s.braces || Lower(s.metric) !in {"by", "without", "on", "ignoring", "group_left", "group_right", "bool",
                                               "offset", "and", "or", "unless", "atan2", "inf", "nan", "start", "end"}
  {
    hide HasCluster, BodyText, IsMatch, Lower;
    SeesCluster(s);
  }
}
