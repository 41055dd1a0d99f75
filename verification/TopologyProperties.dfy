/** The topology map has each card once, joins only cards it has, and grows with what is expanded. */
module TopologyProperties {
  import opened Text
  import opened TopologyGraph

  // ---- Any list of steps ----

  function PushIds(ss: seq<Step>): set<Id> { set s | s in ss && s.Push? :: s.id }

  /** The ids of the cards that are pushed or held. */
  function Cover(ss: seq<Step>): set<Id> { set s | s in ss && !s.Link? :: s.id }

  /** No card is pushed that was pushed or held before. */
  predicate NoRepeat(ss: seq<Step>) {
    ss == [] || (NoRepeat(ss[..|ss| - 1]) && (ss[|ss| - 1].Push? ==> ss[|ss| - 1].id !in Cover(ss[..|ss| - 1])))
  }

  predicate Apart(ids: set<Id>) { forall a, b | a in ids && b in ids :: Render(a) == Render(b) ==> a == b }

  predicate DistinctIds(ns: seq<Node>) { forall i, j | 0 <= i < j < |ns| :: ns[i].id != ns[j].id }

  function IdSet(ns: seq<Node>): set<string> { set n | n in ns :: n.id }

  lemma CoverStep(ss: seq<Step>, s: Step)
    ensures Cover(ss + [s]) == Cover(ss) + (if s.Link? then {} else {s.id})
  {
    assert forall x | x in ss + [s] :: x in ss || x == s;
  }

  lemma PushedIds(g: Graph, id: string, title: string)
    ensures IdSet(Pushed(g, id, title).nodes) == IdSet(g.nodes) + {id}
  {
    assert forall n | n in g.nodes + [Node(id, title)] :: n in g.nodes || n == Node(id, title);
    assert Node(id, title) in g.nodes + [Node(id, title)];
  }

  function Rendered(ids: set<Id>): set<string> { set id | id in ids :: Render(id) }

  /** The cards of the graph are those pushed or held. */
  lemma {:induction false} NodesAreCovered(ss: seq<Step>)
    ensures IdSet(Exec(ss).nodes) == Exec(ss).seen == Rendered(Cover(ss))
  {
    hide Render;
    if ss != [] {
      var n := |ss| - 1;
      var front, s := ss[..n], ss[n];
      NodesAreCovered(front);
      assert ss == front + [s];
      CoverStep(front, s);
      if !s.Link? {
        PushedIds(Exec(front), Render(s.id), s.title);
        RenderedAdd(Cover(front), s.id);
      }
    }
  }

  lemma RenderedAdd(ids: set<Id>, id: Id)
    ensures Rendered(ids + {id}) == Rendered(ids) + {Render(id)}
  {
    hide Render;
  }

  lemma {:induction false} NodesAreDistinct(ss: seq<Step>)
    requires NoRepeat(ss) && Apart(Cover(ss))
    ensures DistinctIds(Exec(ss).nodes)
  {
    hide Render;
    if ss != [] {
      var n := |ss| - 1;
      var front, s := ss[..n], ss[n];
      assert ss == front + [s];
      CoverStep(front, s);
      assert Apart(Cover(front));
      NodesAreDistinct(front);
      NodesAreCovered(front);
      if !s.Link? && Render(s.id) !in Exec(front).seen {
        OneMore(Exec(front), Render(s.id), s.title);
      }
      if s.Push? {
        NewIsUnseen(Cover(front), s.id);
      }
    }
  }

  lemma NewIsUnseen(ids: set<Id>, id: Id)
    requires Apart(ids + {id}) && id !in ids
    ensures Render(id) !in Rendered(ids)
  {
    hide Render;
  }

  lemma OneMore(g: Graph, id: string, title: string)
    requires DistinctIds(g.nodes) && id !in IdSet(g.nodes)
    ensures DistinctIds(Pushed(g, id, title).nodes)
  {
    forall i | 0 <= i < |g.nodes|
      ensures g.nodes[i].id != id
    {
      assert g.nodes[i] in g.nodes;
    }
  }

  /** The graph's edges are the links. */
  lemma {:induction false} EdgesAreLinks(ss: seq<Step>, e: Edge)
    ensures e in Exec(ss).edges <==>
            exists s :: s in ss && s.Link? && e == Edge(Render(s.source), Render(s.target), s.sqs)
  {
    hide Render;
    if ss != [] {
      var n := |ss| - 1;
      var front, s := ss[..n], ss[n];
      EdgesAreLinks(front, e);
      assert ss == front + [s];
      assert s in ss && forall x | x in ss :: x in front || x == s;
    }
  }

  lemma {:induction false} NoRepeatTwice(a: seq<Step>, b: seq<Step>)
    requires NoRepeat(a) && NoRepeat(b) && PushIds(b) !! Cover(a)
    ensures NoRepeat(a + b)
    decreases |b|
  {
    hide Cover, PushIds;
    if b == [] {
      assert a + b == a;
    } else {
      var n := |b| - 1;
      var front, s := b[..n], b[n];
      assert b == front + [s] && (a + b)[..|a| + n] == a + front;
      CoverTwice(front, [s]);
      NoRepeatTwice(a, front);
      CoverTwice(a, front);
      OnePushed(s);
    }
  }

  lemma OnePushed(s: Step)
    ensures s.Push? ==> s.id in PushIds([s])
  {
    assert s in [s];
  }

  lemma CoverTwice(a: seq<Step>, b: seq<Step>)
    ensures Cover(a + b) == Cover(a) + Cover(b) && PushIds(a + b) == PushIds(a) + PushIds(b)
  {
  }

  lemma NoRepeatOnce(s: Step, e: Step)
    requires e.Link?
    ensures NoRepeat([s, e]) && Cover([s, e]) == (if s.Link? then {} else {s.id})
    ensures PushIds([s, e]) == (if s.Push? then {s.id} else {})
  {
    assert [s, e][..1] == [s] && [s][..0] == [];
  }

  // ---- The parts ----

  lemma {:induction false} InPart(t: Topology, n: nat)
    requires n <= |t.inbound|
    ensures var ss := InSteps(t, n); NoRepeat(ss) && forall id | id in Cover(ss) :: id.InRow? && id.i < n
  {
    hide NoRepeat, Cover, PushIds;
    if n == 0 {
      NoSteps();
    } else {
      InPart(t, n - 1);
      var two := [Push(InRow(n - 1), t.inbound[n - 1]), Link(InRow(n - 1), Agent, false)];
      NoRepeatOnce(two[0], two[1]);
      NoRepeatTwice(InSteps(t, n - 1), two);
      CoverTwice(InSteps(t, n - 1), two);
    }
  }

  lemma NoSteps()
    ensures NoRepeat([]) && Cover([]) == {} && PushIds([]) == {}
  {
  }

  predicate IsStore(id: Id, out: Out, i: nat) {
    (id.StoreOf? && id.i == i) || (id.Shared? && exists s :: s in out.children && s.shared == Some(id.name))
  }

  lemma {:induction false} StorePart(out: Out, i: nat, n: nat)
    requires n <= |out.children|
    ensures var ss := StoreSteps(out, i, n);
            NoRepeat(ss) && PushIds(ss) == {} && forall id | id in Cover(ss) :: IsStore(id, out, i)
  {
    hide NoRepeat, Cover, PushIds;
    if n == 0 {
      NoSteps();
    } else {
      StorePart(out, i, n - 1);
      var s := out.children[n - 1];
      var id := StoreId(i, n - 1, s);
      assert s in out.children;
      var two := [Hold(id, s.title), Link(OutRow(i), id, false)];
      NoRepeatOnce(two[0], two[1]);
      CoverTwice(StoreSteps(out, i, n - 1), two);
      NoRepeatTwice(StoreSteps(out, i, n - 1), two);
    }
  }

  predicate IsOut(id: Id, t: Topology, n: nat) {
    || (id.OutRow? && id.i < n)
    || id.StoreOf?
    || (id.Shared? && exists out, s :: out in t.outbound && s in out.children && s.shared == Some(id.name))
  }

  lemma {:induction false} OutPart(t: Topology, expanded: set<string>, n: nat)
    requires n <= |t.outbound|
    ensures var ss := OutSteps(t, expanded, n);
            && NoRepeat(ss) && (forall id | id in PushIds(ss) :: id.OutRow?)
            && forall id | id in Cover(ss) :: IsOut(id, t, n)
  {
    hide NoRepeat, Cover, PushIds, Render, StoreSteps;
    if n == 0 {
      NoSteps();
    } else {
      var i, out := n - 1, t.outbound[n - 1];
      OutPart(t, expanded, i);
      var a := OutSteps(t, expanded, i);
      var two := [Push(OutRow(i), out.title), Link(Agent, OutRow(i), false)];
      var stores := if Render(OutRow(i)) in expanded then StoreSteps(out, i, |out.children|) else [];
      NoRepeatOnce(two[0], two[1]);
      NoRepeatTwice(a, two);
      CoverTwice(a, two);
      NoSteps();
      StorePart(out, i, |out.children|);
      NoRepeatTwice(a + two, stores);
      CoverTwice(a + two, stores);
      assert out in t.outbound;
    }
  }

  lemma {:induction false} BackendPart(t: Topology, n: nat)
    requires n <= |t.backends|
    ensures var ss := BackendSteps(t, n); NoRepeat(ss) && forall id | id in Cover(ss) :: id.BackendRow? && id.i < n
  {
    hide NoRepeat, Cover, PushIds, Anchor;
    if n == 0 {
      NoSteps();
    } else {
      BackendPart(t, n - 1);
      var b := t.backends[n - 1];
      var source := if b.viaWorker then Anchor(t.outbound, "llm-worker", 0) else Agent;
      var two := [Push(BackendRow(n - 1), b.name), Link(source, BackendRow(n - 1), b.viaWorker)];
      NoRepeatOnce(two[0], two[1]);
      NoRepeatTwice(BackendSteps(t, n - 1), two);
      CoverTwice(BackendSteps(t, n - 1), two);
    }
  }

  lemma {:induction false} ToolPart(c: Capability, i: nat, n: nat)
    requires n <= |c.tools|
    ensures var ss := ToolSteps(c, i, n);
            NoRepeat(ss) && forall id | id in Cover(ss) :: id.ToolOf? && id.i == i && id.j < n
    ensures PushIds(ToolSteps(c, i, n)) <= Cover(ToolSteps(c, i, n))
  {
    hide NoRepeat, Cover, PushIds;
    if n == 0 {
      NoSteps();
    } else {
      ToolPart(c, i, n - 1);
      var two := [Push(ToolOf(i, n - 1), c.tools[n - 1]), Link(CapRow(i), ToolOf(i, n - 1), false)];
      NoRepeatOnce(two[0], two[1]);
      NoRepeatTwice(ToolSteps(c, i, n - 1), two);
      CoverTwice(ToolSteps(c, i, n - 1), two);
    }
  }

  lemma {:induction false} CapPart(t: Topology, expanded: set<string>, n: nat)
    requires n <= |t.capabilities|
    ensures var ss := CapSteps(t, expanded, n);
            NoRepeat(ss) && forall id | id in Cover(ss) :: (id.CapRow? || id.ToolOf?) && id.i < n
  {
    hide NoRepeat, Cover, PushIds, Render, ToolSteps, Anchor;
    if n == 0 {
      NoSteps();
    } else {
      var i, c := n - 1, t.capabilities[n - 1];
      CapPart(t, expanded, i);
      var a := CapSteps(t, expanded, i);
      var two := [Push(CapRow(i), c.name), Link(Anchor(t.outbound, "devops-mcp-server", 0), CapRow(i), false)];
      var tools := if Render(CapRow(i)) in expanded then ToolSteps(c, i, |c.tools|) else [];
      NoRepeatOnce(two[0], two[1]);
      NoRepeatTwice(a, two);
      CoverTwice(a, two);
      NoSteps();
      ToolPart(c, i, |c.tools|);
      NoRepeatTwice(a + two, tools);
      CoverTwice(a + two, tools);
    }
  }

  lemma PushesAreCovered(ss: seq<Step>)
    ensures PushIds(ss) <= Cover(ss)
  {
  }

  /** No shared id looks like a minted one. */
  ghost predicate SharedAreUnminted(t: Topology) {
    forall out, s, id: Id | out in t.outbound && s in out.children && s.shared.Some? && !id.Shared? ::
      Render(id) != s.shared.value
  }

  lemma StepsDoNotRepeat(t: Topology, expanded: set<string>)
    ensures NoRepeat(Steps(t, expanded))
    ensures forall id | id in Cover(Steps(t, expanded)) && id.Shared? :: IsOut(id, t, 0)
  {
    hide NoRepeat, Cover, PushIds, Render, InSteps, OutSteps, BackendSteps, CapSteps;
    var first := [Push(Agent, "devops-ai-agent")];
    var a, b := InSteps(t, |t.inbound|), OutSteps(t, expanded, |t.outbound|);
    var c, d := BackendSteps(t, |t.backends|), CapSteps(t, expanded, |t.capabilities|);
    OnePush(Agent, "devops-ai-agent");
    InPart(t, |t.inbound|);
    OutPart(t, expanded, |t.outbound|);
    BackendPart(t, |t.backends|);
    CapPart(t, expanded, |t.capabilities|);
    PushesAreCovered(a);
    PushesAreCovered(c);
    PushesAreCovered(d);
    NoRepeatTwice(first, a);
    CoverTwice(first, a);
    NoRepeatTwice(first + a, b);
    CoverTwice(first + a, b);
    NoRepeatTwice(first + a + b, c);
    CoverTwice(first + a + b, c);
    NoRepeatTwice(first + a + b + c, d);
    CoverTwice(first + a + b + c, d);
  }

  lemma OnePush(id: Id, title: string)
    ensures NoRepeat([Push(id, title)]) && Cover([Push(id, title)]) == {id}
  {
    hide Cover;
    var s := Push(id, title);
    NoSteps();
    CoverStep([], s);
    assert [] + [s] == [s] && [s][..0] == [];
  }

  lemma IdsAreApart(t: Topology, ids: set<Id>)
    requires SharedAreUnminted(t) && forall id | id in ids && id.Shared? :: IsOut(id, t, 0)
    ensures Apart(ids)
  {
    hide Render, IsOut, SharedAreUnminted;
    forall a, b | a in ids && b in ids
      ensures Render(a) == Render(b) ==> a == b
    {
      SameIsSame(t, a, b);
    }
  }

  lemma SameIsSame(t: Topology, a: Id, b: Id)
    requires SharedAreUnminted(t) && (a.Shared? ==> IsOut(a, t, 0)) && (b.Shared? ==> IsOut(b, t, 0))
    ensures Render(a) == Render(b) ==> a == b
  {
    hide Words, IsOut;
    if Render(a) == Render(b) {
      if !a.Shared? && !b.Shared? {
        RenderIsInjective(a, b);
      } else if a.Shared? && !b.Shared? {
        SharedIsApart(t, a, b);
      } else if b.Shared? && !a.Shared? {
        SharedIsApart(t, b, a);
      }
    }
  }

  lemma SharedIsApart(t: Topology, a: Id, b: Id)
    requires SharedAreUnminted(t) && a.Shared? && IsOut(a, t, 0) && !b.Shared?
    ensures Render(a) != Render(b)
  {
    var out, s :| out in t.outbound && s in out.children && s.shared == Some(a.name);
  }

  /** Whatever is expanded, no two cards have the same id. */
  lemma EachCardOnce(t: Topology, expanded: set<string>)
    requires SharedAreUnminted(t)
    ensures DistinctIds(BuiltGraph(t, expanded).nodes)
  {
    hide Render, Steps, Exec, NoRepeat, Cover, Apart;
    StepsDoNotRepeat(t, expanded);
    IdsAreApart(t, Cover(Steps(t, expanded)));
    NodesAreDistinct(Steps(t, expanded));
  }

  // ---- Edges ----

  /** Both ends of the links of `ss` are among `ids`. */
  predicate LinksWithin(ss: seq<Step>, ids: set<Id>) {
    forall s | s in ss && s.Link? :: s.source in ids && s.target in ids
  }

  /** A queue edge is one to a backend behind the worker, and the only kind there is to one. */
  predicate QueueOnly(ss: seq<Step>, t: Topology) {
    forall s | s in ss && s.Link? ::
      s.sqs == (s.target.BackendRow? && s.target.i < |t.backends| && t.backends[s.target.i].viaWorker)
  }

  lemma {:induction false} AnchorIs(outs: seq<Out>, handle: string, i: nat)
    requires i <= |outs|
    ensures var a := Anchor(outs, handle, i); a == Agent || (a.OutRow? && a.i < |outs|)
    decreases |outs| - i
  {
    if i < |outs| {
      AnchorIs(outs, handle, i + 1);
    }
  }

  lemma {:induction false} InLinks(t: Topology, n: nat)
    requires n <= |t.inbound|
    ensures LinksWithin(InSteps(t, n), Cover(InSteps(t, n)) + {Agent}) && QueueOnly(InSteps(t, n), t)
  {
    if n > 0 {
      InLinks(t, n - 1);
      var two := [Push(InRow(n - 1), t.inbound[n - 1]), Link(InRow(n - 1), Agent, false)];
      TwoLinks(InSteps(t, n - 1), two, {Agent}, t);
    }
  }

  /** A card and its edge, after steps whose links have their ends. */
  lemma TwoLinks(a: seq<Step>, two: seq<Step>, more: set<Id>, t: Topology)
    requires |two| == 2 && !two[0].Link? && two[1].Link?
    requires LinksWithin(a, Cover(a) + more) && QueueOnly(a, t)
    requires two[1].source in Cover(a) + more + {two[0].id} && two[1].target in Cover(a) + more + {two[0].id}
    requires two[1].sqs == (two[1].target.BackendRow? && two[1].target.i < |t.backends| &&
             t.backends[two[1].target.i].viaWorker)
    ensures LinksWithin(a + two, Cover(a + two) + more) && QueueOnly(a + two, t)
    ensures Cover(a + two) == Cover(a) + {two[0].id}
  {
    NoRepeatOnce(two[0], two[1]);
    assert two == [two[0], two[1]];
    CoverTwice(a, two);
    assert forall s | s in a + two :: s in a || s == two[0] || s == two[1];
  }

  lemma {:induction false} StoreLinks(t: Topology, out: Out, i: nat, n: nat)
    requires n <= |out.children|
    ensures LinksWithin(StoreSteps(out, i, n), Cover(StoreSteps(out, i, n)) + {OutRow(i)}) &&
            QueueOnly(StoreSteps(out, i, n), t)
  {
    if n > 0 {
      StoreLinks(t, out, i, n - 1);
      var s := out.children[n - 1];
      var id := StoreId(i, n - 1, s);
      TwoLinks(StoreSteps(out, i, n - 1), [Hold(id, s.title), Link(OutRow(i), id, false)], {OutRow(i)}, t);
    }
  }

  lemma {:induction false} ToolLinks(t: Topology, c: Capability, i: nat, n: nat)
    requires n <= |c.tools|
    ensures LinksWithin(ToolSteps(c, i, n), Cover(ToolSteps(c, i, n)) + {CapRow(i)}) && QueueOnly(ToolSteps(c, i, n), t)
  {
    if n > 0 {
      ToolLinks(t, c, i, n - 1);
      TwoLinks(ToolSteps(c, i, n - 1),
               [Push(ToolOf(i, n - 1), c.tools[n - 1]), Link(CapRow(i), ToolOf(i, n - 1), false)], {CapRow(i)}, t);
    }
  }

  lemma LinksTogether(a: seq<Step>, b: seq<Step>, more: set<Id>, extra: set<Id>, t: Topology)
    requires LinksWithin(a, Cover(a) + more) && QueueOnly(a, t)
    requires LinksWithin(b, Cover(b) + extra) && QueueOnly(b, t) && extra <= Cover(a) + more
    ensures LinksWithin(a + b, Cover(a + b) + more) && QueueOnly(a + b, t)
  {
    CoverTwice(a, b);
  }

  lemma {:induction false} OutLinks(t: Topology, expanded: set<string>, n: nat)
    requires n <= |t.outbound|
    ensures var ss := OutSteps(t, expanded, n);
            && LinksWithin(ss, Cover(ss) + {Agent}) && QueueOnly(ss, t)
            && forall i: nat | i < n :: OutRow(i) in Cover(ss)
  {
    hide Render, StoreSteps, Cover, LinksWithin, QueueOnly;
    if n == 0 {
      NoLinks(t);
    } else {
      var i, out := n - 1, t.outbound[n - 1];
      OutLinks(t, expanded, i);
      var a := OutSteps(t, expanded, i);
      var two := [Push(OutRow(i), out.title), Link(Agent, OutRow(i), false)];
      TwoLinks(a, two, {Agent}, t);
      NoLinks(t);
      StoreLinks(t, out, i, |out.children|);
      var stores := if Render(OutRow(i)) in expanded then StoreSteps(out, i, |out.children|) else [];
      CoverTwice(a + two, stores);
      if Render(OutRow(i)) in expanded {
        LinksTogether(a + two, stores, {Agent}, {OutRow(i)}, t);
      } else {
        assert a + two + stores == a + two;
      }
    }
  }

  lemma NoLinks(t: Topology)
    ensures LinksWithin([], Cover([]) + {Agent}) && QueueOnly([], t)
  {
  }

  lemma {:induction false} BackendLinks(t: Topology, n: nat)
    requires n <= |t.backends|
    ensures var ss := BackendSteps(t, n);
            && LinksWithin(ss, Cover(ss) + ({Agent} + {Anchor(t.outbound, "llm-worker", 0)})) && QueueOnly(ss, t)
            && forall i: nat | i < n :: BackendRow(i) in Cover(ss)
  {
    hide Anchor, LinksWithin, Cover, QueueOnly;
    var worker := Anchor(t.outbound, "llm-worker", 0);
    if n == 0 {
      NoLinksAt(t, {Agent} + {worker});
    } else {
      BackendLinks(t, n - 1);
      var b := t.backends[n - 1];
      var two := [Push(BackendRow(n - 1), b.name),
          Link(if b.viaWorker then worker else Agent, BackendRow(n - 1), b.viaWorker)];
      TwoLinks(BackendSteps(t, n - 1), two, {Agent} + {worker}, t);
    }
  }

  lemma {:induction false} CapLinks(t: Topology, expanded: set<string>, n: nat)
    requires n <= |t.capabilities|
    ensures var ss := CapSteps(t, expanded, n);
            LinksWithin(ss, Cover(ss) + ({Agent} + {Anchor(t.outbound, "devops-mcp-server", 0)})) && QueueOnly(ss, t)
  {
    hide Render, ToolSteps, Anchor, Cover, LinksWithin, QueueOnly;
    var server := Anchor(t.outbound, "devops-mcp-server", 0);
    if n == 0 {
      NoLinksAt(t, {Agent} + {server});
    } else {
      var i, c := n - 1, t.capabilities[n - 1];
      CapLinks(t, expanded, i);
      var a := CapSteps(t, expanded, i);
      var two := [Push(CapRow(i), c.name), Link(server, CapRow(i), false)];
      TwoLinks(a, two, {Agent} + {server}, t);
      ToolLinks(t, c, i, |c.tools|);
      var tools := if Render(CapRow(i)) in expanded then ToolSteps(c, i, |c.tools|) else [];
      if Render(CapRow(i)) in expanded {
        LinksTogether(a + two, tools, {Agent} + {server}, {CapRow(i)}, t);
      } else {
        assert a + two + tools == a + two;
      }
    }
  }

  lemma NoLinksAt(t: Topology, more: set<Id>)
    ensures LinksWithin([], Cover([]) + more) && QueueOnly([], t)
  {
  }

  lemma StepsLink(t: Topology, expanded: set<string>)
    ensures var ss := Steps(t, expanded); LinksWithin(ss, Cover(ss)) && QueueOnly(ss, t)
  {
    hide LinksWithin, Cover, QueueOnly, Anchor, InSteps, OutSteps, BackendSteps, CapSteps, Render;
    var first := [Push(Agent, "devops-ai-agent")];
    var a, b := InSteps(t, |t.inbound|), OutSteps(t, expanded, |t.outbound|);
    var c, d := BackendSteps(t, |t.backends|), CapSteps(t, expanded, |t.capabilities|);
    OnePush(Agent, "devops-ai-agent");
    FirstLinks(t);
    InLinks(t, |t.inbound|);
    LinksTogether(first, a, {}, {Agent}, t);
    CoverTwice(first, a);
    OutLinks(t, expanded, |t.outbound|);
    LinksTogether(first + a, b, {}, {Agent}, t);
    CoverTwice(first + a, b);
    AnchorIs(t.outbound, "llm-worker", 0);
    AnchorIs(t.outbound, "devops-mcp-server", 0);
    BackendLinks(t, |t.backends|);
    LinksTogether(first + a + b, c, {}, {Agent} + {Anchor(t.outbound, "llm-worker", 0)}, t);
    CoverTwice(first + a + b, c);
    CapLinks(t, expanded, |t.capabilities|);
    LinksTogether(first + a + b + c, d, {}, {Agent} + {Anchor(t.outbound, "devops-mcp-server", 0)}, t);
    assert Cover(first + a + b + c + d) + {} == Cover(first + a + b + c + d);
  }

  lemma FirstLinks(t: Topology)
    ensures var first := [Push(Agent, "devops-ai-agent")]; LinksWithin(first, Cover(first) + {}) && QueueOnly(first, t)
  {
  }

  /** Both ends of every edge are cards of the map. */
  lemma EdgesJoinCards(t: Topology, expanded: set<string>, e: Edge)
    requires e in BuiltGraph(t, expanded).edges
    ensures var ids := IdSet(BuiltGraph(t, expanded).nodes); e.source in ids && e.target in ids
  {
    hide Render, Steps, Exec, Cover;
    var ss := Steps(t, expanded);
    StepsLink(t, expanded);
    NodesAreCovered(ss);
    EdgesAreLinks(ss, e);
  }

  /** An edge goes over the queue if and only if it leads to a backend behind the worker. */
  lemma QueueEdgesIff(t: Topology, expanded: set<string>, e: Edge)
    requires SharedAreUnminted(t) && e in BuiltGraph(t, expanded).edges
    ensures e.sqs <==> exists i: nat :: i < |t.backends| && t.backends[i].viaWorker && e.target == Render(BackendRow(i))
  {
    hide Render, Steps, Exec, Cover, NoRepeat;
    var ss := Steps(t, expanded);
    StepsLink(t, expanded);
    StepsDoNotRepeat(t, expanded);
    EdgesAreLinks(ss, e);
    var s :| s in ss && s.Link? && e == Edge(Render(s.source), Render(s.target), s.sqs);
    if i: nat :| i < |t.backends| && t.backends[i].viaWorker && e.target == Render(BackendRow(i)) {
      IdsAreApart(t, Cover(ss));
      TargetIs(t, s.target, BackendRow(i), Cover(ss));
    }
  }

  lemma TargetIs(t: Topology, a: Id, b: Id, ids: set<Id>)
    requires SharedAreUnminted(t) && a in ids && !b.Shared? && Render(a) == Render(b)
    requires forall id | id in ids && id.Shared? :: IsOut(id, t, 0)
    ensures a == b
  {
    if !a.Shared? {
      RenderIsInjective(a, b);
    } else {
      SharedIsApart(t, a, b);
    }
  }

  // ---- Expanding ----

  predicate Within(a: seq<Step>, b: seq<Step>) { forall s | s in a :: s in b }

  lemma WithinTwice(a: seq<Step>, b: seq<Step>, c: seq<Step>, d: seq<Step>)
    requires Within(a, c) && Within(b, d)
    ensures Within(a + b, c + d)
  {
  }

  lemma {:induction false} OutGrows(t: Topology, small: set<string>, large: set<string>, n: nat)
    requires n <= |t.outbound| && small <= large
    ensures Within(OutSteps(t, small, n), OutSteps(t, large, n))
  {
    hide Render, StoreSteps, Within;
    if n == 0 {
      NothingWithin([]);
    } else {
      var i, out := n - 1, t.outbound[n - 1];
      OutGrows(t, small, large, i);
      var two := [Push(OutRow(i), out.title), Link(Agent, OutRow(i), false)];
      WithinItself(two);
      WithinTwice(OutSteps(t, small, i), two, OutSteps(t, large, i), two);
      WithinItself(StoreSteps(out, i, |out.children|));
      NothingWithin(StoreSteps(out, i, |out.children|));
      NothingWithin([]);
      WithinTwice(OutSteps(t, small, i) + two,
                  if Render(OutRow(i)) in small then StoreSteps(out, i, |out.children|) else [],
                  OutSteps(t, large, i) + two,
                  if Render(OutRow(i)) in large then StoreSteps(out, i, |out.children|) else []);
    }
  }

  lemma WithinItself(a: seq<Step>)
    ensures Within(a, a)
  {
  }

  lemma NothingWithin(a: seq<Step>)
    ensures Within([], a)
  {
  }

  lemma {:induction false} CapGrows(t: Topology, small: set<string>, large: set<string>, n: nat)
    requires n <= |t.capabilities| && small <= large
    ensures Within(CapSteps(t, small, n), CapSteps(t, large, n))
  {
    hide Render, ToolSteps, Within, Anchor;
    if n == 0 {
      NothingWithin([]);
    } else {
      var i, c := n - 1, t.capabilities[n - 1];
      CapGrows(t, small, large, i);
      var two := [Push(CapRow(i), c.name), Link(Anchor(t.outbound, "devops-mcp-server", 0), CapRow(i), false)];
      WithinItself(two);
      WithinTwice(CapSteps(t, small, i), two, CapSteps(t, large, i), two);
      WithinItself(ToolSteps(c, i, |c.tools|));
      NothingWithin(ToolSteps(c, i, |c.tools|));
      NothingWithin([]);
      WithinTwice(CapSteps(t, small, i) + two,
                  if Render(CapRow(i)) in small then ToolSteps(c, i, |c.tools|) else [],
                  CapSteps(t, large, i) + two,
                  if Render(CapRow(i)) in large then ToolSteps(c, i, |c.tools|) else []);
    }
  }

  lemma StepsGrow(t: Topology, small: set<string>, large: set<string>)
    requires small <= large
    ensures Within(Steps(t, small), Steps(t, large))
  {
    hide Within, InSteps, OutSteps, BackendSteps, CapSteps;
    var first := [Push(Agent, "devops-ai-agent")] + InSteps(t, |t.inbound|);
    OutGrows(t, small, large, |t.outbound|);
    CapGrows(t, small, large, |t.capabilities|);
    WithinItself(first);
    WithinItself(BackendSteps(t, |t.backends|));
    var a, b := OutSteps(t, small, |t.outbound|), OutSteps(t, large, |t.outbound|);
    var c := BackendSteps(t, |t.backends|);
    WithinTwice(first, a, first, b);
    WithinTwice(first + a, c, first + b, c);
    WithinTwice(first + a + c, CapSteps(t, small, |t.capabilities|),
        first + b + c, CapSteps(t, large, |t.capabilities|));
  }

  /** Expanding more only adds cards and edges. */
  lemma ExpandingOnlyAdds(t: Topology, small: set<string>, large: set<string>)
    requires small <= large
    ensures var g, h := BuiltGraph(t, small), BuiltGraph(t, large);
            IdSet(g.nodes) <= IdSet(h.nodes) && forall e | e in g.edges :: e in h.edges
  {
    hide Render, Steps, Exec;
    StepsGrow(t, small, large);
    NodesAreCovered(Steps(t, small));
    NodesAreCovered(Steps(t, large));
    forall e | e in BuiltGraph(t, small).edges
      ensures e in BuiltGraph(t, large).edges
    {
      EdgesAreLinks(Steps(t, small), e);
      EdgesAreLinks(Steps(t, large), e);
    }
  }
}
