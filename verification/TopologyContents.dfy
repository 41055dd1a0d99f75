/** What is on the topology map, said by position: every card, and what each edge joins. */
module TopologyContents {
  import opened Text
  import opened TopologyGraph
  import opened TopologyProperties

  // ---- The table ----

  /** The first dependency that has the handle; the agent when none has. */
  predicate IsAnchor(outs: seq<Out>, handle: string, id: Id) {
    match id
    case OutRow(n) =>
      n < |outs| && outs[n].handle == Some(handle) && forall m | 0 <= m < n :: outs[m].handle != Some(handle)
    case Agent => forall m | 0 <= m < |outs| :: outs[m].handle != Some(handle)
    case _ => false
  }

  predicate InboundAt(t: Topology, i: nat, s: Step)
    requires i < |t.inbound|
  {
    s == Push(InRow(i), t.inbound[i]) || s == Link(InRow(i), Agent, false)
  }

  predicate StoreAt(out: Out, i: nat, j: nat, s: Step)
    requires j < |out.children|
  {
    var id := StoreId(i, j, out.children[j]);
    s == Hold(id, out.children[j].title) || s == Link(OutRow(i), id, false)
  }

  predicate OutboundAt(t: Topology, expanded: set<string>, i: nat, s: Step)
    requires i < |t.outbound|
  {
    var out := t.outbound[i];
    || s == Push(OutRow(i), out.title) || s == Link(Agent, OutRow(i), false)
    || (Render(OutRow(i)) in expanded && exists j: nat :: j < |out.children| && StoreAt(out, i, j, s))
  }

  predicate BackendAt(t: Topology, i: nat, s: Step)
    requires i < |t.backends|
  {
    var b := t.backends[i];
    || s == Push(BackendRow(i), b.name)
    || (s.Link? && s.target == BackendRow(i) && s.sqs == b.viaWorker
        && if b.viaWorker then IsAnchor(t.outbound, "llm-worker", s.source) else s.source == Agent)
  }

  predicate ToolAt(c: Capability, i: nat, j: nat, s: Step)
    requires j < |c.tools|
  {
    s == Push(ToolOf(i, j), c.tools[j]) || s == Link(CapRow(i), ToolOf(i, j), false)
  }

  predicate CapabilityAt(t: Topology, expanded: set<string>, i: nat, s: Step)
    requires i < |t.capabilities|
  {
    var c := t.capabilities[i];
    || s == Push(CapRow(i), c.name)
    || (s.Link? && s.target == CapRow(i) && !s.sqs && IsAnchor(t.outbound, "devops-mcp-server", s.source))
    || (Render(CapRow(i)) in expanded && exists j: nat :: j < |c.tools| && ToolAt(c, i, j, s))
  }

  /** A card or an edge of the map. */
  predicate IsDrawn(t: Topology, expanded: set<string>, s: Step) {
    || s == Push(Agent, "devops-ai-agent")
    || (exists i: nat :: i < |t.inbound| && InboundAt(t, i, s))
    || (exists i: nat :: i < |t.outbound| && OutboundAt(t, expanded, i, s))
    || (exists i: nat :: i < |t.backends| && BackendAt(t, i, s))
    || (exists i: nat :: i < |t.capabilities| && CapabilityAt(t, expanded, i, s))
  }

  // ---- Part by part ----

  lemma {:induction false} AnchorIff(outs: seq<Out>, handle: string, i: nat, id: Id)
    requires i <= |outs| && forall m | 0 <= m < i :: outs[m].handle != Some(handle)
    ensures Anchor(outs, handle, i) == id <==> IsAnchor(outs, handle, id)
    decreases |outs| - i
  {
    if i < |outs| && outs[i].handle != Some(handle) {
      AnchorIff(outs, handle, i + 1, id);
    }
  }

  lemma {:induction false} InboundIff(t: Topology, n: nat, s: Step)
    requires n <= |t.inbound|
    ensures s in InSteps(t, n) <==> exists i: nat :: i < n && InboundAt(t, i, s)
  {
    if n > 0 {
      InboundIff(t, n - 1, s);
      assert InboundAt(t, n - 1, s) <==> s in [Push(InRow(n - 1), t.inbound[n - 1]), Link(InRow(n - 1), Agent, false)];
    }
  }

  lemma {:induction false} StoresIff(out: Out, i: nat, n: nat, s: Step)
    requires n <= |out.children|
    ensures s in StoreSteps(out, i, n) <==> exists j: nat :: j < n && StoreAt(out, i, j, s)
  {
    hide StoreId;
    if n > 0 {
      StoresIff(out, i, n - 1, s);
      var c := out.children[n - 1];
      assert StoreAt(out, i, n - 1, s) <==>
             s in [Hold(StoreId(i, n - 1, c), c.title), Link(OutRow(i), StoreId(i, n - 1, c), false)];
    }
  }

  lemma {:induction false} OutboundIff(t: Topology, expanded: set<string>, n: nat, s: Step)
    requires n <= |t.outbound|
    ensures s in OutSteps(t, expanded, n) <==> exists i: nat :: i < n && OutboundAt(t, expanded, i, s)
  {
    hide StoreSteps, Render, StoreAt;
    if n > 0 {
      var i, out := n - 1, t.outbound[n - 1];
      OutboundIff(t, expanded, i, s);
      StoresIff(out, i, |out.children|, s);
      var stores := if Render(OutRow(i)) in expanded then StoreSteps(out, i, |out.children|) else [];
      assert OutboundAt(t, expanded, i, s) <==>
             s in [Push(OutRow(i), out.title), Link(Agent, OutRow(i), false)] || s in stores;
    }
  }

  lemma {:induction false} BackendsIff(t: Topology, n: nat, s: Step)
    requires n <= |t.backends|
    ensures s in BackendSteps(t, n) <==> exists i: nat :: i < n && BackendAt(t, i, s)
  {
    hide Anchor, IsAnchor;
    if n > 0 {
      var i, b := n - 1, t.backends[n - 1];
      BackendsIff(t, i, s);
      if s.Link? {
        AnchorIff(t.outbound, "llm-worker", 0, s.source);
      }
      assert BackendAt(t, i, s) <==>
             s in [Push(BackendRow(i), b.name),
                   Link(if b.viaWorker then Anchor(t.outbound, "llm-worker", 0) else Agent, BackendRow(i),
                       b.viaWorker)];
    }
  }

  lemma {:induction false} ToolsIff(c: Capability, i: nat, n: nat, s: Step)
    requires n <= |c.tools|
    ensures s in ToolSteps(c, i, n) <==> exists j: nat :: j < n && ToolAt(c, i, j, s)
  {
    if n > 0 {
      ToolsIff(c, i, n - 1, s);
      assert ToolAt(c, i, n - 1, s) <==>
             s in [Push(ToolOf(i, n - 1), c.tools[n - 1]), Link(CapRow(i), ToolOf(i, n - 1), false)];
    }
  }

  lemma {:induction false} CapabilitiesIff(t: Topology, expanded: set<string>, n: nat, s: Step)
    requires n <= |t.capabilities|
    ensures s in CapSteps(t, expanded, n) <==> exists i: nat :: i < n && CapabilityAt(t, expanded, i, s)
  {
    hide ToolSteps, Render, ToolAt, Anchor, IsAnchor;
    if n > 0 {
      var i, c := n - 1, t.capabilities[n - 1];
      CapabilitiesIff(t, expanded, i, s);
      ToolsIff(c, i, |c.tools|, s);
      if s.Link? {
        AnchorIff(t.outbound, "devops-mcp-server", 0, s.source);
      }
      var tools := if Render(CapRow(i)) in expanded then ToolSteps(c, i, |c.tools|) else [];
      assert CapabilityAt(t, expanded, i, s) <==>
             s in [Push(CapRow(i), c.name), Link(Anchor(t.outbound, "devops-mcp-server", 0), CapRow(i), false)]
             || s in tools;
    }
  }

  lemma StepsAreDrawn(t: Topology, expanded: set<string>, s: Step)
    ensures s in Steps(t, expanded) <==> IsDrawn(t, expanded, s)
  {
    hide InSteps, OutSteps, BackendSteps, CapSteps, InboundAt, OutboundAt, BackendAt, CapabilityAt;
    InboundIff(t, |t.inbound|, s);
    OutboundIff(t, expanded, |t.outbound|, s);
    BackendsIff(t, |t.backends|, s);
    CapabilitiesIff(t, expanded, |t.capabilities|, s);
  }

  // ---- The map ----

  /** The edges of the map are those of the table. */
  lemma EdgesIff(t: Topology, expanded: set<string>, e: Edge)
    ensures e in BuiltGraph(t, expanded).edges <==>
            exists from: Id, to: Id ::
              IsDrawn(t, expanded, Link(from, to, e.sqs)) && e == Edge(Render(from), Render(to), e.sqs)
  {
    hide Steps, Exec, Render, IsDrawn;
    var ss := Steps(t, expanded);
    EdgesAreLinks(ss, e);
    if e in BuiltGraph(t, expanded).edges {
      var s :| s in ss && s.Link? && e == Edge(Render(s.source), Render(s.target), s.sqs);
      StepsAreDrawn(t, expanded, s);
      assert IsDrawn(t, expanded, Link(s.source, s.target, e.sqs));
    }
    if from: Id, to: Id :| IsDrawn(t, expanded, Link(from, to, e.sqs)) && e == Edge(Render(from), Render(to), e.sqs) {
      StepsAreDrawn(t, expanded, Link(from, to, e.sqs));
    }
  }

  /** Some node has the card's id, and that of a card which is no store has its title. */
  predicate IsShown(ns: seq<Node>, s: Step)
    requires !s.Link?
  {
    if s.Push? then Node(Render(s.id), s.title) in ns else Render(s.id) in IdSet(ns)
  }

  lemma {:induction false} CardsAreShown(ss: seq<Step>, s: Step)
    requires s in ss && !s.Link?
    ensures IsShown(Exec(ss).nodes, s)
  {
    hide Render;
    var n := |ss| - 1;
    var front, last := ss[..n], ss[n];
    assert ss == front + [last];
    NodesAreCovered(front);
    if s in front {
      CardsAreShown(front, s);
    }
  }

  lemma {:induction false} NodesAreCards(ss: seq<Step>, n: Node)
    requires n in Exec(ss).nodes
    ensures exists s :: s in ss && !s.Link? && n == Node(Render(s.id), s.title)
  {
    hide Render;
    if ss != [] {
      var k := |ss| - 1;
      var front, last := ss[..k], ss[k];
      assert ss == front + [last];
      if n in Exec(front).nodes {
        NodesAreCards(front, n);
      } else {
        assert !last.Link? && n == Node(Render(last.id), last.title) && last in ss;
      }
    }
  }

  /** The cards of the map are those of the table: each node is one, and each one has its node. */
  lemma CardsIff(t: Topology, expanded: set<string>)
    ensures var ns := BuiltGraph(t, expanded).nodes;
            && (forall s | IsDrawn(t, expanded, s) && !s.Link? :: IsShown(ns, s))
            && (forall n | n in ns ::
                  exists s :: IsDrawn(t, expanded, s) && !s.Link? && n == Node(Render(s.id), s.title))
  {
    hide Steps, Exec, Render, IsDrawn, IsShown;
    var ss := Steps(t, expanded);
    var ns := BuiltGraph(t, expanded).nodes;
    forall s | IsDrawn(t, expanded, s) && !s.Link?
      ensures IsShown(ns, s)
    {
      StepsAreDrawn(t, expanded, s);
      CardsAreShown(ss, s);
    }
    forall n | n in ns
      ensures exists s :: IsDrawn(t, expanded, s) && !s.Link? && n == Node(Render(s.id), s.title)
    {
      NodesAreCards(ss, n);
      var s :| s in ss && !s.Link? && n == Node(Render(s.id), s.title);
      StepsAreDrawn(t, expanded, s);
    }
  }
}
