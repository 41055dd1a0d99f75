/** The topology map: which cards there are, and which edges join them. */
module TopologyGraph {
  import opened Text
  import opened Decimal

  // ---- Ids ----

  /** Where a card's id comes from. All but the shared ones are minted from positions. */
  datatype Id =
    | Agent | InRow(i: nat) | OutRow(i: nat) | BackendRow(i: nat) | CapRow(i: nat)
    | ToolOf(i: nat, j: nat) | StoreOf(i: nat, j: nat) | Shared(name: string)

  function Words(id: Id): (ws: seq<string>)
    requires !id.Shared?
    ensures ws != []
  {
    match id
    case Agent => ["agent"]
    case InRow(i) => ["in", Digits(i)]
    case OutRow(i) => ["out", Digits(i)]
    case BackendRow(i) => ["backend", Digits(i)]
    case CapRow(i) => ["cap", Digits(i)]
    case ToolOf(i, j) => ["tool", Digits(i), Digits(j)]
    case StoreOf(i, j) => ["store", "out", Digits(i), Digits(j)]
  }

  function Render(id: Id): string { if id.Shared? then id.name else Join(Words(id), '-') }

  // ---- The topology ----

  datatype Store = Store(title: string, shared: Option<string>)

  datatype Out = Out(title: string, handle: Option<string>, children: seq<Store>)

  datatype Backend = Backend(name: string, viaWorker: bool)

  datatype Capability = Capability(name: string, tools: seq<string>)

  datatype Topology = Topology(inbound: seq<string>, outbound: seq<Out>, backends: seq<Backend>,
      capabilities: seq<Capability>)

  // ---- The graph ----

  datatype Node = Node(id: string, title: string)

  /** `sqs`: the edge goes over the queue. */
  datatype Edge = Edge(source: string, target: string, sqs: bool)

  datatype Graph = Graph(nodes: seq<Node>, edges: seq<Edge>, seen: set<string>)

  /** `Hold` is a push of a card that may be there already. */
  datatype Step = Push(id: Id, title: string) | Hold(id: Id, title: string) | Link(source: Id, target: Id, sqs: bool)

  function Pushed(g: Graph, id: string, title: string): Graph {
    g.(nodes := g.nodes + [Node(id, title)], seen := g.seen + {id})
  }

  function Do(g: Graph, s: Step): Graph {
    match s
    case Push(id, title) => Pushed(g, Render(id), title)
    case Hold(id, title) => if Render(id) in g.seen then g else Pushed(g, Render(id), title)
    case Link(source, target, sqs) => g.(edges := g.edges + [Edge(Render(source), Render(target), sqs)])
  }

  function Exec(ss: seq<Step>): Graph {
    if ss == [] then Graph([], [], {}) else Do(Exec(ss[..|ss| - 1]), ss[|ss| - 1])
  }

  // ---- The steps, part by part, for the first `n` items ----

  function InSteps(t: Topology, n: nat): seq<Step>
    requires n <= |t.inbound|
  {
    if n == 0 then []
    else InSteps(t, n - 1) + [Push(InRow(n - 1), t.inbound[n - 1]), Link(InRow(n - 1), Agent, false)]
  }

  function StoreId(i: nat, j: nat, s: Store): Id { if s.shared.Some? then Shared(s.shared.value) else StoreOf(i, j) }

  function StoreSteps(out: Out, i: nat, n: nat): seq<Step>
    requires n <= |out.children|
  {
    if n == 0 then []
    else
      var s := out.children[n - 1];
      StoreSteps(out, i, n - 1) + [Hold(StoreId(i, n - 1, s), s.title), Link(OutRow(i), StoreId(i, n - 1, s), false)]
  }

  function OutSteps(t: Topology, expanded: set<string>, n: nat): seq<Step>
    requires n <= |t.outbound|
  {
    if n == 0 then []
    else
      var i, out := n - 1, t.outbound[n - 1];
      OutSteps(t, expanded, i) + [Push(OutRow(i), out.title), Link(Agent, OutRow(i), false)]
      + if Render(OutRow(i)) in expanded then StoreSteps(out, i, |out.children|) else []
  }

  /** The first dependency with the handle, or the agent. */
  function Anchor(outs: seq<Out>, handle: string, i: nat): Id
    requires i <= |outs|
    decreases |outs| - i
  {
    if i == |outs| then Agent
    else if outs[i].handle == Some(handle) then OutRow(i)
    else Anchor(outs, handle, i + 1)
  }

  function BackendSteps(t: Topology, n: nat): seq<Step>
    requires n <= |t.backends|
  {
    if n == 0 then []
    else
      var i, b := n - 1, t.backends[n - 1];
      BackendSteps(t, i)
      + [Push(BackendRow(i), b.name),
         Link(if b.viaWorker then Anchor(t.outbound, "llm-worker", 0) else Agent, BackendRow(i), b.viaWorker)]
  }

  function ToolSteps(c: Capability, i: nat, n: nat): seq<Step>
    requires n <= |c.tools|
  {
    if n == 0 then []
    else ToolSteps(c, i, n - 1) + [Push(ToolOf(i, n - 1), c.tools[n - 1]), Link(CapRow(i), ToolOf(i, n - 1), false)]
  }

  function CapSteps(t: Topology, expanded: set<string>, n: nat): seq<Step>
    requires n <= |t.capabilities|
  {
    if n == 0 then []
    else
      var i, c := n - 1, t.capabilities[n - 1];
      CapSteps(t, expanded, i)
      + [Push(CapRow(i), c.name), Link(Anchor(t.outbound, "devops-mcp-server", 0), CapRow(i), false)]
      + if Render(CapRow(i)) in expanded then ToolSteps(c, i, |c.tools|) else []
  }

  function Steps(t: Topology, expanded: set<string>): seq<Step> {
    [Push(Agent, "devops-ai-agent")] + InSteps(t, |t.inbound|) + OutSteps(t, expanded, |t.outbound|)
    + BackendSteps(t, |t.backends|) + CapSteps(t, expanded, |t.capabilities|)
  }

  function BuiltGraph(t: Topology, expanded: set<string>): Graph { Exec(Steps(t, expanded)) }

  // ---- The code ----

  lemma ExecStep(ss: seq<Step>, s: Step)
    ensures Exec(ss + [s]) == Do(Exec(ss), s)
  {
    hide Do;
    assert (ss + [s])[..|ss|] == ss;
  }

  class Builder {
    var nodes: seq<Node>
    var edges: seq<Edge>
    var seen: set<string>
    /** What has been done so far. */
    ghost var done: seq<Step>

    constructor ()
      ensures Valid() && done == []
    {
      nodes, edges, seen, done := [], [], {}, [];
    }

    ghost predicate Valid()
      reads this
    {
      Graph(nodes, edges, seen) == Exec(done)
    }

    method PushNode(id: Id, title: string)
      requires Valid()
      modifies this
      ensures Valid() && done == old(done) + [Push(id, title)]
    {
      hide Render, Exec;
      ExecStep(done, Push(id, title));
      nodes := nodes + [Node(Render(id), title)];
      seen := seen + {Render(id)};
      done := done + [Push(id, title)];
    }

    method HoldNode(id: Id, title: string)
      requires Valid()
      modifies this
      ensures Valid() && done == old(done) + [Hold(id, title)]
    {
      hide Render, Exec;
      ExecStep(done, Hold(id, title));
      if Render(id) !in seen {
        nodes := nodes + [Node(Render(id), title)];
        seen := seen + {Render(id)};
      }
      done := done + [Hold(id, title)];
    }

    method AddEdge(source: Id, target: Id, sqs: bool)
      requires Valid()
      modifies this
      ensures Valid() && done == old(done) + [Link(source, target, sqs)]
    {
      hide Render, Exec;
      ExecStep(done, Link(source, target, sqs));
      edges := edges + [Edge(Render(source), Render(target), sqs)];
      done := done + [Link(source, target, sqs)];
    }
  }

  method AddStores(b: Builder, out: Out, i: nat)
    requires b.Valid()
    modifies b
    ensures b.Valid() && b.done == old(b.done) + StoreSteps(out, i, |out.children|)
  {
    hide Render, Exec;
    ghost var before := b.done;
    for j := 0 to |out.children|
      invariant b.Valid() && b.done == before + StoreSteps(out, i, j)
    {
      var s := out.children[j];
      var id := StoreId(i, j, s);
      b.HoldNode(id, s.title);
      b.AddEdge(OutRow(i), id, false);
    }
  }

  method AddTools(b: Builder, c: Capability, i: nat)
    requires b.Valid()
    modifies b
    ensures b.Valid() && b.done == old(b.done) + ToolSteps(c, i, |c.tools|)
  {
    hide Render, Exec;
    ghost var before := b.done;
    for j := 0 to |c.tools|
      invariant b.Valid() && b.done == before + ToolSteps(c, i, j)
    {
      b.PushNode(ToolOf(i, j), c.tools[j]);
      b.AddEdge(CapRow(i), ToolOf(i, j), false);
    }
  }

  method AddInbound(b: Builder, t: Topology)
    requires b.Valid()
    modifies b
    ensures b.Valid() && b.done == old(b.done) + InSteps(t, |t.inbound|)
  {
    hide Render, Exec;
    ghost var before := b.done;
    for i := 0 to |t.inbound|
      invariant b.Valid() && b.done == before + InSteps(t, i)
    {
      b.PushNode(InRow(i), t.inbound[i]);
      b.AddEdge(InRow(i), Agent, false);
    }
  }

  method AddOutbound(b: Builder, t: Topology, expanded: set<string>)
    requires b.Valid()
    modifies b
    ensures b.Valid() && b.done == old(b.done) + OutSteps(t, expanded, |t.outbound|)
  {
    hide Render, Exec, StoreSteps;
    ghost var before := b.done;
    for i := 0 to |t.outbound|
      invariant b.Valid() && b.done == before + OutSteps(t, expanded, i)
    {
      var out := t.outbound[i];
      b.PushNode(OutRow(i), out.title);
      b.AddEdge(Agent, OutRow(i), false);
      if Render(OutRow(i)) in expanded {
        AddStores(b, out, i);
      }
    }
  }

  method AddBackends(b: Builder, t: Topology)
    requires b.Valid()
    modifies b
    ensures b.Valid() && b.done == old(b.done) + BackendSteps(t, |t.backends|)
  {
    hide Render, Exec, Anchor;
    ghost var before := b.done;
    var worker := Anchor(t.outbound, "llm-worker", 0);
    for i := 0 to |t.backends|
      invariant b.Valid() && b.done == before + BackendSteps(t, i)
    {
      var backend := t.backends[i];
      b.PushNode(BackendRow(i), backend.name);
      b.AddEdge(if backend.viaWorker then worker else Agent, BackendRow(i), backend.viaWorker);
    }
  }

  method AddCapabilities(b: Builder, t: Topology, expanded: set<string>)
    requires b.Valid()
    modifies b
    ensures b.Valid() && b.done == old(b.done) + CapSteps(t, expanded, |t.capabilities|)
  {
    hide Render, Exec, Anchor, ToolSteps;
    ghost var before := b.done;
    var server := Anchor(t.outbound, "devops-mcp-server", 0);
    for i := 0 to |t.capabilities|
      invariant b.Valid() && b.done == before + CapSteps(t, expanded, i)
    {
      var c := t.capabilities[i];
      b.PushNode(CapRow(i), c.name);
      b.AddEdge(server, CapRow(i), false);
      if Render(CapRow(i)) in expanded {
        AddTools(b, c, i);
      }
    }
  }

  method BuildGraph(t: Topology, expanded: set<string>) returns (nodes: seq<Node>, edges: seq<Edge>)
    ensures nodes == BuiltGraph(t, expanded).nodes && edges == BuiltGraph(t, expanded).edges
  {
    hide Exec, InSteps, OutSteps, BackendSteps, CapSteps;
    var b := new Builder();
    b.PushNode(Agent, "devops-ai-agent");
    AddInbound(b, t);
    AddOutbound(b, t, expanded);
    AddBackends(b, t);
    AddCapabilities(b, t, expanded);
    assert b.done == Steps(t, expanded);
    nodes, edges := b.nodes, b.edges;
  }

  // ---- Minted ids ----

  lemma WordsHaveNoDash(id: Id)
    requires !id.Shared?
    ensures forall w | w in Words(id) :: '-' !in w
  {
    hide Digits;
    match id
    case Agent =>
    case InRow(i) => DigitsAreDigits(i);
    case OutRow(i) => DigitsAreDigits(i);
    case BackendRow(i) => DigitsAreDigits(i);
    case CapRow(i) => DigitsAreDigits(i);
    case ToolOf(i, j) =>
      DigitsAreDigits(i);
      DigitsAreDigits(j);
    case StoreOf(i, j) =>
      DigitsAreDigits(i);
      DigitsAreDigits(j);
  }

  function Kind(id: Id): nat {
    match id
    case Agent => 0
    case InRow(_) => 1
    case OutRow(_) => 2
    case BackendRow(_) => 3
    case CapRow(_) => 4
    case ToolOf(_, _) => 5
    case StoreOf(_, _) => 6
    case Shared(_) => 7
  }

  lemma FirstWord(id: Id)
    requires !id.Shared?
    ensures |Words(id)[0]| > 0
    ensures Words(id)[0] == ["agent", "in", "out", "backend", "cap", "tool", "store"][Kind(id)]
  {
    hide Digits;
  }

  lemma FirstWordsDiffer(a: nat, b: nat)
    requires a < 7 && b < 7
    ensures var ws := ["agent", "in", "out", "backend", "cap", "tool", "store"]; ws[a] == ws[b] ==> a == b
  {
    assert |"agent"| == 5 && |"in"| == 2 && |"out"| == 3 && |"backend"| == 7 && |"cap"| == 3 && |"tool"| == 4 &&
        |"store"| == 5;
    assert "agent"[0] != "store"[0] && "out"[0] != "cap"[0];
  }

  /** A minted id is minted from one position only. */
  lemma RenderIsInjective(a: Id, b: Id)
    requires !a.Shared? && !b.Shared? && Render(a) == Render(b)
    ensures a == b
  {
    hide Digits, Number, Join, Split;
    WordsHaveNoDash(a);
    WordsHaveNoDash(b);
    SplitOfJoin(Words(a), '-');
    SplitOfJoin(Words(b), '-');
    FirstWord(a);
    FirstWord(b);
    FirstWordsDiffer(Kind(a), Kind(b));
    SameWords(a, b);
  }

  lemma SameWords(a: Id, b: Id)
    requires !a.Shared? && !b.Shared? && Kind(a) == Kind(b) && Words(a) == Words(b)
    ensures a == b
  {
    hide Digits, Number;
    match a
    case Agent =>
    case InRow(i) => SameDigits(i, b.i, Words(a)[1], Words(b)[1]);
    case OutRow(i) => SameDigits(i, b.i, Words(a)[1], Words(b)[1]);
    case BackendRow(i) => SameDigits(i, b.i, Words(a)[1], Words(b)[1]);
    case CapRow(i) => SameDigits(i, b.i, Words(a)[1], Words(b)[1]);
    case ToolOf(i, j) =>
      SameDigits(i, b.i, Words(a)[1], Words(b)[1]);
      SameDigits(j, b.j, Words(a)[2], Words(b)[2]);
    case StoreOf(i, j) =>
      SameDigits(i, b.i, Words(a)[2], Words(b)[2]);
      SameDigits(j, b.j, Words(a)[3], Words(b)[3]);
  }

  lemma SameDigits(i: nat, j: nat, a: string, b: string)
    requires a == Digits(i) && b == Digits(j) && a == b
    ensures i == j
  {
    hide Digits, Number;
    NumberOfDigits(i);
    NumberOfDigits(j);
  }
}
