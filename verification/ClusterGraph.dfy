/** The cluster map: namespaces, what is in the open ones, and the relations between them. */
module ClusterGraph {
  import opened Text

  // ---- What it is built from ----

  datatype Owner = HelmRelease(ns: string, name: string) | Kustomization(ns: string, name: string) | Helm | Unmanaged

  datatype Id =
    | NsId(ns: string) | WlId(ns: string, name: string) | SvcId(ns: string, name: string)
    | HostId(ns: string, host: string) | OwnerId(ns: string, owner: Owner) | Other(text: string)

  datatype Workload = Workload(name: string, managedBy: Owner)

  datatype Service = Service(name: string, serves: seq<string>)

  datatype Backend = Backend(host: string, service: string)

  datatype Namespace = Namespace(
    name: string, system: bool, workloads: seq<Workload>, services: seq<Service>, ingresses: seq<seq<Backend>>)

  datatype Kind = Card | WorkloadNode | OwnerNode | ServiceNode | HostNode

  datatype EdgeKind = Routes | Manages | Calls | Depends

  /** A node of the cluster model. */
  datatype ModelNode = ModelNode(id: Id, kind: Kind)

  datatype ModelEdge = ModelEdge(from: Id, to: Id, kind: EdgeKind, telemetry: bool)

  datatype Model = Model(nodes: seq<ModelNode>, edges: seq<ModelEdge>)

  // ---- What is built ----

  datatype Data = Data(kind: Kind, ns: string)

  datatype Edge = Edge(kind: EdgeKind, source: Id, target: Id)

  datatype Graph = Graph(nodes: map<Id, Data>, edges: set<Edge>)

  /** The first of several nodes with one id is kept. */
  function WithNode(g: Graph, id: Id, data: Data): Graph {
    if id in g.nodes then g else g.(nodes := g.nodes[id := data])
  }

  function WithEdge(g: Graph, kind: EdgeKind, source: Id, target: Id): Graph {
    g.(edges := g.edges + {Edge(kind, source, target)})
  }

  // ---- One namespace ----

  function WithWorkload(g: Graph, ns: string, w: Workload): Graph {
    var wl, owner := WlId(ns, w.name), OwnerId(ns, w.managedBy);
    WithEdge(WithNode(WithNode(g, wl, Data(WorkloadNode, ns)), owner, Data(OwnerNode, ns)), Manages, owner, wl)
  }

  function WithWorkloads(g: Graph, ns: string, ws: seq<Workload>): Graph
    decreases |ws|
  {
    if ws == [] then g else WithWorkloads(WithWorkload(g, ns, ws[0]), ns, ws[1..])
  }

  predicate HasWorkload(n: Namespace, name: string) { exists w :: w in n.workloads && w.name == name }

  predicate HasService(n: Namespace, name: string) { exists s :: s in n.services && s.name == name }

  function WithServes(g: Graph, n: Namespace, service: string, serves: seq<string>): Graph
    decreases |serves|
  {
    if serves == [] then g
    else
      var next := if HasWorkload(n, serves[0])
                  then WithEdge(g, Routes, SvcId(n.name, service), WlId(n.name, serves[0])) else g;
      WithServes(next, n, service, serves[1..])
  }

  function WithServices(g: Graph, n: Namespace, ss: seq<Service>): Graph
    decreases |ss|
  {
    if ss == [] then g
    else
      var next := WithNode(g, SvcId(n.name, ss[0].name), Data(ServiceNode, n.name));
      WithServices(WithServes(next, n, ss[0].name, ss[0].serves), n, ss[1..])
  }

  function WithBackends(g: Graph, n: Namespace, bs: seq<Backend>): Graph
    decreases |bs|
  {
    if bs == [] then g
    else
      var host, svc := HostId(n.name, bs[0].host), SvcId(n.name, bs[0].service);
      var next := if HasService(n, bs[0].service)
                  then WithEdge(WithNode(g, host, Data(HostNode, n.name)), Routes, host, svc) else g;
      WithBackends(next, n, bs[1..])
  }

  function WithIngresses(g: Graph, n: Namespace, ins: seq<seq<Backend>>): Graph
    decreases |ins|
  {
    if ins == [] then g else WithIngresses(WithBackends(g, n, ins[0]), n, ins[1..])
  }

  function WithContents(g: Graph, n: Namespace): Graph {
    WithIngresses(WithServices(WithWorkloads(g, n.name, n.workloads), n, n.services), n, n.ingresses)
  }

  /** A namespace's card is put there anew. */
  function WithCard(g: Graph, n: Namespace): Graph {
    g.(nodes := g.nodes[NsId(n.name) := Data(Card, n.name)])
  }

  function WithNamespace(g: Graph, n: Namespace, expanded: set<Id>): Graph {
    if NsId(n.name) in expanded then WithContents(WithCard(g, n), n) else WithCard(g, n)
  }

  predicate IsShown(n: Namespace, showSystem: bool) { showSystem || !n.system }

  function WithNamespaces(g: Graph, ns: seq<Namespace>, expanded: set<Id>, showSystem: bool): Graph
    decreases |ns|
  {
    if ns == [] then g
    else WithNamespaces(
      if IsShown(ns[0], showSystem) then WithNamespace(g, ns[0], expanded) else g, ns[1..], expanded, showSystem)
  }

  // ---- The model's flow ----

  function FindNode(nodes: seq<ModelNode>, id: Id): Option<ModelNode> {
    if nodes == [] then None else if nodes[0].id == id then Some(nodes[0]) else FindNode(nodes[1..], id)
  }

  /** Whether an edge may start at this node: a workload in an open namespace. */
  predicate Starts(g: Graph, from: Id, expanded: set<Id>) {
    from in g.nodes && g.nodes[from].kind.WorkloadNode? && NsId(g.nodes[from].ns) in expanded
  }

  predicate IsSkipped(e: ModelEdge, showTelemetry: bool) { e.kind.Routes? || (e.telemetry && !showTelemetry) }

  /** A target that is not on the map gets a node beside the edge's start, unless it is a host or unknown. */
  function WithModelEdge(g: Graph, m: Model, e: ModelEdge, expanded: set<Id>, showTelemetry: bool): Graph {
    if IsSkipped(e, showTelemetry) || !Starts(g, e.from, expanded) then g
    else if e.to in g.nodes then WithEdge(g, e.kind, e.from, e.to)
    else
      var t := FindNode(m.nodes, e.to);
      if t.None? || t.value.kind.HostNode? then g
      else
        var kind := if t.value.kind.WorkloadNode? then WorkloadNode else ServiceNode;
        WithEdge(WithNode(g, e.to, Data(kind, g.nodes[e.from].ns)), e.kind, e.from, e.to)
  }

  function WithModelEdges(g: Graph, m: Model, es: seq<ModelEdge>, expanded: set<Id>, showTelemetry: bool): Graph
    decreases |es|
  {
    if es == [] then g
    else WithModelEdges(WithModelEdge(g, m, es[0], expanded, showTelemetry), m, es[1..], expanded, showTelemetry)
  }

  const NOTHING := Graph(map[], {})

  function Inventory(ns: seq<Namespace>, expanded: set<Id>, showSystem: bool): Graph {
    WithNamespaces(NOTHING, ns, expanded, showSystem)
  }

  function BuiltGraph(ns: seq<Namespace>, expanded: set<Id>, showSystem: bool, m: Model, showTelemetry: bool): Graph {
    WithModelEdges(Inventory(ns, expanded, showSystem), m, m.edges, expanded, showTelemetry)
  }

  // ---- The code ----

  method FillNamespace(g0: Graph, n: Namespace) returns (g: Graph)
    ensures g == WithContents(g0, n)
  {
    hide WithWorkload, WithServes, WithBackends;
    g := g0;
    for k := 0 to |n.workloads|
      invariant WithWorkloads(g, n.name, n.workloads[k..]) == WithWorkloads(g0, n.name, n.workloads)
    {
      assert n.workloads[k..][1..] == n.workloads[k + 1..];
      g := WithWorkload(g, n.name, n.workloads[k]);
    }
    ghost var g1 := g;
    for k := 0 to |n.services|
      invariant WithServices(g, n, n.services[k..]) == WithServices(g1, n, n.services)
    {
      assert n.services[k..][1..] == n.services[k + 1..];
      var s := n.services[k];
      g := WithNode(g, SvcId(n.name, s.name), Data(ServiceNode, n.name));
      g := FillServes(g, n, s);
    }
    ghost var g2 := g;
    for k := 0 to |n.ingresses|
      invariant WithIngresses(g, n, n.ingresses[k..]) == WithIngresses(g2, n, n.ingresses)
    {
      assert n.ingresses[k..][1..] == n.ingresses[k + 1..];
      g := FillBackends(g, n, n.ingresses[k]);
    }
  }

  method FillServes(g0: Graph, n: Namespace, s: Service) returns (g: Graph)
    ensures g == WithServes(g0, n, s.name, s.serves)
  {
    g := g0;
    for k := 0 to |s.serves|
      invariant WithServes(g, n, s.name, s.serves[k..]) == WithServes(g0, n, s.name, s.serves)
    {
      assert s.serves[k..][1..] == s.serves[k + 1..];
      if HasWorkload(n, s.serves[k]) {
        g := WithEdge(g, Routes, SvcId(n.name, s.name), WlId(n.name, s.serves[k]));
      }
    }
  }

  method FillBackends(g0: Graph, n: Namespace, bs: seq<Backend>) returns (g: Graph)
    ensures g == WithBackends(g0, n, bs)
  {
    g := g0;
    for k := 0 to |bs|
      invariant WithBackends(g, n, bs[k..]) == WithBackends(g0, n, bs)
    {
      assert bs[k..][1..] == bs[k + 1..];
      if HasService(n, bs[k].service) {
        var host := HostId(n.name, bs[k].host);
        g := WithNode(g, host, Data(HostNode, n.name));
        g := WithEdge(g, Routes, host, SvcId(n.name, bs[k].service));
      }
    }
  }

  method BuildClusterGraph(ns: seq<Namespace>, expanded: set<Id>, showSystem: bool, m: Model, showTelemetry: bool)
    returns (g: Graph)
    ensures g == BuiltGraph(ns, expanded, showSystem, m, showTelemetry)
  {
    hide WithContents, WithModelEdge;
    g := Graph(map[], {});
    for k := 0 to |ns|
      invariant WithNamespaces(g, ns[k..], expanded, showSystem) == Inventory(ns, expanded, showSystem)
    {
      assert ns[k..][1..] == ns[k + 1..];
      var n := ns[k];
      if IsShown(n, showSystem) {
        g := WithCard(g, n);
        if NsId(n.name) in expanded {
          g := FillNamespace(g, n);
        }
      }
    }
    for k := 0 to |m.edges|
      invariant WithModelEdges(g, m, m.edges[k..], expanded, showTelemetry)
             == BuiltGraph(ns, expanded, showSystem, m, showTelemetry)
    {
      assert m.edges[k..][1..] == m.edges[k + 1..];
      g := WithModelEdge(g, m, m.edges[k], expanded, showTelemetry);
    }
  }
}
