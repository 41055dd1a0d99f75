/** What is on the cluster map, said of the inventory: every node and edge of the open namespaces, and the flow. */
module ClusterMapContents {
  import opened Text
  import opened ClusterGraph

  // ---- What an open namespace has ----

  predicate ManagesEdge(ns: string, w: Workload, e: Edge) {
    e == Edge(Manages, OwnerId(ns, w.managedBy), WlId(ns, w.name))
  }

  predicate IsWorkloadOrOwner(ns: string, w: Workload, id: Id) {
    id == WlId(ns, w.name) || id == OwnerId(ns, w.managedBy)
  }

  /** A service routes to those it serves that the namespace has. */
  predicate ServesEdge(n: Namespace, service: string, serves: seq<string>, e: Edge) {
    exists x: string :: x in serves && HasWorkload(n, x) && e == Edge(Routes, SvcId(n.name, service), WlId(n.name, x))
  }

  /** A host routes to its service if the namespace has it. */
  predicate RoutesFrom(n: Namespace, bs: seq<Backend>, e: Edge) {
    exists b: Backend :: b in bs && HasService(n, b.service)
                         && e == Edge(Routes, HostId(n.name, b.host), SvcId(n.name, b.service))
  }

  predicate IsHostOf(n: Namespace, bs: seq<Backend>, id: Id) {
    exists b: Backend :: b in bs && HasService(n, b.service) && id == HostId(n.name, b.host)
  }

  predicate IsContentEdge(n: Namespace, e: Edge) {
    || (exists w: Workload :: w in n.workloads && ManagesEdge(n.name, w, e))
    || (exists s: Service :: s in n.services && ServesEdge(n, s.name, s.serves, e))
    || (exists bs: seq<Backend> :: bs in n.ingresses && RoutesFrom(n, bs, e))
  }

  predicate IsContent(n: Namespace, id: Id) {
    || (exists w: Workload :: w in n.workloads && IsWorkloadOrOwner(n.name, w, id))
    || (exists s: Service :: s in n.services && id == SvcId(n.name, s.name))
    || (exists bs: seq<Backend> :: bs in n.ingresses && IsHostOf(n, bs, id))
  }

  /** A card for every namespace that is shown; in an open one, its contents. */
  predicate IsOnMap(ns: seq<Namespace>, expanded: set<Id>, showSystem: bool, id: Id) {
    exists n: Namespace :: n in ns && IsShown(n, showSystem)
                           && (id == NsId(n.name) || (NsId(n.name) in expanded && IsContent(n, id)))
  }

  predicate IsMapEdge(ns: seq<Namespace>, expanded: set<Id>, showSystem: bool, e: Edge) {
    exists n: Namespace :: n in ns && IsShown(n, showSystem) && NsId(n.name) in expanded && IsContentEdge(n, e)
  }

  // ---- Part by part ----

  lemma WorkloadIs(g: Graph, ns: string, w: Workload, x: Id, e: Edge)
    ensures var r := WithWorkload(g, ns, w);
            && (x in r.nodes <==> x in g.nodes || IsWorkloadOrOwner(ns, w, x))
            && (e in r.edges <==> e in g.edges || ManagesEdge(ns, w, e))
  {
  }

  lemma {:induction false} WorkloadsAre(g: Graph, ns: string, ws: seq<Workload>, x: Id, e: Edge)
    ensures var r := WithWorkloads(g, ns, ws);
            && (x in r.nodes <==> x in g.nodes || exists w: Workload :: w in ws && IsWorkloadOrOwner(ns, w, x))
            && (e in r.edges <==> e in g.edges || exists w: Workload :: w in ws && ManagesEdge(ns, w, e))
    decreases |ws|
  {
    hide WithWorkload, IsWorkloadOrOwner, ManagesEdge;
    if ws != [] {
      WorkloadIs(g, ns, ws[0], x, e);
      WorkloadsAre(WithWorkload(g, ns, ws[0]), ns, ws[1..], x, e);
      assert ws == [ws[0]] + ws[1..];
    }
  }

  lemma {:induction false} ServesAre(g: Graph, n: Namespace, service: string, serves: seq<string>, e: Edge)
    ensures var r := WithServes(g, n, service, serves);
            r.nodes == g.nodes && (e in r.edges <==> e in g.edges || ServesEdge(n, service, serves, e))
    decreases |serves|
  {
    hide HasWorkload;
    if serves != [] {
      var next := if HasWorkload(n, serves[0])
                  then WithEdge(g, Routes, SvcId(n.name, service), WlId(n.name, serves[0])) else g;
      ServesAre(next, n, service, serves[1..], e);
      assert serves == [serves[0]] + serves[1..];
    }
  }

  lemma {:induction false} ServicesAre(g: Graph, n: Namespace, ss: seq<Service>, x: Id, e: Edge)
    ensures var r := WithServices(g, n, ss);
            && (x in r.nodes <==> x in g.nodes || exists s: Service :: s in ss && x == SvcId(n.name, s.name))
            && (e in r.edges <==> e in g.edges || exists s: Service :: s in ss && ServesEdge(n, s.name, s.serves, e))
    decreases |ss|
  {
    hide WithServes, ServesEdge;
    if ss != [] {
      var next := WithNode(g, SvcId(n.name, ss[0].name), Data(ServiceNode, n.name));
      ServesAre(next, n, ss[0].name, ss[0].serves, e);
      ServicesAre(WithServes(next, n, ss[0].name, ss[0].serves), n, ss[1..], x, e);
      assert ss == [ss[0]] + ss[1..];
    }
  }

  lemma {:induction false} BackendsAre(g: Graph, n: Namespace, bs: seq<Backend>, x: Id, e: Edge)
    ensures var r := WithBackends(g, n, bs);
            && (x in r.nodes <==> x in g.nodes || IsHostOf(n, bs, x))
            && (e in r.edges <==> e in g.edges || RoutesFrom(n, bs, e))
    decreases |bs|
  {
    hide HasService;
    if bs != [] {
      var host, svc := HostId(n.name, bs[0].host), SvcId(n.name, bs[0].service);
      var next := if HasService(n, bs[0].service)
                  then WithEdge(WithNode(g, host, Data(HostNode, n.name)), Routes, host, svc) else g;
      BackendsAre(next, n, bs[1..], x, e);
      assert bs == [bs[0]] + bs[1..];
    }
  }

  lemma {:induction false} IngressesAre(g: Graph, n: Namespace, ins: seq<seq<Backend>>, x: Id, e: Edge)
    ensures var r := WithIngresses(g, n, ins);
            && (x in r.nodes <==> x in g.nodes || exists bs: seq<Backend> :: bs in ins && IsHostOf(n, bs, x))
            && (e in r.edges <==> e in g.edges || exists bs: seq<Backend> :: bs in ins && RoutesFrom(n, bs, e))
    decreases |ins|
  {
    hide WithBackends, IsHostOf, RoutesFrom;
    if ins != [] {
      BackendsAre(g, n, ins[0], x, e);
      IngressesAre(WithBackends(g, n, ins[0]), n, ins[1..], x, e);
      assert ins == [ins[0]] + ins[1..];
    }
  }

  lemma NamespaceIs(g: Graph, n: Namespace, expanded: set<Id>, x: Id, e: Edge)
    ensures var r, open := WithNamespace(g, n, expanded), NsId(n.name) in expanded;
            && (x in r.nodes <==> x in g.nodes || x == NsId(n.name) || (open && IsContent(n, x)))
            && (e in r.edges <==> e in g.edges || (open && IsContentEdge(n, e)))
  {
    hide WithWorkloads, WithServices, WithIngresses, IsWorkloadOrOwner, ManagesEdge, ServesEdge, RoutesFrom, IsHostOf;
    var g1 := WithCard(g, n);
    var g2 := WithWorkloads(g1, n.name, n.workloads);
    WorkloadsAre(g1, n.name, n.workloads, x, e);
    ServicesAre(g2, n, n.services, x, e);
    IngressesAre(WithServices(g2, n, n.services), n, n.ingresses, x, e);
  }

  lemma {:induction false} NamespacesAre(g: Graph, ns: seq<Namespace>, expanded: set<Id>, showSystem: bool, x: Id,
      e: Edge)
    ensures var r := WithNamespaces(g, ns, expanded, showSystem);
            && (x in r.nodes <==> x in g.nodes || IsOnMap(ns, expanded, showSystem, x))
            && (e in r.edges <==> e in g.edges || IsMapEdge(ns, expanded, showSystem, e))
    decreases |ns|
  {
    hide WithNamespace, IsContent, IsContentEdge, IsShown;
    if ns != [] {
      var n := ns[0];
      NamespaceIs(g, n, expanded, x, e);
      NamespacesAre(if IsShown(n, showSystem) then WithNamespace(g, n, expanded) else g, ns[1..], expanded, showSystem,
          x, e);
      assert ns == [n] + ns[1..];
    }
  }

  /** Before the flow is drawn, the map's nodes and edges are exactly those of the namespaces that are shown. */
  lemma InventoryIff(ns: seq<Namespace>, expanded: set<Id>, showSystem: bool, x: Id, e: Edge)
    ensures var g := Inventory(ns, expanded, showSystem);
            && (x in g.nodes <==> IsOnMap(ns, expanded, showSystem, x))
            && (e in g.edges <==> IsMapEdge(ns, expanded, showSystem, e))
  {
    hide WithNamespaces, IsOnMap, IsMapEdge;
    NamespacesAre(NOTHING, ns, expanded, showSystem, x, e);
  }

  // ---- The flow ----

  lemma {:induction false} FlowIsModel(g: Graph, m: Model, es: seq<ModelEdge>, expanded: set<Id>, showTelemetry: bool,
      e: Edge)
    requires e in WithModelEdges(g, m, es, expanded, showTelemetry).edges && e !in g.edges
    ensures exists f :: f in es && !IsSkipped(f, showTelemetry) && e == Edge(f.kind, f.from, f.to)
    decreases |es|
  {
    hide IsSkipped, Starts, FindNode;
    if es != [] {
      var next := WithModelEdge(g, m, es[0], expanded, showTelemetry);
      assert es == [es[0]] + es[1..];
      if e in next.edges {
        assert es[0] in es;
      } else {
        FlowIsModel(next, m, es[1..], expanded, showTelemetry, e);
      }
    }
  }

  /** What is drawn stays, with its data. */
  predicate Keeps(g: Graph, h: Graph) {
    g.edges <= h.edges && forall id | id in g.nodes :: id in h.nodes && h.nodes[id] == g.nodes[id]
  }

  lemma OneKeeps(g: Graph, m: Model, f: ModelEdge, expanded: set<Id>, showTelemetry: bool)
    ensures Keeps(g, WithModelEdge(g, m, f, expanded, showTelemetry))
  {
    hide IsSkipped, Starts, FindNode;
  }

  /** A target that may be drawn: one on the map, or any node of the model but a host. */
  predicate MayEnd(g: Graph, m: Model, to: Id) {
    to in g.nodes || (FindNode(m.nodes, to).Some? && !FindNode(m.nodes, to).value.kind.HostNode?)
  }

  lemma {:induction false} FlowIsDrawn(g: Graph, m: Model, es: seq<ModelEdge>, expanded: set<Id>, showTelemetry: bool,
      f: ModelEdge)
    requires f in es && !IsSkipped(f, showTelemetry) && Starts(g, f.from, expanded) && MayEnd(g, m, f.to)
    ensures Edge(f.kind, f.from, f.to) in WithModelEdges(g, m, es, expanded, showTelemetry).edges
    decreases |es|
  {
    hide IsSkipped, FindNode;
    var next := WithModelEdge(g, m, es[0], expanded, showTelemetry);
    assert es == [es[0]] + es[1..];
    OneKeeps(g, m, es[0], expanded, showTelemetry);
    if f == es[0] {
      EdgesKeep(next, m, es[1..], expanded, showTelemetry);
    } else {
      FlowIsDrawn(next, m, es[1..], expanded, showTelemetry, f);
    }
  }

  lemma {:induction false} EdgesKeep(g: Graph, m: Model, es: seq<ModelEdge>, expanded: set<Id>, showTelemetry: bool)
    ensures g.edges <= WithModelEdges(g, m, es, expanded, showTelemetry).edges
    decreases |es|
  {
    hide WithModelEdge;
    if es != [] {
      OneKeeps(g, m, es[0], expanded, showTelemetry);
      EdgesKeep(WithModelEdge(g, m, es[0], expanded, showTelemetry), m, es[1..], expanded, showTelemetry);
    }
  }

  /**
   * Every edge of the map is one of the inventory's or a relation of the model that is not left out; and every
   * such relation is drawn that starts at a workload of an open namespace and ends on the map or at a node of
   * the model that is no host.
   */
  lemma FlowIs(ns: seq<Namespace>, expanded: set<Id>, showSystem: bool, m: Model, showTelemetry: bool)
    ensures var g := BuiltGraph(ns, expanded, showSystem, m, showTelemetry);
            && (forall e | e in g.edges ::
                  || IsMapEdge(ns, expanded, showSystem, e)
                  || exists f :: f in m.edges && !IsSkipped(f, showTelemetry) && e == Edge(f.kind, f.from, f.to))
            && (forall e | IsMapEdge(ns, expanded, showSystem, e) :: e in g.edges)
            && (forall f | f in m.edges && !IsSkipped(f, showTelemetry)
                           && Starts(Inventory(ns, expanded, showSystem), f.from, expanded)
                           && MayEnd(Inventory(ns, expanded, showSystem), m, f.to) ::
                  Edge(f.kind, f.from, f.to) in g.edges)
  {
    hide IsSkipped, Starts, MayEnd, Inventory, IsMapEdge, IsOnMap, WithModelEdges;
    var g := Inventory(ns, expanded, showSystem);
    var built := BuiltGraph(ns, expanded, showSystem, m, showTelemetry);
    EdgesKeep(g, m, m.edges, expanded, showTelemetry);
    forall e
      ensures e in g.edges <==> IsMapEdge(ns, expanded, showSystem, e)
    {
      InventoryIff(ns, expanded, showSystem, NsId(""), e);
    }
    forall e | e in built.edges && e !in g.edges
      ensures exists f :: f in m.edges && !IsSkipped(f, showTelemetry) && e == Edge(f.kind, f.from, f.to)
    {
      FlowIsModel(g, m, m.edges, expanded, showTelemetry, e);
    }
    forall f | f in m.edges && !IsSkipped(f, showTelemetry) && Starts(g, f.from, expanded) && MayEnd(g, m, f.to)
      ensures Edge(f.kind, f.from, f.to) in built.edges
    {
      FlowIsDrawn(g, m, m.edges, expanded, showTelemetry, f);
    }
  }
}
