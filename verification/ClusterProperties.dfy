/** The cluster map joins only nodes it has, shows only open namespaces, and grows with what is expanded. */
module ClusterProperties {
  import opened ClusterGraph

  predicate Closed(g: Graph) { forall e | e in g.edges :: e.source in g.nodes && e.target in g.nodes }

  /** Everything but a card is in one of the open namespaces. */
  predicate InOpen(g: Graph, open: set<string>) {
    forall id | id in g.nodes && !g.nodes[id].kind.Card? :: g.nodes[id].ns in open
  }

  /** What an id of the inventory stands for. */
  function KindOf(id: Id): Kind {
    match id
    case NsId(_) => Card
    case WlId(_, _) => WorkloadNode
    case SvcId(_, _) => ServiceNode
    case HostId(_, _) => HostNode
    case OwnerId(_, _) => OwnerNode
    case Other(_) => ServiceNode
  }

  predicate KindsFit(g: Graph) { forall id | id in g.nodes :: g.nodes[id].kind == KindOf(id) }

  predicate Ok(g: Graph, open: set<string>) { Closed(g) && InOpen(g, open) && KindsFit(g) }

  /** The nodes, by id, and the edges of `g` are in `h`. */
  predicate Grows(g: Graph, h: Graph) { g.nodes.Keys <= h.nodes.Keys && g.edges <= h.edges }

  function OpenNames(ns: seq<Namespace>, expanded: set<Id>, showSystem: bool): set<string> {
    set n | n in ns && IsShown(n, showSystem) && NsId(n.name) in expanded :: n.name
  }

  // ---- The inventory's nodes ----

  lemma NodeOk(g: Graph, id: Id, data: Data, open: set<string>)
    requires Ok(g, open) && data.kind == KindOf(id) && data.ns in open
    ensures var h := WithNode(g, id, data); Ok(h, open) && Grows(g, h) && id in h.nodes
  {
  }

  lemma EdgeOk(g: Graph, kind: EdgeKind, source: Id, target: Id, open: set<string>)
    requires Ok(g, open) && source in g.nodes && target in g.nodes
    ensures var h := WithEdge(g, kind, source, target); Ok(h, open) && Grows(g, h) && h.nodes == g.nodes
  {
  }

  lemma WorkloadOk(g: Graph, ns: string, w: Workload, open: set<string>)
    requires Ok(g, open) && ns in open
    ensures var h := WithWorkload(g, ns, w); Ok(h, open) && Grows(g, h) && WlId(ns, w.name) in h.nodes
  {
    hide Ok, WithNode, WithEdge;
    var wl, owner := WlId(ns, w.name), OwnerId(ns, w.managedBy);
    NodeOk(g, wl, Data(WorkloadNode, ns), open);
    var g1 := WithNode(g, wl, Data(WorkloadNode, ns));
    NodeOk(g1, owner, Data(OwnerNode, ns), open);
    EdgeOk(WithNode(g1, owner, Data(OwnerNode, ns)), Manages, owner, wl, open);
  }

  lemma {:induction false} WorkloadsOk(g: Graph, ns: string, ws: seq<Workload>, open: set<string>)
    requires Ok(g, open) && ns in open
    ensures var h := WithWorkloads(g, ns, ws);
            Ok(h, open) && Grows(g, h) && forall w | w in ws :: WlId(ns, w.name) in h.nodes
    decreases |ws|
  {
    hide Ok, WithWorkload;
    if ws != [] {
      WorkloadOk(g, ns, ws[0], open);
      WorkloadsOk(WithWorkload(g, ns, ws[0]), ns, ws[1..], open);
      assert ws == [ws[0]] + ws[1..];
    }
  }

  predicate HasWorkloads(g: Graph, n: Namespace) { forall w | w in n.workloads :: WlId(n.name, w.name) in g.nodes }

  predicate HasServices(g: Graph, n: Namespace) { forall s | s in n.services :: SvcId(n.name, s.name) in g.nodes }

  lemma {:induction false} ServesOk(g: Graph, n: Namespace, service: string, serves: seq<string>, open: set<string>)
    requires Ok(g, open) && HasWorkloads(g, n) && SvcId(n.name, service) in g.nodes
    ensures var h := WithServes(g, n, service, serves); Ok(h, open) && Grows(g, h) && h.nodes == g.nodes
    decreases |serves|
  {
    hide Ok, WithEdge;
    if serves != [] {
      if HasWorkload(n, serves[0]) {
        EdgeOk(g, Routes, SvcId(n.name, service), WlId(n.name, serves[0]), open);
        ServesOk(WithEdge(g, Routes, SvcId(n.name, service), WlId(n.name, serves[0])), n, service, serves[1..], open);
      } else {
        ServesOk(g, n, service, serves[1..], open);
      }
    }
  }

  lemma {:induction false} ServicesOk(g: Graph, n: Namespace, ss: seq<Service>, open: set<string>)
    requires Ok(g, open) && n.name in open && HasWorkloads(g, n)
    ensures var h := WithServices(g, n, ss);
            Ok(h, open) && Grows(g, h) && forall s | s in ss :: SvcId(n.name, s.name) in h.nodes
    decreases |ss|
  {
    hide Ok, WithNode, WithServes;
    if ss != [] {
      var id := SvcId(n.name, ss[0].name);
      NodeOk(g, id, Data(ServiceNode, n.name), open);
      var g1 := WithNode(g, id, Data(ServiceNode, n.name));
      ServesOk(g1, n, ss[0].name, ss[0].serves, open);
      ServicesOk(WithServes(g1, n, ss[0].name, ss[0].serves), n, ss[1..], open);
      assert ss == [ss[0]] + ss[1..];
    }
  }

  lemma {:induction false} BackendsOk(g: Graph, n: Namespace, bs: seq<Backend>, open: set<string>)
    requires Ok(g, open) && n.name in open && HasServices(g, n)
    ensures var h := WithBackends(g, n, bs); Ok(h, open) && Grows(g, h) && HasServices(h, n)
    decreases |bs|
  {
    hide Ok, WithNode, WithEdge;
    if bs != [] {
      var host, svc := HostId(n.name, bs[0].host), SvcId(n.name, bs[0].service);
      if HasService(n, bs[0].service) {
        NodeOk(g, host, Data(HostNode, n.name), open);
        var g1 := WithNode(g, host, Data(HostNode, n.name));
        EdgeOk(g1, Routes, host, svc, open);
        BackendsOk(WithEdge(g1, Routes, host, svc), n, bs[1..], open);
      } else {
        BackendsOk(g, n, bs[1..], open);
      }
    }
  }

  lemma {:induction false} IngressesOk(g: Graph, n: Namespace, ins: seq<seq<Backend>>, open: set<string>)
    requires Ok(g, open) && n.name in open && HasServices(g, n)
    ensures var h := WithIngresses(g, n, ins); Ok(h, open) && Grows(g, h)
    decreases |ins|
  {
    hide Ok, WithBackends, HasServices;
    if ins != [] {
      BackendsOk(g, n, ins[0], open);
      IngressesOk(WithBackends(g, n, ins[0]), n, ins[1..], open);
    }
  }

  lemma ContentsOk(g: Graph, n: Namespace, open: set<string>)
    requires Ok(g, open) && n.name in open
    ensures var h := WithContents(g, n); Ok(h, open) && Grows(g, h)
  {
    hide Ok, WithWorkloads, WithServices, WithIngresses;
    var g1 := WithWorkloads(g, n.name, n.workloads);
    WorkloadsOk(g, n.name, n.workloads, open);
    var g2 := WithServices(g1, n, n.services);
    ServicesOk(g1, n, n.services, open);
    IngressesOk(g2, n, n.ingresses, open);
  }

  lemma CardOk(g: Graph, n: Namespace, open: set<string>)
    requires Ok(g, open)
    ensures var h := WithCard(g, n); Ok(h, open) && Grows(g, h) && NsId(n.name) in h.nodes
  {
  }

  lemma {:induction false} NamespacesOk(g: Graph, ns: seq<Namespace>, expanded: set<Id>, showSystem: bool,
      open: set<string>)
    requires Ok(g, open) && OpenNames(ns, expanded, showSystem) <= open
    ensures var h := WithNamespaces(g, ns, expanded, showSystem);
            Ok(h, open) && Grows(g, h) && forall n | n in ns && IsShown(n, showSystem) :: NsId(n.name) in h.nodes
    decreases |ns|
  {
    hide Ok, WithContents, WithCard;
    if ns != [] {
      var n := ns[0];
      assert ns == [n] + ns[1..];
      assert OpenNames(ns[1..], expanded, showSystem) <= OpenNames(ns, expanded, showSystem);
      if IsShown(n, showSystem) {
        CardOk(g, n, open);
        if NsId(n.name) in expanded {
          assert n.name in OpenNames(ns, expanded, showSystem);
          ContentsOk(WithCard(g, n), n, open);
        }
        NamespacesOk(WithNamespace(g, n, expanded), ns[1..], expanded, showSystem, open);
      } else {
        NamespacesOk(g, ns[1..], expanded, showSystem, open);
      }
    }
  }

  lemma NothingIsOk(open: set<string>)
    ensures Ok(NOTHING, open)
  {
  }

  // ---- The model's nodes ----

  lemma ModelEdgeOk(g: Graph, m: Model, e: ModelEdge, expanded: set<Id>, showTelemetry: bool, open: set<string>)
    requires Closed(g) && InOpen(g, open)
    ensures var h := WithModelEdge(g, m, e, expanded, showTelemetry); Closed(h) && InOpen(h, open) && Grows(g, h)
  {
    hide FindNode, IsSkipped;
  }

  lemma {:induction false} ModelEdgesOk(g: Graph, m: Model, es: seq<ModelEdge>, expanded: set<Id>,
      showTelemetry: bool, open: set<string>)
    requires Closed(g) && InOpen(g, open)
    ensures var h := WithModelEdges(g, m, es, expanded, showTelemetry); Closed(h) && InOpen(h, open) && Grows(g, h)
    decreases |es|
  {
    hide WithModelEdge, Closed, InOpen;
    if es != [] {
      ModelEdgeOk(g, m, es[0], expanded, showTelemetry, open);
      ModelEdgesOk(WithModelEdge(g, m, es[0], expanded, showTelemetry), m, es[1..], expanded, showTelemetry, open);
    }
  }

  /**
   * Both ends of every edge are nodes of the map; every node but a card lies in a namespace that is
   * shown and expanded; and every shown namespace is on the map.
   */
  lemma MapIsClosed(ns: seq<Namespace>, expanded: set<Id>, showSystem: bool, m: Model, showTelemetry: bool)
    ensures var g := BuiltGraph(ns, expanded, showSystem, m, showTelemetry);
            && Closed(g)
            && InOpen(g, OpenNames(ns, expanded, showSystem))
            && forall n | n in ns && IsShown(n, showSystem) :: NsId(n.name) in g.nodes
  {
    hide Closed, InOpen, OpenNames, WithNamespaces, WithModelEdges, KindsFit;
    var open := OpenNames(ns, expanded, showSystem);
    NothingIsOk(open);
    NamespacesOk(NOTHING, ns, expanded, showSystem, open);
    ModelEdgesOk(Inventory(ns, expanded, showSystem), m, m.edges, expanded, showTelemetry, open);
  }

  // ---- Expanding ----

  lemma NodeGrows(g: Graph, h: Graph, id: Id, data: Data)
    requires Grows(g, h)
    ensures Grows(WithNode(g, id, data), WithNode(h, id, data))
  {
  }

  lemma WorkloadGrows(g: Graph, h: Graph, ns: string, w: Workload)
    requires Grows(g, h)
    ensures Grows(WithWorkload(g, ns, w), WithWorkload(h, ns, w))
  {
  }

  lemma {:induction false} WorkloadsGrow(g: Graph, h: Graph, ns: string, ws: seq<Workload>)
    requires Grows(g, h)
    ensures Grows(WithWorkloads(g, ns, ws), WithWorkloads(h, ns, ws))
    decreases |ws|
  {
    hide WithWorkload, Grows;
    if ws != [] {
      WorkloadGrows(g, h, ns, ws[0]);
      WorkloadsGrow(WithWorkload(g, ns, ws[0]), WithWorkload(h, ns, ws[0]), ns, ws[1..]);
    }
  }

  lemma EdgeGrows(g: Graph, h: Graph, kind: EdgeKind, source: Id, target: Id)
    requires Grows(g, h)
    ensures Grows(WithEdge(g, kind, source, target), WithEdge(h, kind, source, target))
  {
  }

  lemma {:induction false} ServesGrow(g: Graph, h: Graph, n: Namespace, service: string, serves: seq<string>)
    requires Grows(g, h)
    ensures Grows(WithServes(g, n, service, serves), WithServes(h, n, service, serves))
    decreases |serves|
  {
    hide WithEdge, Grows, HasWorkload;
    if serves != [] {
      var source, target := SvcId(n.name, service), WlId(n.name, serves[0]);
      EdgeGrows(g, h, Routes, source, target);
      if HasWorkload(n, serves[0]) {
        ServesGrow(WithEdge(g, Routes, source, target), WithEdge(h, Routes, source, target), n, service, serves[1..]);
      } else {
        ServesGrow(g, h, n, service, serves[1..]);
      }
    }
  }

  lemma {:induction false} ServicesGrow(g: Graph, h: Graph, n: Namespace, ss: seq<Service>)
    requires Grows(g, h)
    ensures Grows(WithServices(g, n, ss), WithServices(h, n, ss))
    decreases |ss|
  {
    hide WithNode, WithServes, Grows;
    if ss != [] {
      var id, data := SvcId(n.name, ss[0].name), Data(ServiceNode, n.name);
      NodeGrows(g, h, id, data);
      var g1, h1 := WithNode(g, id, data), WithNode(h, id, data);
      ServesGrow(g1, h1, n, ss[0].name, ss[0].serves);
      ServicesGrow(WithServes(g1, n, ss[0].name, ss[0].serves),
          WithServes(h1, n, ss[0].name, ss[0].serves), n, ss[1..]);
    }
  }

  lemma {:induction false} BackendsGrow(g: Graph, h: Graph, n: Namespace, bs: seq<Backend>)
    requires Grows(g, h)
    ensures Grows(WithBackends(g, n, bs), WithBackends(h, n, bs))
    decreases |bs|
  {
    hide WithNode, WithEdge, Grows, HasService;
    if bs != [] {
      var host, svc := HostId(n.name, bs[0].host), SvcId(n.name, bs[0].service);
      var data := Data(HostNode, n.name);
      if HasService(n, bs[0].service) {
        NodeGrows(g, h, host, data);
        EdgeGrows(WithNode(g, host, data), WithNode(h, host, data), Routes, host, svc);
        BackendsGrow(WithEdge(WithNode(g, host, data), Routes, host, svc),
            WithEdge(WithNode(h, host, data), Routes, host, svc), n, bs[1..]);
      } else {
        BackendsGrow(g, h, n, bs[1..]);
      }
    }
  }

  lemma {:induction false} IngressesGrow(g: Graph, h: Graph, n: Namespace, ins: seq<seq<Backend>>)
    requires Grows(g, h)
    ensures Grows(WithIngresses(g, n, ins), WithIngresses(h, n, ins))
    decreases |ins|
  {
    hide WithBackends, Grows;
    if ins != [] {
      BackendsGrow(g, h, n, ins[0]);
      IngressesGrow(WithBackends(g, n, ins[0]), WithBackends(h, n, ins[0]), n, ins[1..]);
    }
  }

  lemma ContentsGrow(g: Graph, h: Graph, n: Namespace)
    requires Grows(g, h)
    ensures Grows(WithContents(g, n), WithContents(h, n))
  {
    hide WithWorkloads, WithServices, WithIngresses, Grows;
    WorkloadsGrow(g, h, n.name, n.workloads);
    var g1, h1 := WithWorkloads(g, n.name, n.workloads), WithWorkloads(h, n.name, n.workloads);
    ServicesGrow(g1, h1, n, n.services);
    IngressesGrow(WithServices(g1, n, n.services), WithServices(h1, n, n.services), n, n.ingresses);
  }

  lemma CardGrows(g: Graph, h: Graph, n: Namespace)
    requires Grows(g, h)
    ensures Grows(WithCard(g, n), WithCard(h, n))
  {
  }

  lemma GrowsOn(f: Graph, g: Graph, h: Graph)
    requires Grows(f, g) && Grows(g, h)
    ensures Grows(f, h)
  {
  }

  lemma NamespaceGrows(g: Graph, h: Graph, n: Namespace, small: set<Id>, large: set<Id>, open: set<string>)
    requires Grows(g, h) && small <= large && Ok(h, open) && (NsId(n.name) in large ==> n.name in open)
    ensures Grows(WithNamespace(g, n, small), WithNamespace(h, n, large)) && Ok(WithNamespace(h, n, large), open)
  {
    hide WithContents, WithCard, Grows, Ok;
    CardGrows(g, h, n);
    CardOk(h, n, open);
    if NsId(n.name) in small {
      ContentsGrow(WithCard(g, n), WithCard(h, n), n);
    }
    if NsId(n.name) in large {
      ContentsOk(WithCard(h, n), n, open);
      GrowsOn(WithCard(g, n), WithCard(h, n), WithContents(WithCard(h, n), n));
    }
  }

  lemma {:induction false} NamespacesGrow(g: Graph, h: Graph, ns: seq<Namespace>, small: set<Id>, large: set<Id>,
      showSystem: bool, open: set<string>)
    requires Grows(g, h) && small <= large && Ok(h, open) && OpenNames(ns, large, showSystem) <= open
    ensures Grows(WithNamespaces(g, ns, small, showSystem), WithNamespaces(h, ns, large, showSystem))
    decreases |ns|
  {
    hide WithNamespace, Grows, Ok;
    if ns != [] {
      var n := ns[0];
      assert ns == [n] + ns[1..];
      assert OpenNames(ns[1..], large, showSystem) <= OpenNames(ns, large, showSystem);
      if IsShown(n, showSystem) {
        assert NsId(n.name) in large ==> n.name in OpenNames(ns, large, showSystem);
        NamespaceGrows(g, h, n, small, large, open);
        NamespacesGrow(WithNamespace(g, n, small), WithNamespace(h, n, large), ns[1..], small, large, showSystem, open);
      } else {
        NamespacesGrow(g, h, ns[1..], small, large, showSystem, open);
      }
    }
  }

  /** The model calls a workload what the inventory's ids say is one. */
  predicate Agrees(m: Model) { forall t | t in m.nodes :: t.kind.WorkloadNode? <==> t.id.WlId? }

  predicate WorkloadsFit(g: Graph) { forall id | id in g.nodes :: g.nodes[id].kind.WorkloadNode? <==> id.WlId? }

  lemma {:induction false} FoundIsThere(nodes: seq<ModelNode>, id: Id)
    ensures var t := FindNode(nodes, id); t.Some? ==> t.value in nodes && t.value.id == id
  {
    if nodes != [] {
      FoundIsThere(nodes[1..], id);
    }
  }

  lemma ModelEdgeFits(g: Graph, m: Model, e: ModelEdge, expanded: set<Id>, showTelemetry: bool)
    requires WorkloadsFit(g) && Agrees(m)
    ensures WorkloadsFit(WithModelEdge(g, m, e, expanded, showTelemetry))
  {
    hide FindNode, IsSkipped, Starts;
    FoundIsThere(m.nodes, e.to);
  }

  lemma StartsToo(g: Graph, h: Graph, from: Id, small: set<Id>, large: set<Id>, open: set<string>)
    requires Grows(g, h) && WorkloadsFit(g) && WorkloadsFit(h) && InOpen(h, open)
    requires forall n | n in open :: NsId(n) in large
    ensures Starts(g, from, small) ==> Starts(h, from, large)
  {
  }

  lemma ModelEdgeGrows(g: Graph, h: Graph, m: Model, e: ModelEdge, small: set<Id>, large: set<Id>,
      showTelemetry: bool, open: set<string>)
    requires Grows(g, h) && WorkloadsFit(g) && WorkloadsFit(h) && InOpen(h, open)
    requires forall n | n in open :: NsId(n) in large
    ensures Grows(WithModelEdge(g, m, e, small, showTelemetry), WithModelEdge(h, m, e, large, showTelemetry))
  {
    hide FindNode, IsSkipped, WorkloadsFit, InOpen;
    StartsToo(g, h, e.from, small, large, open);
  }

  lemma {:induction false} ModelEdgesGrow(g: Graph, h: Graph, m: Model, es: seq<ModelEdge>, small: set<Id>,
      large: set<Id>, showTelemetry: bool, open: set<string>)
    requires Grows(g, h) && WorkloadsFit(g) && WorkloadsFit(h) && Agrees(m) && Closed(h) && InOpen(h, open)
    requires forall n | n in open :: NsId(n) in large
    ensures Grows(WithModelEdges(g, m, es, small, showTelemetry), WithModelEdges(h, m, es, large, showTelemetry))
    decreases |es|
  {
    hide WithModelEdge, Grows, WorkloadsFit, Agrees, Closed, InOpen;
    if es != [] {
      var e := es[0];
      ModelEdgeGrows(g, h, m, e, small, large, showTelemetry, open);
      ModelEdgeFits(g, m, e, small, showTelemetry);
      ModelEdgeFits(h, m, e, large, showTelemetry);
      ModelEdgeOk(h, m, e, large, showTelemetry, open);
      ModelEdgesGrow(WithModelEdge(g, m, e, small, showTelemetry), WithModelEdge(h, m, e, large, showTelemetry),
                     m, es[1..], small, large, showTelemetry, open);
    }
  }

  lemma KindsFitWorkloads(g: Graph)
    requires KindsFit(g)
    ensures WorkloadsFit(g)
  {
  }

  lemma InventoryFits(ns: seq<Namespace>, expanded: set<Id>, showSystem: bool)
    ensures var g := Inventory(ns, expanded, showSystem);
            WorkloadsFit(g) && Closed(g) && InOpen(g, OpenNames(ns, expanded, showSystem))
  {
    hide Closed, InOpen, OpenNames, WithNamespaces, KindsFit, WorkloadsFit;
    var open := OpenNames(ns, expanded, showSystem);
    NothingIsOk(open);
    NamespacesOk(NOTHING, ns, expanded, showSystem, open);
    KindsFitWorkloads(Inventory(ns, expanded, showSystem));
  }

  /** When model and inventory agree on what a workload is, expanding more only adds nodes and edges. */
  lemma ExpandingOnlyAdds(ns: seq<Namespace>, small: set<Id>, large: set<Id>, showSystem: bool, m: Model,
      showTelemetry: bool)
    requires small <= large && Agrees(m)
    ensures Grows(BuiltGraph(ns, small, showSystem, m, showTelemetry),
            BuiltGraph(ns, large, showSystem, m, showTelemetry))
  {
    hide Closed, InOpen, WithNamespaces, WithModelEdges, WorkloadsFit, Agrees, Grows, Ok;
    var open := OpenNames(ns, large, showSystem);
    InventoryFits(ns, small, showSystem);
    InventoryFits(ns, large, showSystem);
    NothingIsOk(open);
    NothingGrows();
    NamespacesGrow(NOTHING, NOTHING, ns, small, large, showSystem, open);
    ModelEdgesGrow(Inventory(ns, small, showSystem), Inventory(ns, large, showSystem), m, m.edges, small, large,
        showTelemetry, open);
  }

  lemma NothingGrows()
    ensures Grows(NOTHING, NOTHING)
  {
  }
}
