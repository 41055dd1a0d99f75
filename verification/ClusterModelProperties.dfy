/** What every assembled cluster model keeps, and what follows for the map. */
module ClusterModelProperties {
  import opened Text
  import opened ClusterGraph
  import opened ClusterProperties
  import opened ClusterModel

  /** Every node is what its id says, and no two have one id. */
  predicate NodesOk(m: Model) {
    && (forall n | n in m.nodes :: n.kind == KindOf(n.id) && !n.id.NsId? && !n.id.OwnerId? && !n.id.Other?)
    && (forall i, j | 0 <= i < j < |m.nodes| :: m.nodes[i].id != m.nodes[j].id)
  }

  lemma NodeOk(m: Model, id: Id, kind: Kind)
    requires NodesOk(m) && kind == KindOf(id) && !id.NsId? && !id.OwnerId? && !id.Other?
    ensures NodesOk(AddNode(m, id, kind))
  {
    if !HasNode(m, id) {
      forall i | 0 <= i < |m.nodes|
        ensures m.nodes[i].id != id
      {
        assert m.nodes[i] in m.nodes;
      }
    }
  }

  lemma EdgeOk(m: Model, from: Id, to: Id, kind: EdgeKind, telemetry: bool)
    requires NodesOk(m)
    ensures NodesOk(AddEdge(m, from, to, kind, telemetry))
  {
  }

  lemma {:induction false} WorkloadsOk(m: Model, ns: string, ws: seq<Detail>)
    requires NodesOk(m)
    ensures NodesOk(AddWorkloads(m, ns, ws))
    decreases |ws|
  {
    hide NodesOk, AddNode;
    if ws != [] {
      NodeOk(m, WlId(ns, ws[0].name), WorkloadNode);
      WorkloadsOk(AddNode(m, WlId(ns, ws[0].name), WorkloadNode), ns, ws[1..]);
    }
  }

  lemma {:induction false} ServesOk(m: Model, ns: string, service: string, serves: seq<string>)
    requires NodesOk(m)
    ensures NodesOk(AddServes(m, ns, service, serves))
    decreases |serves|
  {
    hide NodesOk, AddEdge;
    if serves != [] {
      EdgeOk(m, SvcId(ns, service), WlId(ns, serves[0]), Routes, false);
      ServesOk(AddEdge(m, SvcId(ns, service), WlId(ns, serves[0]), Routes, false), ns, service, serves[1..]);
    }
  }

  lemma {:induction false} ServicesOk(m: Model, ns: string, ss: seq<Service>)
    requires NodesOk(m)
    ensures NodesOk(AddServices(m, ns, ss))
    decreases |ss|
  {
    hide NodesOk, AddNode, AddServes;
    if ss != [] {
      var next := AddNode(m, SvcId(ns, ss[0].name), ServiceNode);
      NodeOk(m, SvcId(ns, ss[0].name), ServiceNode);
      ServesOk(next, ns, ss[0].name, ss[0].serves);
      ServicesOk(AddServes(next, ns, ss[0].name, ss[0].serves), ns, ss[1..]);
    }
  }

  lemma {:induction false} BackendsOk(m: Model, ns: string, bs: seq<Backend>)
    requires NodesOk(m)
    ensures NodesOk(AddBackends(m, ns, bs))
    decreases |bs|
  {
    hide NodesOk, AddNode, AddEdge;
    if bs != [] {
      var host, svc := HostId(ns, bs[0].host), SvcId(ns, bs[0].service);
      NodeOk(m, host, HostNode);
      EdgeOk(AddNode(m, host, HostNode), host, svc, Routes, false);
      BackendsOk(AddEdge(AddNode(m, host, HostNode), host, svc, Routes, false), ns, bs[1..]);
    }
  }

  lemma {:induction false} IngressesOk(m: Model, ns: string, ins: seq<seq<Backend>>)
    requires NodesOk(m)
    ensures NodesOk(AddIngresses(m, ns, ins))
    decreases |ins|
  {
    hide NodesOk, AddBackends;
    if ins != [] {
      BackendsOk(m, ns, ins[0]);
      IngressesOk(AddBackends(m, ns, ins[0]), ns, ins[1..]);
    }
  }

  lemma {:induction false} DependenciesOk(m: Model, ns: string, workload: string, ds: seq<Dependency>)
    requires NodesOk(m)
    ensures NodesOk(AddDependencies(m, ns, workload, ds))
    decreases |ds|
  {
    hide NodesOk, AddNode, AddEdge;
    if ds != [] {
      var svc := SvcId(ds[0].ns, ds[0].service);
      NodeOk(m, svc, ServiceNode);
      EdgeOk(AddNode(m, svc, ServiceNode), WlId(ns, workload), svc, Depends, ds[0].telemetry);
      var next := AddEdge(AddNode(m, svc, ServiceNode), WlId(ns, workload), svc, Depends, ds[0].telemetry);
      DependenciesOk(next, ns, workload, ds[1..]);
    }
  }

  lemma {:induction false} AllDependenciesOk(m: Model, ns: string, ws: seq<Detail>)
    requires NodesOk(m)
    ensures NodesOk(AddAllDependencies(m, ns, ws))
    decreases |ws|
  {
    hide NodesOk, AddDependencies;
    if ws != [] {
      DependenciesOk(m, ns, ws[0].name, ws[0].dependsOn);
      AllDependenciesOk(AddDependencies(m, ns, ws[0].name, ws[0].dependsOn), ns, ws[1..]);
    }
  }

  lemma {:induction false} NamespacesOk(m: Model, ns: seq<Inventoried>)
    requires NodesOk(m)
    ensures NodesOk(AddNamespaces(m, ns))
    decreases |ns|
  {
    hide NodesOk, AddWorkloads, AddServices, AddIngresses, AddAllDependencies;
    if ns != [] {
      var n := ns[0];
      var m1 := AddWorkloads(m, n.name, n.workloads);
      var m2 := AddServices(m1, n.name, n.services);
      WorkloadsOk(m, n.name, n.workloads);
      ServicesOk(m1, n.name, n.services);
      IngressesOk(m2, n.name, n.ingresses);
      AllDependenciesOk(AddIngresses(m2, n.name, n.ingresses), n.name, n.workloads);
      NamespacesOk(AddNamespace(m, n), ns[1..]);
    }
  }

  // ---- Calls add no node ----

  lemma {:induction false} CallsFromKeep(m: Model, from: Id, tos: seq<Id>)
    ensures AddCallsFrom(m, from, tos).nodes == m.nodes
    decreases |tos|
  {
    if tos != [] {
      CallsFromKeep(AddEdge(m, from, tos[0], Calls, false), from, tos[1..]);
    }
  }

  lemma {:induction false} CallsBetweenKeep(m: Model, froms: seq<Id>, tos: seq<Id>)
    ensures AddCallsBetween(m, froms, tos).nodes == m.nodes
    decreases |froms|
  {
    if froms != [] {
      CallsFromKeep(m, froms[0], tos);
      CallsBetweenKeep(AddCallsFrom(m, froms[0], tos), froms[1..], tos);
    }
  }

  lemma {:induction false} CallsKeep(m: Model, inv: seq<Inventoried>, ns: string, cs: seq<Call>)
    ensures AddCalls(m, inv, ns, cs).nodes == m.nodes
    decreases |cs|
  {
    hide Resolved, AddCallsBetween;
    if cs != [] {
      var from, to := Resolved(inv, m, ns, cs[0].from), Resolved(inv, m, ns, cs[0].to);
      CallsBetweenKeep(m, from, to);
      CallsKeep(AddCallsBetween(m, from, to), inv, ns, cs[1..]);
    }
  }

  lemma {:induction false} AllCallsKeep(m: Model, inv: seq<Inventoried>, ns: seq<Inventoried>,
      calls: map<string, seq<Call>>)
    ensures AddAllCalls(m, inv, ns, calls).nodes == m.nodes
    decreases |ns|
  {
    hide AddCalls;
    if ns != [] {
      CallsKeep(m, inv, ns[0].name, CallsOf(calls, ns[0].name));
      AllCallsKeep(AddCalls(m, inv, ns[0].name, CallsOf(calls, ns[0].name)), inv, ns[1..], calls);
    }
  }

  // ---- Validation ----

  /** Both ends of every edge are nodes, and no edge is there twice. */
  predicate EdgesOk(m: Model, es: seq<ModelEdge>) {
    && (forall e | e in es :: HasNode(m, e.from) && HasNode(m, e.to))
    && (forall i, j | 0 <= i < j < |es| :: !IsSame(es[i], es[j]))
  }

  /** What is lost is lost for a reason: the edge's ends are not nodes, or it is there already. */
  lemma {:induction false} MergedOk(m: Model, es: seq<ModelEdge>, out: seq<ModelEdge>)
    requires EdgesOk(m, out)
    ensures EdgesOk(m, Merged(m, es, out)) && out <= Merged(m, es, out)
    ensures forall e | e in es && HasNode(m, e.from) && HasNode(m, e.to) :: IsIn(Merged(m, es, out), e)
    decreases |es|
  {
    hide HasNode, IsIn, EdgesOk;
    if es != [] {
      var e := es[0];
      var next := if HasNode(m, e.from) && HasNode(m, e.to) && !IsIn(out, e) then out + [e] else out;
      OneMerged(m, out, e);
      MergedOk(m, es[1..], next);
      StillIn(next, Merged(m, es[1..], next), e);
      assert es == [e] + es[1..];
    }
  }

  lemma OneMerged(m: Model, out: seq<ModelEdge>, e: ModelEdge)
    requires EdgesOk(m, out)
    ensures HasNode(m, e.from) && HasNode(m, e.to) && !IsIn(out, e) ==> EdgesOk(m, out + [e])
    ensures IsIn(out + [e], e)
  {
    hide HasNode;
    assert e in out + [e] && IsSame(e, e);
    forall i | 0 <= i < |out|
      ensures !IsIn(out, e) ==> !IsSame(out[i], e)
    {
      assert out[i] in out;
    }
  }

  lemma StillIn(a: seq<ModelEdge>, b: seq<ModelEdge>, e: ModelEdge)
    requires a <= b
    ensures IsIn(a, e) ==> IsIn(b, e)
  {
    assert forall f | f in a :: f in b;
  }

  /**
   * Whatever the inventory and the call graph: a model's nodes are what their ids say and have distinct
   * ids, both ends of its edges are nodes, and no edge is there twice.
   */
  lemma AssembledIsOk(inv: seq<Inventoried>, calls: Option<map<string, seq<Call>>>)
    ensures var m := Assembled(inv, calls); NodesOk(m) && EdgesOk(m, m.edges) && Agrees(m)
  {
    hide AddNamespaces, AddAllCalls, EdgesOk, Merged;
    var m := AddNamespaces(Model([], []), inv);
    NamespacesOk(Model([], []), inv);
    if calls.Some? {
      AllCallsKeep(m, inv, inv, calls.value);
    }
    var found := if calls.None? then m else AddAllCalls(m, inv, inv, calls.value);
    NothingIsOk(found);
    MergedOk(found, found.edges, []);
    SameNodes(found, Assembled(inv, calls), Merged(found, found.edges, []));
  }

  lemma NothingIsOk(m: Model)
    ensures EdgesOk(m, [])
  {
  }

  lemma SameNodes(m: Model, n: Model, es: seq<ModelEdge>)
    requires m.nodes == n.nodes && EdgesOk(m, es)
    ensures EdgesOk(n, es)
  {
  }

  /**
   * With any model that is assembled, whether from this inventory or another one, expanding more only adds
   * nodes and edges to the map.
   */
  lemma ExpandingAssembledOnlyAdds(ns: seq<Namespace>, small: set<Id>, large: set<Id>, showSystem: bool,
      inv: seq<Inventoried>, calls: Option<map<string, seq<Call>>>, showTelemetry: bool)
    requires small <= large
    ensures var m := Assembled(inv, calls);
            Grows(BuiltGraph(ns, small, showSystem, m, showTelemetry),
                BuiltGraph(ns, large, showSystem, m, showTelemetry))
  {
    hide Assembled, Grows, BuiltGraph, NodesOk, EdgesOk, Agrees;
    AssembledIsOk(inv, calls);
    ExpandingOnlyAdds(ns, small, large, showSystem, Assembled(inv, calls), showTelemetry);
  }
}
