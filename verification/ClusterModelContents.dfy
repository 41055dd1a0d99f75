/** What an assembled cluster model has, said of the inventory and the call graph: every node and every edge. */
module ClusterModelContents {
  import opened Text
  import opened ClusterGraph
  import opened ClusterModel
  import opened ClusterModelProperties

  // ---- What there is to find ----

  predicate ServesEdge(ns: string, s: Service, e: ModelEdge) {
    exists w: string :: w in s.serves && e == ModelEdge(SvcId(ns, s.name), WlId(ns, w), Routes, false)
  }

  predicate BackendEdge(ns: string, b: Backend, e: ModelEdge) {
    e == ModelEdge(HostId(ns, b.host), SvcId(ns, b.service), Routes, false)
  }

  predicate DependsEdge(ns: string, workload: string, d: Dependency, e: ModelEdge) {
    e == ModelEdge(WlId(ns, workload), SvcId(d.ns, d.service), Depends, d.telemetry)
  }

  predicate RoutesFrom(ns: string, bs: seq<Backend>, e: ModelEdge) {
    exists b: Backend :: b in bs && BackendEdge(ns, b, e)
  }

  predicate DependsOn(ns: string, workload: string, ds: seq<Dependency>, e: ModelEdge) {
    exists d: Dependency :: d in ds && DependsEdge(ns, workload, d, e)
  }

  predicate IsHostOf(ns: string, bs: seq<Backend>, id: Id) { exists b: Backend :: b in bs && id == HostId(ns, b.host) }

  predicate IsDependency(ds: seq<Dependency>, id: Id) {
    exists d: Dependency :: d in ds && id == SvcId(d.ns, d.service)
  }

  /** A service routes to what it serves, a host to its service, a workload depends on what its environment names. */
  predicate IsDeclared(n: Inventoried, e: ModelEdge) {
    || (exists s: Service :: s in n.services && ServesEdge(n.name, s, e))
    || (exists bs: seq<Backend> :: bs in n.ingresses && RoutesFrom(n.name, bs, e))
    || (exists w: Detail :: w in n.workloads && DependsOn(n.name, w.name, w.dependsOn, e))
  }

  /** Workloads, services and hosts, and the services that are depended on, whatever namespace they are in. */
  predicate IsNamed(n: Inventoried, id: Id) {
    || (exists w: Detail :: w in n.workloads && id == WlId(n.name, w.name))
    || (exists s: Service :: s in n.services && id == SvcId(n.name, s.name))
    || (exists bs: seq<Backend> :: bs in n.ingresses && IsHostOf(n.name, bs, id))
    || (exists w: Detail :: w in n.workloads && IsDependency(w.dependsOn, id))
  }

  predicate IsNode(inv: seq<Inventoried>, id: Id) { exists n: Inventoried :: n in inv && IsNamed(n, id) }

  // ---- Nodes and edges, part by part ----

  lemma AddNodeIs(m: Model, id: Id, kind: Kind, x: Id)
    ensures HasNode(AddNode(m, id, kind), x) <==> HasNode(m, x) || x == id
    ensures AddNode(m, id, kind).edges == m.edges
  {
    var ns := AddNode(m, id, kind).nodes;
    if !HasNode(m, id) {
      assert ns[|m.nodes|] == ModelNode(id, kind) && ns[|m.nodes|] in ns;
      assert forall n | n in m.nodes :: n in ns;
    }
  }

  lemma AddEdgeIs(m: Model, from: Id, to: Id, kind: EdgeKind, telemetry: bool, x: Id, e: ModelEdge)
    ensures var r := AddEdge(m, from, to, kind, telemetry);
            && (HasNode(r, x) <==> HasNode(m, x))
            && (e in r.edges <==> e in m.edges || e == ModelEdge(from, to, kind, telemetry))
  {
  }

  lemma {:induction false} WorkloadsAre(m: Model, ns: string, ws: seq<Detail>, x: Id)
    ensures var r := AddWorkloads(m, ns, ws);
            && r.edges == m.edges
            && (HasNode(r, x) <==> HasNode(m, x) || exists w: Detail :: w in ws && x == WlId(ns, w.name))
    decreases |ws|
  {
    hide HasNode, AddNode;
    if ws != [] {
      AddNodeIs(m, WlId(ns, ws[0].name), WorkloadNode, x);
      WorkloadsAre(AddNode(m, WlId(ns, ws[0].name), WorkloadNode), ns, ws[1..], x);
      assert ws == [ws[0]] + ws[1..];
    }
  }

  lemma {:induction false} ServesAre(m: Model, ns: string, service: string, serves: seq<string>, x: Id, e: ModelEdge)
    ensures var r := AddServes(m, ns, service, serves);
            && (HasNode(r, x) <==> HasNode(m, x))
            && (e in r.edges <==> e in m.edges || ServesEdge(ns, Service(service, serves), e))
    decreases |serves|
  {
    hide HasNode, AddEdge;
    if serves != [] {
      AddEdgeIs(m, SvcId(ns, service), WlId(ns, serves[0]), Routes, false, x, e);
      ServesAre(AddEdge(m, SvcId(ns, service), WlId(ns, serves[0]), Routes, false), ns, service, serves[1..], x, e);
      assert serves == [serves[0]] + serves[1..];
    }
  }

  lemma {:induction false} ServicesAre(m: Model, ns: string, ss: seq<Service>, x: Id, e: ModelEdge)
    ensures var r := AddServices(m, ns, ss);
            && (HasNode(r, x) <==> HasNode(m, x) || exists s: Service :: s in ss && x == SvcId(ns, s.name))
            && (e in r.edges <==> e in m.edges || exists s: Service :: s in ss && ServesEdge(ns, s, e))
    decreases |ss|
  {
    hide HasNode, AddNode, AddServes, ServesEdge;
    if ss != [] {
      var s := ss[0];
      var next := AddNode(m, SvcId(ns, s.name), ServiceNode);
      AddNodeIs(m, SvcId(ns, s.name), ServiceNode, x);
      ServesAre(next, ns, s.name, s.serves, x, e);
      ServicesAre(AddServes(next, ns, s.name, s.serves), ns, ss[1..], x, e);
      assert ss == [s] + ss[1..];
    }
  }

  lemma BackendsStep(ns: string, bs: seq<Backend>, x: Id, e: ModelEdge)
    requires bs != []
    ensures IsHostOf(ns, bs, x) <==> x == HostId(ns, bs[0].host) || IsHostOf(ns, bs[1..], x)
    ensures RoutesFrom(ns, bs, e) <==> BackendEdge(ns, bs[0], e) || RoutesFrom(ns, bs[1..], e)
  {
    hide BackendEdge;
    assert bs == [bs[0]] + bs[1..];
    assert bs[0] in bs;
  }

  lemma {:induction false} BackendsAre(m: Model, ns: string, bs: seq<Backend>, x: Id, e: ModelEdge)
    ensures var r := AddBackends(m, ns, bs);
            && (HasNode(r, x) <==> HasNode(m, x) || IsHostOf(ns, bs, x))
            && (e in r.edges <==> e in m.edges || RoutesFrom(ns, bs, e))
    decreases |bs|
  {
    hide HasNode, AddNode, AddEdge;
    if bs != [] {
      hide IsHostOf, RoutesFrom;
      var host, svc := HostId(ns, bs[0].host), SvcId(ns, bs[0].service);
      BackendsStep(ns, bs, x, e);
      AddNodeIs(m, host, HostNode, x);
      AddEdgeIs(AddNode(m, host, HostNode), host, svc, Routes, false, x, e);
      BackendsAre(AddEdge(AddNode(m, host, HostNode), host, svc, Routes, false), ns, bs[1..], x, e);
    }
  }

  lemma {:induction false} IngressesAre(m: Model, ns: string, ins: seq<seq<Backend>>, x: Id, e: ModelEdge)
    ensures var r := AddIngresses(m, ns, ins);
            && (HasNode(r, x) <==> HasNode(m, x) || exists bs: seq<Backend> :: bs in ins && IsHostOf(ns, bs, x))
            && (e in r.edges <==> e in m.edges || exists bs: seq<Backend> :: bs in ins && RoutesFrom(ns, bs, e))
    decreases |ins|
  {
    hide HasNode, AddBackends, IsHostOf, RoutesFrom;
    if ins != [] {
      BackendsAre(m, ns, ins[0], x, e);
      IngressesAre(AddBackends(m, ns, ins[0]), ns, ins[1..], x, e);
      assert ins == [ins[0]] + ins[1..];
    }
  }

  lemma DependenciesStep(ns: string, workload: string, ds: seq<Dependency>, x: Id, e: ModelEdge)
    requires ds != []
    ensures IsDependency(ds, x) <==> x == SvcId(ds[0].ns, ds[0].service) || IsDependency(ds[1..], x)
    ensures DependsOn(ns, workload, ds, e) <==>
            DependsEdge(ns, workload, ds[0], e) || DependsOn(ns, workload, ds[1..], e)
  {
    hide DependsEdge;
    assert ds == [ds[0]] + ds[1..];
    assert ds[0] in ds;
  }

  lemma {:induction false} DependenciesAre(m: Model, ns: string, workload: string, ds: seq<Dependency>, x: Id,
      e: ModelEdge)
    ensures var r := AddDependencies(m, ns, workload, ds);
            && (HasNode(r, x) <==> HasNode(m, x) || IsDependency(ds, x))
            && (e in r.edges <==> e in m.edges || DependsOn(ns, workload, ds, e))
    decreases |ds|
  {
    hide HasNode, AddNode, AddEdge;
    if ds != [] {
      hide IsDependency, DependsOn;
      var svc := SvcId(ds[0].ns, ds[0].service);
      DependenciesStep(ns, workload, ds, x, e);
      AddNodeIs(m, svc, ServiceNode, x);
      AddEdgeIs(AddNode(m, svc, ServiceNode), WlId(ns, workload), svc, Depends, ds[0].telemetry, x, e);
      DependenciesAre(AddEdge(AddNode(m, svc, ServiceNode), WlId(ns, workload), svc, Depends, ds[0].telemetry), ns,
          workload, ds[1..], x, e);
    }
  }

  lemma {:induction false} AllDependenciesAre(m: Model, ns: string, ws: seq<Detail>, x: Id, e: ModelEdge)
    ensures var r := AddAllDependencies(m, ns, ws);
            && (HasNode(r, x) <==> HasNode(m, x) || exists w: Detail :: w in ws && IsDependency(w.dependsOn, x))
            && (e in r.edges <==> e in m.edges || exists w: Detail :: w in ws && DependsOn(ns, w.name, w.dependsOn, e))
    decreases |ws|
  {
    hide HasNode, AddDependencies, IsDependency, DependsOn;
    if ws != [] {
      DependenciesAre(m, ns, ws[0].name, ws[0].dependsOn, x, e);
      AllDependenciesAre(AddDependencies(m, ns, ws[0].name, ws[0].dependsOn), ns, ws[1..], x, e);
      assert ws == [ws[0]] + ws[1..];
    }
  }

  lemma NamespaceIs(m: Model, n: Inventoried, x: Id, e: ModelEdge)
    ensures var r := AddNamespace(m, n);
            && (HasNode(r, x) <==> HasNode(m, x) || IsNamed(n, x))
            && (e in r.edges <==> e in m.edges || IsDeclared(n, e))
  {
    hide HasNode, AddWorkloads, AddServices, AddIngresses, AddAllDependencies, ServesEdge, RoutesFrom, DependsOn,
        IsHostOf, IsDependency;
    var m1 := AddWorkloads(m, n.name, n.workloads);
    var m2 := AddServices(m1, n.name, n.services);
    WorkloadsAre(m, n.name, n.workloads, x);
    ServicesAre(m1, n.name, n.services, x, e);
    IngressesAre(m2, n.name, n.ingresses, x, e);
    AllDependenciesAre(AddIngresses(m2, n.name, n.ingresses), n.name, n.workloads, x, e);
  }

  lemma {:induction false} NamespacesAre(m: Model, ns: seq<Inventoried>, x: Id, e: ModelEdge)
    ensures var r := AddNamespaces(m, ns);
            && (HasNode(r, x) <==> HasNode(m, x) || IsNode(ns, x))
            && (e in r.edges <==> e in m.edges || exists n: Inventoried :: n in ns && IsDeclared(n, e))
    decreases |ns|
  {
    hide HasNode, AddNamespace, IsNamed, IsDeclared;
    if ns != [] {
      NamespaceIs(m, ns[0], x, e);
      NamespacesAre(AddNamespace(m, ns[0]), ns[1..], x, e);
      assert ns == [ns[0]] + ns[1..];
    }
  }

  // ---- The observed calls ----

  predicate FirstNamespace(inv: seq<Inventoried>, ns: string, i: nat) {
    i < |inv| && inv[i].name == ns && forall j | 0 <= j < i :: inv[j].name != ns
  }

  predicate FirstService(ss: seq<Service>, name: string, k: nat) {
    k < |ss| && ss[k].name == name && forall j | 0 <= j < k :: ss[j].name != name
  }

  /** The service of a name: the first of that name in the first namespace of its name. */
  predicate IsServiceAt(inv: seq<Inventoried>, ns: string, name: string, svc: Service) {
    exists i: nat, k: nat | i < |inv| && k < |inv[i].services| ::
      FirstNamespace(inv, ns, i) && FirstService(inv[i].services, name, k) && svc == inv[i].services[k]
  }

  /** A name stands for what its service serves; without a service, for the workload of that name if there is one. */
  ghost predicate StandsFor(inv: seq<Inventoried>, ns: string, name: string, id: Id) {
    || (exists svc :: IsServiceAt(inv, ns, name, svc) && exists w: string :: w in svc.serves && id == WlId(ns, w))
    || ((forall svc :: !IsServiceAt(inv, ns, name, svc)) && id == WlId(ns, name) && IsNode(inv, id))
  }

  /** Whatever the one name stands for calls whatever the other one stands for. */
  ghost predicate IsCalled(inv: seq<Inventoried>, ns: string, c: Call, e: ModelEdge) {
    e.kind.Calls? && !e.telemetry && StandsFor(inv, ns, c.from, e.from) && StandsFor(inv, ns, c.to, e.to)
  }

  lemma {:induction false} FindNamespaceIs(inv: seq<Inventoried>, ns: string)
    ensures var r := FindNamespace(inv, ns);
            if r.None? then forall i: nat | i < |inv| :: inv[i].name != ns
            else exists i: nat :: FirstNamespace(inv, ns, i) && inv[i] == r.value
  {
    if inv != [] {
      if inv[0].name == ns {
        assert FirstNamespace(inv, ns, 0);
      } else {
        FindNamespaceIs(inv[1..], ns);
        if i: nat :| FirstNamespace(inv[1..], ns, i) && Some(inv[1..][i]) == FindNamespace(inv[1..], ns) {
          assert FirstNamespace(inv, ns, i + 1) by {
            assert forall j | 0 < j < i + 1 :: inv[j] == inv[1..][j - 1];
          }
        }
      }
    }
  }

  lemma {:induction false} FindServiceIs(ss: seq<Service>, name: string)
    ensures var r := FindService(ss, name);
            if r.None? then forall k: nat | k < |ss| :: ss[k].name != name
            else exists k: nat :: FirstService(ss, name, k) && ss[k] == r.value
  {
    if ss != [] {
      if ss[0].name == name {
        assert FirstService(ss, name, 0);
      } else {
        FindServiceIs(ss[1..], name);
        if k: nat :| FirstService(ss[1..], name, k) && Some(ss[1..][k]) == FindService(ss[1..], name) {
          assert FirstService(ss, name, k + 1) by {
            assert forall j | 0 < j < k + 1 :: ss[j] == ss[1..][j - 1];
          }
        }
      }
    }
  }

  /** The service that the program finds for a name, if any. */
  function Found(inv: seq<Inventoried>, ns: string, name: string): Option<Service> {
    var n := FindNamespace(inv, ns);
    if n.Some? then FindService(n.value.services, name) else None
  }

  lemma FoundIff(inv: seq<Inventoried>, ns: string, name: string, svc: Service)
    ensures Found(inv, ns, name) == Some(svc) <==> IsServiceAt(inv, ns, name, svc)
  {
    hide FindNamespace, FindService;
    var n := FindNamespace(inv, ns);
    FindNamespaceIs(inv, ns);
    if n.Some? {
      FindServiceIs(n.value.services, name);
    }
  }

  lemma {:induction false} WorkloadIdsAre(ns: string, names: seq<string>, id: Id)
    ensures id in WorkloadIds(ns, names) <==> exists w: string :: w in names && id == WlId(ns, w)
  {
    if names != [] {
      WorkloadIdsAre(ns, names[1..], id);
      assert names == [names[0]] + names[1..];
    }
  }

  lemma ResolvedIff(inv: seq<Inventoried>, m: Model, ns: string, name: string, id: Id)
    requires forall x :: HasNode(m, x) <==> IsNode(inv, x)
    ensures id in Resolved(inv, m, ns, name) <==> StandsFor(inv, ns, name, id)
  {
    hide HasNode, IsNode, IsServiceAt, FindNamespace, FindService;
    var svc := Found(inv, ns, name);
    forall s
      ensures svc == Some(s) <==> IsServiceAt(inv, ns, name, s)
    {
      FoundIff(inv, ns, name, s);
    }
    if svc.Some? {
      WorkloadIdsAre(ns, svc.value.serves, id);
      assert IsServiceAt(inv, ns, name, svc.value);
    }
  }

  lemma {:induction false} CallsFromAre(m: Model, from: Id, tos: seq<Id>, e: ModelEdge)
    ensures e in AddCallsFrom(m, from, tos).edges <==>
            e in m.edges || (e.to in tos && e == ModelEdge(from, e.to, Calls, false))
    decreases |tos|
  {
    if tos != [] {
      CallsFromAre(AddEdge(m, from, tos[0], Calls, false), from, tos[1..], e);
      assert tos == [tos[0]] + tos[1..];
    }
  }

  lemma {:induction false} CallsBetweenAre(m: Model, froms: seq<Id>, tos: seq<Id>, e: ModelEdge)
    ensures e in AddCallsBetween(m, froms, tos).edges <==>
            e in m.edges || (e.from in froms && e.to in tos && e.kind.Calls? && !e.telemetry)
    decreases |froms|
  {
    hide AddCallsFrom;
    if froms != [] {
      CallsFromAre(m, froms[0], tos, e);
      CallsBetweenAre(AddCallsFrom(m, froms[0], tos), froms[1..], tos, e);
      assert froms == [froms[0]] + froms[1..];
    }
  }

  lemma {:induction false} CallsAre(m: Model, inv: seq<Inventoried>, ns: string, cs: seq<Call>, e: ModelEdge)
    requires forall x :: HasNode(m, x) <==> IsNode(inv, x)
    ensures e in AddCalls(m, inv, ns, cs).edges <==>
            e in m.edges || exists c: Call :: c in cs && IsCalled(inv, ns, c, e)
    decreases |cs|
  {
    hide Resolved, AddCallsBetween, IsNode, StandsFor;
    if cs != [] {
      var from, to := Resolved(inv, m, ns, cs[0].from), Resolved(inv, m, ns, cs[0].to);
      var next := AddCallsBetween(m, from, to);
      ResolvedIff(inv, m, ns, cs[0].from, e.from);
      ResolvedIff(inv, m, ns, cs[0].to, e.to);
      CallsBetweenAre(m, from, to, e);
      CallsBetweenKeep(m, from, to);
      CallsAre(next, inv, ns, cs[1..], e);
      assert cs == [cs[0]] + cs[1..];
      assert IsCalled(inv, ns, cs[0], e) ==> e in next.edges;
    }
  }

  lemma {:induction false} AllCallsAre(m: Model, inv: seq<Inventoried>, ns: seq<Inventoried>,
      calls: map<string, seq<Call>>, e: ModelEdge)
    requires forall x :: HasNode(m, x) <==> IsNode(inv, x)
    ensures e in AddAllCalls(m, inv, ns, calls).edges <==>
            e in m.edges || exists n: Inventoried :: n in ns && AnyCall(inv, n.name, calls, e)
    decreases |ns|
  {
    hide AddCalls, IsNode, IsCalled;
    if ns != [] {
      var cs := CallsOf(calls, ns[0].name);
      CallsAre(m, inv, ns[0].name, cs, e);
      CallsKeep(m, inv, ns[0].name, cs);
      AllCallsAre(AddCalls(m, inv, ns[0].name, cs), inv, ns[1..], calls, e);
      assert ns == [ns[0]] + ns[1..];
    }
  }

  ghost predicate AnyCall(inv: seq<Inventoried>, ns: string, calls: map<string, seq<Call>>, e: ModelEdge) {
    exists c: Call :: c in CallsOf(calls, ns) && IsCalled(inv, ns, c, e)
  }

  // ---- The model ----

  /** An edge that some namespace declares, or that the call graph has. */
  ghost predicate IsFound(inv: seq<Inventoried>, calls: Option<map<string, seq<Call>>>, e: ModelEdge) {
    || (exists n: Inventoried :: n in inv && IsDeclared(n, e))
    || (calls.Some? && exists n: Inventoried :: n in inv && AnyCall(inv, n.name, calls.value, e))
  }

  lemma {:induction false} MergedIsFound(m: Model, es: seq<ModelEdge>, out: seq<ModelEdge>, e: ModelEdge)
    requires e in Merged(m, es, out)
    ensures e in out || (e in es && HasNode(m, e.from) && HasNode(m, e.to))
    decreases |es|
  {
    hide HasNode, IsIn;
    if es != [] {
      var f := es[0];
      MergedIsFound(m, es[1..], if HasNode(m, f.from) && HasNode(m, f.to) && !IsIn(out, f) then out + [f] else out, e);
      assert es == [f] + es[1..];
    }
  }

  lemma FoundEdges(inv: seq<Inventoried>, calls: Option<map<string, seq<Call>>>, e: ModelEdge) returns (m: Model)
    ensures Assembled(inv, calls) == Validated(m)
    ensures forall x :: HasNode(m, x) <==> IsNode(inv, x)
    ensures e in m.edges <==> IsFound(inv, calls, e)
  {
    hide AddNamespaces, AddAllCalls, IsNode, IsDeclared, AnyCall, Validated;
    var empty := Model([], []);
    var named := AddNamespaces(empty, inv);
    forall x
      ensures HasNode(named, x) <==> IsNode(inv, x)
    {
      NamespacesAre(empty, inv, x, e);
    }
    NamespacesAre(empty, inv, NsId(""), e);
    m := named;
    if calls.Some? {
      AllCallsAre(named, inv, inv, calls.value, e);
      AllCallsKeep(named, inv, inv, calls.value);
      m := AddAllCalls(named, inv, inv, calls.value);
    }
  }

  /** The nodes of an assembled model are those that some namespace names. */
  lemma NodesIff(inv: seq<Inventoried>, calls: Option<map<string, seq<Call>>>, x: Id)
    ensures HasNode(Assembled(inv, calls), x) <==> IsNode(inv, x)
  {
    hide HasNode, IsNode, IsFound, Merged, Assembled;
    var m := FoundEdges(inv, calls, ModelEdge(x, x, Calls, false));
    SameNodesHave(m, x);
  }

  lemma SameNodesHave(m: Model, x: Id)
    ensures HasNode(Validated(m), x) <==> HasNode(m, x)
  {
  }

  /** Each of its edges is one that was found, between two of its nodes. */
  lemma EdgesAreFound(inv: seq<Inventoried>, calls: Option<map<string, seq<Call>>>, e: ModelEdge)
    requires e in Assembled(inv, calls).edges
    ensures IsFound(inv, calls, e) && IsNode(inv, e.from) && IsNode(inv, e.to)
  {
    hide HasNode, IsNode, IsFound, Merged, Assembled;
    var m := FoundEdges(inv, calls, e);
    MergedIsFound(m, m.edges, [], e);
  }

  /** Each edge that was found between two of its nodes is one of its edges, whatever it was found by. */
  lemma FoundAreEdges(inv: seq<Inventoried>, calls: Option<map<string, seq<Call>>>, e: ModelEdge)
    requires IsFound(inv, calls, e) && IsNode(inv, e.from) && IsNode(inv, e.to)
    ensures IsIn(Assembled(inv, calls).edges, e)
  {
    hide HasNode, IsNode, IsFound, Merged, Assembled, EdgesOk, IsIn;
    var m := FoundEdges(inv, calls, e);
    NothingIsOk(m);
    MergedOk(m, m.edges, []);
  }
}
