/** The cluster model the map draws its flow from, assembled from an inventory and an observed call graph. */
module ClusterModel {
  import opened Text
  import opened ClusterGraph

  /** A service another workload's environment names. */
  datatype Dependency = Dependency(ns: string, service: string, telemetry: bool)

  datatype Detail = Detail(name: string, dependsOn: seq<Dependency>)

  datatype Inventoried = Inventoried(
    name: string, workloads: seq<Detail>, services: seq<Service>, ingresses: seq<seq<Backend>>)

  /** An observed call, by the names the metrics have. */
  datatype Call = Call(from: string, to: string)

  // ---- Nodes and edges as they are found ----

  predicate HasNode(m: Model, id: Id) { exists n :: n in m.nodes && n.id == id }

  /** The first of several nodes with one id is kept. */
  function AddNode(m: Model, id: Id, kind: Kind): Model {
    if HasNode(m, id) then m else m.(nodes := m.nodes + [ModelNode(id, kind)])
  }

  function AddEdge(m: Model, from: Id, to: Id, kind: EdgeKind, telemetry: bool): Model {
    m.(edges := m.edges + [ModelEdge(from, to, kind, telemetry)])
  }

  function AddWorkloads(m: Model, ns: string, ws: seq<Detail>): Model
    decreases |ws|
  {
    if ws == [] then m else AddWorkloads(AddNode(m, WlId(ns, ws[0].name), WorkloadNode), ns, ws[1..])
  }

  function AddServes(m: Model, ns: string, service: string, serves: seq<string>): Model
    decreases |serves|
  {
    if serves == [] then m
    else AddServes(AddEdge(m, SvcId(ns, service), WlId(ns, serves[0]), Routes, false), ns, service, serves[1..])
  }

  function AddServices(m: Model, ns: string, ss: seq<Service>): Model
    decreases |ss|
  {
    if ss == [] then m
    else
      var next := AddNode(m, SvcId(ns, ss[0].name), ServiceNode);
      AddServices(AddServes(next, ns, ss[0].name, ss[0].serves), ns, ss[1..])
  }

  function AddBackends(m: Model, ns: string, bs: seq<Backend>): Model
    decreases |bs|
  {
    if bs == [] then m
    else
      var host := HostId(ns, bs[0].host);
      AddBackends(AddEdge(AddNode(m, host, HostNode), host, SvcId(ns, bs[0].service), Routes, false), ns, bs[1..])
  }

  function AddIngresses(m: Model, ns: string, ins: seq<seq<Backend>>): Model
    decreases |ins|
  {
    if ins == [] then m else AddIngresses(AddBackends(m, ns, ins[0]), ns, ins[1..])
  }

  function AddDependencies(m: Model, ns: string, workload: string, ds: seq<Dependency>): Model
    decreases |ds|
  {
    if ds == [] then m
    else
      var svc := SvcId(ds[0].ns, ds[0].service);
      var next := AddEdge(AddNode(m, svc, ServiceNode), WlId(ns, workload), svc, Depends, ds[0].telemetry);
      AddDependencies(next, ns, workload, ds[1..])
  }

  function AddAllDependencies(m: Model, ns: string, ws: seq<Detail>): Model
    decreases |ws|
  {
    if ws == [] then m
    else AddAllDependencies(AddDependencies(m, ns, ws[0].name, ws[0].dependsOn), ns, ws[1..])
  }

  function AddNamespace(m: Model, n: Inventoried): Model {
    AddAllDependencies(
      AddIngresses(AddServices(AddWorkloads(m, n.name, n.workloads), n.name, n.services), n.name, n.ingresses),
      n.name, n.workloads)
  }

  function AddNamespaces(m: Model, ns: seq<Inventoried>): Model
    decreases |ns|
  {
    if ns == [] then m else AddNamespaces(AddNamespace(m, ns[0]), ns[1..])
  }

  // ---- The observed calls ----

  function FindNamespace(inv: seq<Inventoried>, name: string): Option<Inventoried> {
    if inv == [] then None else if inv[0].name == name then Some(inv[0]) else FindNamespace(inv[1..], name)
  }

  function FindService(ss: seq<Service>, name: string): Option<Service> {
    if ss == [] then None else if ss[0].name == name then Some(ss[0]) else FindService(ss[1..], name)
  }

  function WorkloadIds(ns: string, names: seq<string>): seq<Id> {
    if names == [] then [] else [WlId(ns, names[0])] + WorkloadIds(ns, names[1..])
  }

  /** A name is a service, for the workloads it serves, or a workload; anything else is nobody. */
  function Resolved(inv: seq<Inventoried>, m: Model, ns: string, name: string): seq<Id> {
    var n := FindNamespace(inv, ns);
    var svc := if n.Some? then FindService(n.value.services, name) else None;
    if svc.Some? then WorkloadIds(ns, svc.value.serves)
    else if HasNode(m, WlId(ns, name)) then [WlId(ns, name)] else []
  }

  function AddCallsFrom(m: Model, from: Id, tos: seq<Id>): Model
    decreases |tos|
  {
    if tos == [] then m else AddCallsFrom(AddEdge(m, from, tos[0], Calls, false), from, tos[1..])
  }

  function AddCallsBetween(m: Model, froms: seq<Id>, tos: seq<Id>): Model
    decreases |froms|
  {
    if froms == [] then m else AddCallsBetween(AddCallsFrom(m, froms[0], tos), froms[1..], tos)
  }

  function AddCalls(m: Model, inv: seq<Inventoried>, ns: string, cs: seq<Call>): Model
    decreases |cs|
  {
    if cs == [] then m
    else
      var from, to := Resolved(inv, m, ns, cs[0].from), Resolved(inv, m, ns, cs[0].to);
      AddCalls(AddCallsBetween(m, from, to), inv, ns, cs[1..])
  }

  /** A namespace the call graph does not know has no calls. */
  function CallsOf(calls: map<string, seq<Call>>, ns: string): seq<Call> { if ns in calls then calls[ns] else [] }

  function AddAllCalls(m: Model, inv: seq<Inventoried>, ns: seq<Inventoried>, calls: map<string, seq<Call>>): Model
    decreases |ns|
  {
    if ns == [] then m
    else AddAllCalls(AddCalls(m, inv, ns[0].name, CallsOf(calls, ns[0].name)), inv, ns[1..], calls)
  }

  // ---- Validation ----

  /** The same edge, whatever it was found by. */
  predicate IsSame(a: ModelEdge, b: ModelEdge) { a.kind == b.kind && a.from == b.from && a.to == b.to }

  predicate IsIn(es: seq<ModelEdge>, e: ModelEdge) { exists f :: f in es && IsSame(e, f) }

  /** An edge between nodes of the model, the first of several that are the same. */
  function Merged(m: Model, es: seq<ModelEdge>, out: seq<ModelEdge>): seq<ModelEdge>
    decreases |es|
  {
    if es == [] then out
    else
      var e := es[0];
      Merged(m, es[1..], if HasNode(m, e.from) && HasNode(m, e.to) && !IsIn(out, e) then out + [e] else out)
  }

  function Validated(m: Model): Model { m.(edges := Merged(m, m.edges, [])) }

  /** Without a call graph there are no observed calls. */
  function Assembled(inv: seq<Inventoried>, calls: Option<map<string, seq<Call>>>): Model {
    var m := AddNamespaces(Model([], []), inv);
    Validated(if calls.None? then m else AddAllCalls(m, inv, inv, calls.value))
  }

  // ---- The code ----

  method FillNodes(m0: Model, n: Inventoried) returns (m: Model)
    ensures m ==
            AddIngresses(AddServices(AddWorkloads(m0, n.name, n.workloads), n.name, n.services), n.name, n.ingresses)
  {
    hide AddNode, AddEdge;
    m := m0;
    for k := 0 to |n.workloads|
      invariant AddWorkloads(m, n.name, n.workloads[k..]) == AddWorkloads(m0, n.name, n.workloads)
    {
      assert n.workloads[k..][1..] == n.workloads[k + 1..];
      m := AddNode(m, WlId(n.name, n.workloads[k].name), WorkloadNode);
    }
    ghost var m1 := m;
    for k := 0 to |n.services|
      invariant AddServices(m, n.name, n.services[k..]) == AddServices(m1, n.name, n.services)
    {
      assert n.services[k..][1..] == n.services[k + 1..];
      m := AddNode(m, SvcId(n.name, n.services[k].name), ServiceNode);
      m := FillServes(m, n.name, n.services[k]);
    }
    ghost var m2 := m;
    for k := 0 to |n.ingresses|
      invariant AddIngresses(m, n.name, n.ingresses[k..]) == AddIngresses(m2, n.name, n.ingresses)
    {
      assert n.ingresses[k..][1..] == n.ingresses[k + 1..];
      m := FillBackends(m, n.name, n.ingresses[k]);
    }
  }

  method FillServes(m0: Model, ns: string, s: Service) returns (m: Model)
    ensures m == AddServes(m0, ns, s.name, s.serves)
  {
    m := m0;
    for k := 0 to |s.serves|
      invariant AddServes(m, ns, s.name, s.serves[k..]) == AddServes(m0, ns, s.name, s.serves)
    {
      assert s.serves[k..][1..] == s.serves[k + 1..];
      m := AddEdge(m, SvcId(ns, s.name), WlId(ns, s.serves[k]), Routes, false);
    }
  }

  method FillBackends(m0: Model, ns: string, bs: seq<Backend>) returns (m: Model)
    ensures m == AddBackends(m0, ns, bs)
  {
    hide AddNode;
    m := m0;
    for k := 0 to |bs|
      invariant AddBackends(m, ns, bs[k..]) == AddBackends(m0, ns, bs)
    {
      assert bs[k..][1..] == bs[k + 1..];
      var host := HostId(ns, bs[k].host);
      m := AddNode(m, host, HostNode);
      m := AddEdge(m, host, SvcId(ns, bs[k].service), Routes, false);
    }
  }

  method FillDependencies(m0: Model, ns: string, ws: seq<Detail>) returns (m: Model)
    ensures m == AddAllDependencies(m0, ns, ws)
  {
    hide AddNode;
    m := m0;
    for k := 0 to |ws|
      invariant AddAllDependencies(m, ns, ws[k..]) == AddAllDependencies(m0, ns, ws)
    {
      assert ws[k..][1..] == ws[k + 1..];
      var w := ws[k];
      ghost var m1 := m;
      for j := 0 to |w.dependsOn|
        invariant AddDependencies(m, ns, w.name, w.dependsOn[j..]) == AddDependencies(m1, ns, w.name, w.dependsOn)
      {
        assert w.dependsOn[j..][1..] == w.dependsOn[j + 1..];
        var d := w.dependsOn[j];
        m := AddNode(m, SvcId(d.ns, d.service), ServiceNode);
        m := AddEdge(m, WlId(ns, w.name), SvcId(d.ns, d.service), Depends, d.telemetry);
      }
    }
  }

  method FillCallsBetween(m0: Model, froms: seq<Id>, tos: seq<Id>) returns (m: Model)
    ensures m == AddCallsBetween(m0, froms, tos)
  {
    m := m0;
    for k := 0 to |froms|
      invariant AddCallsBetween(m, froms[k..], tos) == AddCallsBetween(m0, froms, tos)
    {
      assert froms[k..][1..] == froms[k + 1..];
      ghost var m1 := m;
      for j := 0 to |tos|
        invariant AddCallsFrom(m, froms[k], tos[j..]) == AddCallsFrom(m1, froms[k], tos)
      {
        assert tos[j..][1..] == tos[j + 1..];
        m := AddEdge(m, froms[k], tos[j], Calls, false);
      }
    }
  }

  method FillCalls(m0: Model, inv: seq<Inventoried>, calls: map<string, seq<Call>>) returns (m: Model)
    ensures m == AddAllCalls(m0, inv, inv, calls)
  {
    hide Resolved, AddCallsBetween;
    m := m0;
    for k := 0 to |inv|
      invariant AddAllCalls(m, inv, inv[k..], calls) == AddAllCalls(m0, inv, inv, calls)
    {
      assert inv[k..][1..] == inv[k + 1..];
      var ns := inv[k].name;
      var cs := CallsOf(calls, ns);
      ghost var m1 := m;
      for j := 0 to |cs|
        invariant AddCalls(m, inv, ns, cs[j..]) == AddCalls(m1, inv, ns, cs)
      {
        assert cs[j..][1..] == cs[j + 1..];
        m := FillCallsBetween(m, Resolved(inv, m, ns, cs[j].from), Resolved(inv, m, ns, cs[j].to));
      }
    }
  }

  method Validate(m0: Model) returns (m: Model)
    ensures m == Validated(m0)
  {
    hide HasNode, IsIn;
    var out: seq<ModelEdge> := [];
    for k := 0 to |m0.edges|
      invariant Merged(m0, m0.edges[k..], out) == Merged(m0, m0.edges, [])
    {
      assert m0.edges[k..][1..] == m0.edges[k + 1..];
      var e := m0.edges[k];
      if HasNode(m0, e.from) && HasNode(m0, e.to) && !IsIn(out, e) {
        out := out + [e];
      }
    }
    m := m0.(edges := out);
  }

  method AssembleModel(inv: seq<Inventoried>, calls: Option<map<string, seq<Call>>>) returns (m: Model)
    ensures m == Assembled(inv, calls)
  {
    hide AddWorkloads, AddServices, AddIngresses, AddAllDependencies, Validated, AddAllCalls;
    m := Model([], []);
    for k := 0 to |inv|
      invariant AddNamespaces(m, inv[k..]) == AddNamespaces(Model([], []), inv)
    {
      assert inv[k..][1..] == inv[k + 1..];
      m := FillNodes(m, inv[k]);
      m := FillDependencies(m, inv[k].name, inv[k].workloads);
    }
    if calls.Some? {
      m := FillCalls(m, inv, calls.value);
    }
    m := Validate(m);
  }
}
