/** core/engine/server.go: which TCP ports a server announces, and who answers on them. */
module ServedPorts {
  import opened Common
  import opened Sorting

  const MANIFEST_PORT := 1
  const SFTP_PORT := 22

  datatype Handler = Manifest | Port22 | Forward(port: int)

  /** What startServer sets up: the requested ports, the announced ones and whether there is a port-22 service. */
  datatype Plan = Plan(portSet: set<int>, all: bool, port22: bool, served: seq<int>)

  predicate InRange(p: int) {
    1 <= p <= 65535
  }

  /** uint16(p). */
  function Low16(p: int): int {
    p % 65536
  }

  /** The OnTCP dispatcher. */
  function OnTCP(plan: Plan, port: int): Option<Handler> {
    if port == MANIFEST_PORT && MANIFEST_PORT !in plan.portSet then Some(Manifest)
    else if port == SFTP_PORT && plan.port22 then Some(Port22)
    else if plan.all || port in plan.portSet then Some(Forward(port))
    else None
  }

  /** slices.Compact of the sorted ports, as announced one by one. */
  method Announce(sorted: seq<int>) returns (served: seq<int>)
    requires Ascending(sorted) && forall p :: p in sorted ==> InRange(p)
    ensures StrictlyIncreasing(served) && forall p :: p in served <==> p in sorted
  {
    served := [];
    for i := 0 to |sorted|
      invariant StrictlyIncreasing(served)
      invariant forall p :: p in served <==> p in sorted[..i]
      invariant forall k :: 0 <= k < |served| ==> i > 0 && served[k] <= sorted[i - 1]
      invariant i > 0 ==> sorted[i - 1] in served
    {
      assert sorted[..i + 1] == sorted[..i] + [sorted[i]];
      assert sorted[i] in sorted;
      if i == 0 || sorted[i] != sorted[i - 1] {
        served := served + [Low16(sorted[i])];
      }
    }
    assert sorted[..|sorted|] == sorted;
  }

  /**
    The port part of startServer: validation, the port set, and the sorted, compacted announcement. Announced are
    exactly the ports somebody answers on; when everything is served nothing is announced and somebody answers
    everywhere. The port-22 service comes before a forward of port 22, a requested port 1 before the manifest, and
    every other requested port is forwarded.
   */
  method PlanPorts(ports: seq<int>, all: bool, port22: bool) returns (r: Option<Plan>)
    ensures r.None? <==> exists p :: p in ports && !InRange(p)
    ensures r.Some? && !all ==> StrictlyIncreasing(r.value.served)
    ensures r.Some? && !all ==> forall p :: p in r.value.served <==> OnTCP(r.value, p).Some?
    ensures r.Some? && all ==> r.value.served == [] && forall p :: OnTCP(r.value, p).Some?
    ensures r.Some? ==> forall p :: p in ports ==>
              OnTCP(r.value, p) == Some(if p == SFTP_PORT && port22 then Port22 else Forward(p))
    ensures r.Some? && all ==> forall p :: p !in ports && p != MANIFEST_PORT && !(p == SFTP_PORT && port22) ==>
              OnTCP(r.value, p) == Some(Forward(p))
    ensures r.Some? ==> forall p :: OnTCP(r.value, p).Some? && OnTCP(r.value, p).value.Forward? ==>
              OnTCP(r.value, p).value.port == p
    ensures r.Some? ==> forall p :: OnTCP(r.value, p) == Some(Manifest) <==> p == MANIFEST_PORT && p !in ports
    ensures r.Some? ==> forall p :: OnTCP(r.value, p) == Some(Port22) <==> p == SFTP_PORT && port22
  {
    for i := 0 to |ports|
      invariant forall k :: 0 <= k < i ==> InRange(ports[k])
    {
      if !InRange(ports[i]) { return None; }
    }
    var portSet: set<int> := {};
    for i := 0 to |ports|
      invariant forall p :: p in portSet <==> p in ports[..i]
    {
      portSet := portSet + {Low16(ports[i])};
      assert ports[..i + 1] == ports[..i] + [ports[i]];
    }
    assert ports[..|ports|] == ports;
    var served: seq<int> := [];
    if !all {
      var wanted := ports + [MANIFEST_PORT] + (if port22 then [SFTP_PORT] else []);
      SortKeeps(wanted);
      served := Announce(Sort(wanted));
    }
    r := Some(Plan(portSet, all, port22, served));
  }
}
