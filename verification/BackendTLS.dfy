/** The backend-protocol annotation and the backend TLS policies it writes. */
module BackendTLS {
  import opened Text
  import opened Ordering
  import opened Annotations
  import opened Resources
  import opened Gateways
  import opened BackendGroups

  type TLSPolicies = map<NamespacedName, Policy<seq<int>>>

  predicate IntLess(a: int, b: int) { a < b }

  lemma HasElement(s: set<int>)
    requires s != {}
    ensures exists x :: x in s
  {
    assert (forall x :: x !in s) ==> s == {};
  }

  lemma {:induction false} LeastExists(s: set<int>)
    requires s != {}
    ensures exists m :: m in s && forall x | x in s :: m <= x
  {
    HasElement(s);
    var x :| x in s;
    var rest := s - {x};
    if rest == {} {
      assert s == {x};
    } else {
      LeastExists(rest);
      var m :| m in rest && forall y | y in rest :: m <= y;
      assert s == rest + {x};
      var least := if x < m then x else m;
      assert least in s && forall y | y in s :: least <= y;
    }
  }

  /** The ports of a set in increasing order. */
  ghost function Ascending(s: set<int>): (r: seq<int>)
    ensures StrictlySorted(r, IntLess) && SetOf(r) == s
  {
    if s == {} then []
    else
      LeastExists(s);
      var m :| m in s && forall x | x in s :: m <= x;
      var rest := Ascending(s - {m});
      assert forall i | 0 <= i < |rest| :: rest[i] in SetOf(rest);
      assert SetOf([m] + rest) == {m} + SetOf(rest);
      [m] + rest
  }

  /** There is one increasing list of a set. */
  lemma AscendingIsUnique(s: set<int>, listing: seq<int>)
    requires Lists(listing, s)
    ensures Sort(listing, IntLess) == Ascending(s)
  {
    var r := Ascending(s);
    assert Lists(r, s) by {
      forall x ensures x in r <==> x in s {
        assert x in r <==> x in SetOf(r);
      }
      forall i, j | 0 <= i < j < |r| ensures r[i] != r[j] {
        assert IntLess(r[i], r[j]);
      }
    }
    SortOfListing(listing, r, s, IntLess);
    SortSorts(r, IntLess);
    assert Sorted(r, IntLess) by {
      forall i, j | 0 <= i < j < |r| ensures !IntLess(r[j], r[i]) {
        assert IntLess(r[i], r[j]);
      }
    }
    SortedIsUnique(Sort(r, IntLess), r, IntLess);
  }

  function PortSet(port: Option<int>): set<int> {
    if port.Some? then {port.value} else {}
  }

  function PortsOf(g: TLSPolicies, service: NamespacedName): seq<int> {
    if PolicyName(service) in g then g[PolicyName(service)].spec else []
  }

  ghost function VisitedPorts(g: TLSPolicies, service: NamespacedName, port: Option<int>): TLSPolicies {
    var inserted := Inserted(g, NewBackendTLSPolicy(service));
    var policy := inserted[PolicyName(service)];
    inserted[PolicyName(service) := policy.(spec := Ascending(SetOf(policy.spec) + PortSet(port)))]
  }

  function TLSPolicyID(service: NamespacedName): ResourceID {
    ResourceID(ALB_API_VERSION, KIND_BACKEND_TLS_POLICY, PolicyName(service))
  }

  datatype TLSRun = TLSRun(policies: TLSPolicies, annotation: Annotation)

  ghost function ApplyPorts(r: TLSRun, route: HTTPRoute, order: seq<NamespacedName>): TLSRun {
    if order == [] then r
    else
      var before, service := ApplyPorts(r, route, order[..|order| - 1]), order[|order| - 1];
      TLSRun(
        VisitedPorts(before.policies, service, RoutePort(route, service)),
        before.annotation.AddDestination(TLSPolicyID(service)))
  }

  datatype TLSOutcome = TLSOutcome(policies: TLSPolicies, annotation: Annotation, failed: bool)

  predicate IsHTTPS(value: string) {
    ToLower(value) == "https"
  }

  ghost function HandleProtocol(
    g: TLSPolicies, a: Annotation, route: HTTPRoute, order: seq<NamespacedName>): TLSOutcome {
    if ToLower(a.value) == "http" then TLSOutcome(g, a.SetStatus(Completed), false)
    else if IsHTTPS(a.value) then
      var r := ApplyPorts(TLSRun(g, a), route, order);
      if order == [] then
        TLSOutcome(r.policies, r.annotation.SetStatus(Error).RegisterIssue(Issue(CreatingBackendTLSPolicy, None)), true)
      else TLSOutcome(r.policies, r.annotation.SetStatus(Completed), false)
    else TLSOutcome(g, a.SetStatus(Error).RegisterIssue(Issue(UnsupportBackendProtocol, None)), true)
  }

  /** `backendTLSPortSet`. */
  class BackendTLSPortSet {
    var ports: set<int>

    constructor (ports: seq<int>)
      ensures this.ports == SetOf(ports)
    {
      this.ports := SetOf(ports);
    }

    method InsertInt(port: int)
      modifies this
      ensures ports == old(ports) + {port}
    {
      ports := ports + {port};
    }

    method List() returns (list: seq<int>)
      ensures list == Ascending(ports)
    {
      var unsorted := ListKeys(ports);
      list := Sort(unsorted, IntLess);
      AscendingIsUnique(ports, unsorted);
    }
  }

  /** The ports of a policy and one more, if there is one. */
  method PortsWith(spec: seq<int>, port: Option<int>) returns (list: seq<int>)
    ensures list == Ascending(SetOf(spec) + PortSet(port))
  {
    hide Ascending;
    var ports := new BackendTLSPortSet(spec);
    if port.Some? {
      ports.InsertInt(port.value);
    }
    list := ports.List();
    assert ports.ports == SetOf(spec) + PortSet(port);
  }

  /** The function the handler applies to each service. */
  method WritePorts(graph: AGCResourceGraph, annotationCtx: IngressAnnotationContext, service: ServiceDetails)
    requires graph.Valid()
    modifies graph`backendTLSPolicies, annotationCtx`status, annotationCtx`destinationResources
    ensures graph.Valid()
    ensures graph.backendTLSPolicies == VisitedPorts(old(graph.backendTLSPolicies), service.name, service.port)
    ensures annotationCtx.View() == old(annotationCtx.View()).AddDestination(TLSPolicyID(service.name))
  {
    hide Ascending;
    hide SetOf;
    hide Next;
    hide PolicyName;
    var policy := graph.GetOrCreateBackendTLSPolicy(service.name);
    var list := PortsWith(policy.spec, service.port);
    graph.backendTLSPolicies := graph.backendTLSPolicies[policy.name := policy.(spec := list)];
    annotationCtx.AddDestination(ResourceID(ALB_API_VERSION, KIND_BACKEND_TLS_POLICY, policy.name));
  }

  /** `handleBackendProtocol`. */
  method HandleBackendProtocol(
    graph: AGCResourceGraph, routeCtx: HTTPRouteContext, annotationCtx: IngressAnnotationContext,
    order: seq<NamespacedName>)
    returns (failed: bool)
    requires graph.Valid() && Lists(order, RouteServices(routeCtx.route))
    modifies graph`backendTLSPolicies, annotationCtx`status, annotationCtx`destinationResources, annotationCtx`issues
    ensures graph.Valid()
    ensures TLSOutcome(graph.backendTLSPolicies, annotationCtx.View(), failed)
         == HandleProtocol(old(graph.backendTLSPolicies), old(annotationCtx.View()), routeCtx.route, order)
  {
    hide VisitedPorts;
    hide ToLower;
    var protocol := ToLower(annotationCtx.value);
    assert "http" != "https";
    if protocol == "http" {
      annotationCtx.SetStatus(Completed);
      return false;
    } else if protocol == "https" {
      var backends := NewBackendGroup(routeCtx);
      var allAppliesFailed := true;
      ghost var r := TLSRun(graph.backendTLSPolicies, annotationCtx.View());
      for i := 0 to |order|
        invariant graph.Valid()
        invariant TLSRun(graph.backendTLSPolicies, annotationCtx.View()) == ApplyPorts(r, routeCtx.route, order[..i])
        invariant allAppliesFailed == (i == 0)
      {
        assert order[..i + 1][..i] == order[..i];
        assert order[i] in order;
        WritePorts(graph, annotationCtx, backends[order[i]]);
        allAppliesFailed := false;
      }
      assert order[..|order|] == order;
      if allAppliesFailed {
        annotationCtx.SetStatus(Error);
        annotationCtx.RegisterIssue(Issue(CreatingBackendTLSPolicy, None));
        return true;
      }
      annotationCtx.SetStatus(Completed);
      return false;
    } else {
      annotationCtx.SetStatus(Error);
      annotationCtx.RegisterIssue(Issue(UnsupportBackendProtocol, None));
      return true;
    }
  }
}
