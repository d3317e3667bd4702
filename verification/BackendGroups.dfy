/** The services behind a route. */
module BackendGroups {
  import opened Text
  import opened Ordering
  import opened Resources
  import opened Gateways

  datatype ServiceDetails = ServiceDetails(name: NamespacedName, port: Option<int>)

  predicate IsServiceRef(ref: BackendRef) {
    ref.kind.None? || ref.kind.value == "Service"
  }

  /** `NamespaceDerefOr`: the route's namespace stands in for a missing or empty one. */
  function ServiceOf(ref: BackendRef, routeNamespace: string): NamespacedName {
    NamespacedName(
      if ref.namespace.Some? && ref.namespace.value != "" then ref.namespace.value else routeNamespace, ref.name)
  }

  /** All backend references of a list of rules, in order. */
  function Refs(rules: seq<RouteRule>): seq<BackendRef> {
    if rules == [] then [] else Refs(rules[..|rules| - 1]) + rules[|rules| - 1].backendRefs
  }

  predicate RefersTo(ref: BackendRef, routeNamespace: string, service: NamespacedName) {
    IsServiceRef(ref) && ServiceOf(ref, routeNamespace) == service
  }

  function Services(refs: seq<BackendRef>, routeNamespace: string): set<NamespacedName> {
    set r | r in refs && IsServiceRef(r) :: ServiceOf(r, routeNamespace)
  }

  /** The port of the first reference to the service that has one. */
  function FirstPort(refs: seq<BackendRef>, routeNamespace: string, service: NamespacedName): Option<int> {
    if refs == [] then None
    else if RefersTo(refs[0], routeNamespace, service) && refs[0].port.Some? then refs[0].port
    else FirstPort(refs[1..], routeNamespace, service)
  }

  function RouteServices(route: HTTPRoute): set<NamespacedName> {
    Services(Refs(route.rules), route.name.namespace)
  }

  function RoutePort(route: HTTPRoute, service: NamespacedName): Option<int> {
    FirstPort(Refs(route.rules), route.name.namespace, service)
  }

  /** The services of a route, on the fields of its references: the kind and the namespace may be left out. */
  lemma ServicesByField(route: HTTPRoute, service: NamespacedName)
    ensures service in RouteServices(route) <==>
              exists rule, ref | rule in route.rules && ref in rule.backendRefs ::
                (ref.kind.None? || ref.kind.value == "Service") && ref.name == service.name
                && service.namespace == if ref.namespace.GetOr("") == "" then route.name.namespace
                                        else ref.namespace.value
  {
    RefsOfRules(route.rules);
    forall ref ensures RefersTo(ref, route.name.namespace, service) <==>
                         (ref.kind.None? || ref.kind.value == "Service") && ref.name == service.name
                         && service.namespace == if ref.namespace.GetOr("") == "" then route.name.namespace
                                                 else ref.namespace.value
    {
    }
    assert service in RouteServices(route) <==>
             exists ref | ref in Refs(route.rules) :: RefersTo(ref, route.name.namespace, service);
  }

  lemma {:induction false} RefsOfRules(rules: seq<RouteRule>)
    ensures forall ref :: ref in Refs(rules) <==> exists rule :: rule in rules && ref in rule.backendRefs
  {
    if rules != [] {
      var init, last := rules[..|rules| - 1], rules[|rules| - 1];
      RefsOfRules(init);
      assert rules == init + [last];
      assert forall r :: r in rules <==> r in init || r == last;
    }
  }

  lemma {:induction false} FirstPortOfConcat(
    a: seq<BackendRef>, b: seq<BackendRef>, ns: string, service: NamespacedName)
    ensures FirstPort(a + b, ns, service)
         == if FirstPort(a, ns, service).Some? then FirstPort(a, ns, service) else FirstPort(b, ns, service)
  {
    if a == [] {
      assert a + b == b;
    } else {
      FirstPortOfConcat(a[1..], b, ns, service);
      assert (a + b)[1..] == a[1..] + b;
    }
  }

  lemma ServicesOfConcat(a: seq<BackendRef>, b: seq<BackendRef>, ns: string)
    ensures Services(a + b, ns) == Services(a, ns) + Services(b, ns)
  {
    assert forall r :: r in a + b <==> r in a || r in b;
  }

  /** The group as a map, as far as the given references have been read. */
  ghost predicate IsGroup(services: map<NamespacedName, ServiceDetails>, refs: seq<BackendRef>, ns: string) {
    && services.Keys == Services(refs, ns)
    && forall s | s in services :: services[s] == ServiceDetails(s, FirstPort(refs, ns, s))
  }

  lemma GroupSnoc(
    services: map<NamespacedName, ServiceDetails>, refs: seq<BackendRef>, ns: string,
    ref: BackendRef, updated: map<NamespacedName, ServiceDetails>)
    requires IsGroup(services, refs, ns)
    requires var s := ServiceOf(ref, ns);
             updated ==
             if !IsServiceRef(ref) then services
             else if s !in services then services[s := ServiceDetails(s, ref.port)]
             else if services[s].port.None? then services[s := services[s].(port := ref.port)]
             else services
    ensures IsGroup(updated, refs + [ref], ns)
  {
    ServicesOfConcat(refs, [ref], ns);
    assert Services([ref], ns) == if IsServiceRef(ref) then {ServiceOf(ref, ns)} else {} by { assert ref in [ref]; }
    forall s | s in updated ensures updated[s] == ServiceDetails(s, FirstPort(refs + [ref], ns, s)) {
      FirstPortOfConcat(refs, [ref], ns, s);
      assert FirstPort([ref], ns, s) == if RefersTo(ref, ns, s) then ref.port else None;
      if s !in services {
        NoPortWithoutRef(refs, ns, s);
      }
    }
  }

  lemma {:induction false} NoPortWithoutRef(refs: seq<BackendRef>, ns: string, service: NamespacedName)
    requires service !in Services(refs, ns)
    ensures FirstPort(refs, ns, service).None?
  {
    if refs != [] {
      assert refs[0] in refs;
      assert forall r | r in refs[1..] :: r in refs;
      NoPortWithoutRef(refs[1..], ns, service);
    }
  }

  /** `NewBackendGroup`: every service a rule refers to, with its first port. */
  method NewBackendGroup(routeCtx: HTTPRouteContext) returns (services: map<NamespacedName, ServiceDetails>)
    ensures services.Keys == RouteServices(routeCtx.route)
    ensures forall s | s in services :: services[s] == ServiceDetails(s, RoutePort(routeCtx.route, s))
  {
    hide FirstPort;
    hide Services;
    hide IsServiceRef;
    hide ServiceOf;
    services := map[];
    var rules, ns := routeCtx.route.rules, routeCtx.route.name.namespace;
    EmptyGroup(ns);
    for i := 0 to |rules|
      invariant IsGroup(services, Refs(rules[..i]), ns)
    {
      var backendRefs := rules[i].backendRefs;
      ghost var before := Refs(rules[..i]);
      assert before + backendRefs[..0] == before;
      for j := 0 to |backendRefs|
        invariant IsGroup(services, before + backendRefs[..j], ns)
      {
        var ref := backendRefs[j];
        ghost var was := services;
        assert before + backendRefs[..j + 1] == (before + backendRefs[..j]) + [ref];
        if IsServiceRef(ref) {
          var name := ServiceOf(ref, ns);
          if name in services {
            if services[name].port.None? {
              services := services[name := services[name].(port := ref.port)];
            }
          } else {
            services := services[name := ServiceDetails(name, ref.port)];
          }
        }
        GroupSnoc(was, before + backendRefs[..j], ns, ref, services);
      }
      assert backendRefs[..|backendRefs|] == backendRefs;
      assert rules[..i + 1][..i] == rules[..i];
    }
    assert rules[..|rules|] == rules;
  }

  lemma EmptyGroup(ns: string)
    ensures IsGroup(map[], Refs([]), ns)
  {
  }

  /** `Apply` on the outcomes of its calls: an error if any call failed, or if none succeeded. */
  function ApplyFails(failures: seq<bool>): (r: bool)
    ensures r <==> failures == [] || true in failures
  {
    assert failures != [] ==> if failures[0] then true in failures else false in failures;
    true in failures || false !in failures
  }
}
