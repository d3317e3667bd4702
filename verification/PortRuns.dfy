/** The ports of the backend TLS policies over a whole run. */
module PortRuns {
  import opened Text
  import opened Ordering
  import opened Annotations
  import opened Resources
  import opened Gateways
  import opened BackendGroups
  import opened Filters
  import opened RuleSets
  import opened Probes
  import opened BackendTLS
  import opened Handlers
  import opened Ingresses
  import opened Routing

  function ProtocolKey(): string {
    KeyOf(BackendProtocol)
  }

  predicate AsksHTTPS(annotations: map<string, Annotation>) {
    ProtocolKey() in annotations && IsHTTPS(annotations[ProtocolKey()].value)
  }

  /** The ports held for a service. */
  function Held(g: TLSPolicies, service: NamespacedName): set<int> {
    SetOf(PortsOf(g, service))
  }

  ghost predicate AllAscending(g: TLSPolicies) {
    forall k | k in g :: StrictlySorted(g[k].spec, IntLess)
  }

  lemma VisitAddsPort(g: TLSPolicies, visited: NamespacedName, port: Option<int>, service: NamespacedName)
    requires AllAscending(g)
    ensures AllAscending(VisitedPorts(g, visited, port))
    ensures Held(VisitedPorts(g, visited, port), service)
         == Held(g, service) + if service == visited then PortSet(port) else {}
  {
    hide StrictlySorted;
    hide PolicyName;
    if PolicyName(service) == PolicyName(visited) {
      PolicyNameInjective(service, visited);
    }
    assert SetOf<int>([]) == {};
    assert AllAscending(Inserted(g, NewBackendTLSPolicy(visited))) by { EmptyAscends(); }
  }

  lemma EmptyAscends()
    ensures StrictlySorted([], IntLess)
  {
  }

  lemma {:induction false} ApplyAddsPorts(
    r: TLSRun, route: HTTPRoute, order: seq<NamespacedName>, service: NamespacedName)
    requires AllAscending(r.policies)
    ensures AllAscending(ApplyPorts(r, route, order).policies)
    ensures Held(ApplyPorts(r, route, order).policies, service)
         == Held(r.policies, service) + if service in order then PortSet(RoutePort(route, service)) else {}
  {
    hide Held;
    hide AllAscending;
    hide VisitedPorts;
    hide RoutePort;
    if order != [] {
      var init, last := order[..|order| - 1], order[|order| - 1];
      assert order == init + [last];
      ApplyAddsPorts(r, route, init, service);
      VisitAddsPort(ApplyPorts(r, route, init).policies, last, RoutePort(route, last), service);
    }
  }

  /** One call of the handler adds, to each service of the route, its first port. */
  lemma ProtocolAddsPorts(
    g: TLSPolicies, a: Annotation, route: HTTPRoute, order: seq<NamespacedName>, service: NamespacedName)
    requires AllAscending(g) && Lists(order, RouteServices(route))
    ensures AllAscending(HandleProtocol(g, a, route, order).policies)
    ensures Held(HandleProtocol(g, a, route, order).policies, service)
         == Held(g, service) + if IsHTTPS(a.value) then PortSet(RoutePort(route, service)) else {}
  {
    hide Held;
    hide AllAscending;
    hide ToLower;
    hide ApplyPorts;
    hide FirstPort;
    assert "http" != "https";
    ApplyAddsPorts(TLSRun(g, a), route, order, service);
    if service !in order {
      NoPortWithoutRef(Refs(route.rules), route.name.namespace, service);
    }
  }

  /** Running the handler again changes no port. */
  lemma ProtocolIsIdempotent(
    g: TLSPolicies, a: Annotation, b: Annotation, route: HTTPRoute, order: seq<NamespacedName>,
    again: seq<NamespacedName>,
    service: NamespacedName)
    requires AllAscending(g) && Lists(order, RouteServices(route)) && Lists(again, RouteServices(route))
    requires a.value == b.value
    ensures var once := HandleProtocol(g, a, route, order).policies;
            PortsOf(HandleProtocol(once, b, route, again).policies, service) == PortsOf(once, service)
  {
    hide HandleProtocol;
    hide RoutePort;
    hide IsHTTPS;
    var once := HandleProtocol(g, a, route, order).policies;
    var twice := HandleProtocol(once, b, route, again).policies;
    ProtocolAddsPorts(g, a, route, order, service);
    ProtocolAddsPorts(once, b, route, again, service);
    assert Held(twice, service) == Held(once, service);
    AscendingDetermined(PortsOf(twice, service), PortsOf(once, service));
  }

  lemma AscendingDetermined(a: seq<int>, b: seq<int>)
    requires StrictlySorted(a, IntLess) && StrictlySorted(b, IntLess) && SetOf(a) == SetOf(b)
    ensures a == b
  {
    AscendingLists(a);
    AscendingLists(b);
    ListedMultiset(a, SetOf(a));
    ListedMultiset(b, SetOf(a));
    SortedIsUnique(a, b, IntLess);
  }

  lemma AscendingLists(a: seq<int>)
    requires StrictlySorted(a, IntLess)
    ensures Lists(a, SetOf(a)) && Sorted(a, IntLess)
  {
    forall i, j | 0 <= i < j < |a| ensures a[i] != a[j] && !IntLess(a[j], a[i]) {
      assert IntLess(a[i], a[j]);
    }
  }

  // ---------- One pass ----------

  lemma OtherVisitKeepsPorts(
    env: Env, ingress: Ingress, sections: set<string>, w: World, route: HTTPRoute, key: string, a: Annotation,
    orders: Orders)
    requires key != ProtocolKey()
    ensures Visit(env, ingress, sections, w, route, key, a, orders).world.graph.backendTLSPolicies
         == w.graph.backendTLSPolicies
  {
    hide KeyOf;
    hide HandlerFor;
    hide ExtendListeners;
    hide ApplyOp;
    hide HandleRuleSet;
    hide HandleProbe;
    hide ApplyProfile;
    hide ParseInt;
    if key != LAST_APPLIED && HandlerFor(key).Some? {
      Dispatch(key, HandlerFor(key).value);
      match HandlerFor(key).value {
        case HostnameExtension =>
          ExtendKeepsRouting(env.naming, ingress, sections, w, route, HostNames(Split(a.value, ',')));
        case _ =>
      }
    }
  }

  lemma SamePort(a: HTTPRoute, b: HTTPRoute, service: NamespacedName)
    requires SameRouting(a, b)
    ensures RoutePort(a, service) == RoutePort(b, service) && RouteServices(a) == RouteServices(b)
  {
    hide FirstPort;
    hide Services;
    RefsOfBare(a.rules);
    RefsOfBare(b.rules);
  }

  lemma VisitOnePorts(
    env: Env, ingress: Ingress, sections: set<string>, schedule: Schedule, i: nat, p: Pass, key: string,
    service: NamespacedName)
    requires key in p.annotations && AllAscending(p.world.graph.backendTLSPolicies)
    requires Lists(schedule.services(i, key, RouteServices(p.route)), RouteServices(p.route))
    ensures var r := VisitOne(env, ingress, sections, schedule, i, p, key);
            && AllAscending(r.world.graph.backendTLSPolicies)
            && SameRouting(r.route, p.route)
            && r.annotations[key].value == p.annotations[key].value
            && r.annotations == p.annotations[key := r.annotations[key]]
            && Held(r.world.graph.backendTLSPolicies, service)
            == Held(p.world.graph.backendTLSPolicies, service)
               + if key == ProtocolKey() && IsHTTPS(p.annotations[key].value)
                 then PortSet(RoutePort(p.route, service)) else {}
  {
    hide KeyOf;
    hide HandlerFor;
    hide HandleProtocol;
    hide Held;
    hide AllAscending;
    hide RoutePort;
    hide RouteServices;
    hide IsHTTPS;
    hide SameRouting;
    var orders := OrdersAt(schedule, i, key, p.world, p.route);
    var a := p.annotations[key];
    VisitKeepsRouting(env, ingress, sections, p.world, p.route, key, a, orders);
    VisitKeepsValue(env, ingress, sections, p.world, p.route, key, a, orders);
    if key == ProtocolKey() {
      Dispatch(key, BackendProtocol);
      ProtocolAddsPorts(p.world.graph.backendTLSPolicies, a, p.route, orders.services, service);
      assert Visit(env, ingress, sections, p.world, p.route, key, a, orders)
          == Handle(env, ingress, sections, p.world, p.route, a, BackendProtocol, orders);
    } else {
      hide Visit;
      OtherVisitKeepsPorts(env, ingress, sections, p.world, p.route, key, a, orders);
    }
  }

  /** The ports one pass over the annotations adds. */
  lemma {:induction false} VisitAllPorts(
    env: Env, ingress: Ingress, sections: set<string>, schedule: Schedule, i: nat, p: Pass, order: seq<string>,
    service: NamespacedName)
    requires AllAscending(p.world.graph.backendTLSPolicies)
    requires forall k | k in order :: k in p.annotations
    requires forall k, s: set<NamespacedName> :: Lists(schedule.services(i, k, s), s)
    ensures var r := VisitAll(env, ingress, sections, schedule, i, p, order);
            && AllAscending(r.world.graph.backendTLSPolicies)
            && SameRouting(r.route, p.route)
            && (forall k | k in p.annotations :: r.annotations[k].value == p.annotations[k].value)
            && Held(r.world.graph.backendTLSPolicies, service)
            == Held(p.world.graph.backendTLSPolicies, service)
               + if ProtocolKey() in order && IsHTTPS(p.annotations[ProtocolKey()].value)
                 then PortSet(RoutePort(p.route, service)) else {}
  {
    hide VisitOne;
    hide KeyOf;
    hide Held;
    hide AllAscending;
    hide IsHTTPS;
    hide RoutePort;
    hide Lists;
    if order != [] {
      var init, last := order[..|order| - 1], order[|order| - 1];
      assert order == init + [last];
      VisitAllPorts(env, ingress, sections, schedule, i, p, init, service);
      var q := VisitAll(env, ingress, sections, schedule, i, p, init);
      VisitOnePorts(env, ingress, sections, schedule, i, q, last, service);
      SamePort(q.route, p.route, service);
    }
  }

  // ---------- One ingress ----------

  /** The first port the first `n` rules of a host give a service. */
  function HostPort(ingress: Ingress, host: string, n: nat, service: NamespacedName): Option<int>
    requires n <= |ingress.rules|
  {
    FirstPort(Refs(HostRules(ingress, host, n)), ingress.name.namespace, service)
  }

  /** The ports found by the passes of the first `n` rules. */
  function PassPorts(ingress: Ingress, n: nat, service: NamespacedName): set<int>
    requires n <= |ingress.rules|
  {
    if n == 0 then {}
    else
      PassPorts(ingress, n - 1, service)
      + if ingress.rules[n - 1].http.Some?
        then PortSet(HostPort(ingress, ingress.rules[n - 1].host, n, service)) else {}
  }

  lemma {:induction false} HostPortStays(ingress: Ingress, host: string, m: nat, n: nat, service: NamespacedName)
    requires m <= n <= |ingress.rules| && HostPort(ingress, host, m, service).Some?
    ensures HostPort(ingress, host, n, service) == HostPort(ingress, host, m, service)
  {
    hide FirstPort;
    hide TranslatePaths;
    if m < n {
      HostPortStays(ingress, host, m, n - 1, service);
      var before, rule := HostRules(ingress, host, n - 1), ingress.rules[n - 1];
      if rule.host == host && rule.http.Some? {
        RefsOfConcat(before, TranslatePaths(rule.http.value));
        FirstPortOfConcat(Refs(before), Refs(TranslatePaths(rule.http.value)), ingress.name.namespace, service);
      } else {
        assert HostRules(ingress, host, n) == before;
      }
    }
  }

  /** The passes find exactly the first port of each host. */
  lemma {:induction false} PassPortsAreHostPorts(ingress: Ingress, n: nat, service: NamespacedName, port: int)
    requires n <= |ingress.rules|
    ensures port in PassPorts(ingress, n, service) <==> exists h :: HostPort(ingress, h, n, service) == Some(port)
  {
    hide HostPort;
    if n == 0 {
      forall h ensures HostPort(ingress, h, 0, service) == None {
        NoHostPort(ingress, h, service);
      }
    } else {
      PassPortsAreHostPorts(ingress, n - 1, service, port);
      var rule := ingress.rules[n - 1];
      if port in PassPorts(ingress, n - 1, service) {
        var h :| HostPort(ingress, h, n - 1, service) == Some(port);
        HostPortStays(ingress, h, n - 1, n, service);
        assert HostPort(ingress, h, n, service) == Some(port);
      } else if port in PassPorts(ingress, n, service) {
        assert HostPort(ingress, rule.host, n, service) == Some(port);
      }
      if h :| HostPort(ingress, h, n, service) == Some(port) {
        if h != rule.host || rule.http.None? {
          OtherHostPort(ingress, h, n, service);
          assert HostPort(ingress, h, n - 1, service) == Some(port);
        }
      }
    }
  }

  lemma NoHostPort(ingress: Ingress, host: string, service: NamespacedName)
    ensures HostPort(ingress, host, 0, service) == None
  {
  }

  lemma OtherHostPort(ingress: Ingress, host: string, n: nat, service: NamespacedName)
    requires 0 < n <= |ingress.rules| && (ingress.rules[n - 1].host != host || ingress.rules[n - 1].http.None?)
    ensures HostPort(ingress, host, n, service) == HostPort(ingress, host, n - 1, service)
  {
    assert HostRules(ingress, host, n) == HostRules(ingress, host, n - 1);
  }

  lemma PassPort(env: Env, ingress: Ingress, s: IngressRun, i: nat, service: NamespacedName)
    requires i < |ingress.rules| && ingress.rules[i].http.Some? && RoutesAreTranslations(env, ingress, s, i)
    ensures RoutePort(PassStart(env.naming, ingress, s, i).route, service)
         == HostPort(ingress, ingress.rules[i].host, i + 1, service)
    ensures PassStart(env.naming, ingress, s, i).world.graph.backendTLSPolicies == s.world.graph.backendTLSPolicies
  {
    hide FirstPort;
    hide TranslatePaths;
    hide RouteFor;
    var rule := ingress.rules[i];
    RouteForHost(env, ingress, s, i);
    var (w, route) := RouteFor(env.naming, ingress, s, rule.host);
    BareOfConcat(route.rules, TranslatePaths(rule.http.value));
    TranslatedIsBare(rule.http.value);
    RefsOfBare(route.rules + TranslatePaths(rule.http.value));
  }

  lemma RuleAddsPorts(env: Env, ingress: Ingress, schedule: Schedule, s: IngressRun, i: nat, service: NamespacedName)
    requires i < |ingress.rules| && ValidSchedule(schedule, s.annotations.Keys)
    requires RoutesAreTranslations(env, ingress, s, i)
    requires AllAscending(s.world.graph.backendTLSPolicies)
    ensures var r := HandleRule(env, ingress, schedule, s, i);
            && AllAscending(r.world.graph.backendTLSPolicies)
            && (forall k | k in s.annotations :: r.annotations[k].value == s.annotations[k].value)
            && Held(r.world.graph.backendTLSPolicies, service)
            == Held(s.world.graph.backendTLSPolicies, service)
               + if ingress.rules[i].http.Some? && AsksHTTPS(s.annotations)
                 then PortSet(HostPort(ingress, ingress.rules[i].host, i + 1, service)) else {}
  {
    hide KeyOf;
    hide VisitAll;
    hide Held;
    hide AllAscending;
    hide IsHTTPS;
    hide RoutePort;
    hide HostPort;
    hide RoutesAreTranslations;
    if ingress.rules[i].http.Some? {
      var start, order := PassStart(env.naming, ingress, s, i), schedule.annotations(i);
      assert forall k :: k in order <==> k in s.annotations;
      PassPort(env, ingress, s, i, service);
      hide PassStart;
      StartKeepsAnnotations(env.naming, ingress, s, i);
      VisitAllPorts(env, ingress, SectionsOf(start.route.parentRefs), schedule, i, start, order, service);
    } else {
      NewRouteIsEmpty(env.naming, s.world, ingress, ingress.rules[i].host);
    }
  }

  lemma StartKeepsAnnotations(naming: Naming, ingress: Ingress, s: IngressRun, i: nat)
    requires i < |ingress.rules| && ingress.rules[i].http.Some?
    ensures PassStart(naming, ingress, s, i).annotations == s.annotations
  {
  }

  lemma {:induction false} RulesAddPorts(
    env: Env, ingress: Ingress, schedule: Schedule, s: IngressRun, n: nat, service: NamespacedName)
    requires n <= |ingress.rules| && ValidSchedule(schedule, s.annotations.Keys) && s.routes == map[]
    requires AllAscending(s.world.graph.backendTLSPolicies)
    ensures var r := HandleRules(env, ingress, schedule, s, n);
            && AllAscending(r.world.graph.backendTLSPolicies)
            && (forall k | k in s.annotations :: r.annotations[k].value == s.annotations[k].value)
            && Held(r.world.graph.backendTLSPolicies, service)
            == Held(s.world.graph.backendTLSPolicies, service)
               + if AsksHTTPS(s.annotations) then PassPorts(ingress, n, service) else {}
  {
    hide HandleRule;
    hide RoutesAreTranslations;
    hide ValidSchedule;
    hide AllAscending;
    hide Held;
    hide IsHTTPS;
    hide KeyOf;
    hide HostPort;
    if n > 0 {
      RulesAddPorts(env, ingress, schedule, s, n - 1, service);
      TranslationsHold(env, ingress, schedule, s, n - 1);
      RuleAddsPorts(env, ingress, schedule, HandleRules(env, ingress, schedule, s, n - 1), n - 1, service);
    }
  }

  // ---------- A whole run ----------

  /** An ingress served over HTTPS gives a service a port: the first port one of its hosts uses it with. */
  ghost predicate GivesPort(input: Input, service: NamespacedName, port: int) {
    AsksHTTPS(input.annotations)
    && exists host :: HostPort(input.ingress, host, |input.ingress.rules|, service) == Some(port)
  }

  lemma IngressAddsPorts(env: Env, input: Input, schedule: Schedule, w: World, service: NamespacedName, port: int)
    requires ValidSchedule(schedule, input.annotations.Keys) && AllAscending(w.graph.backendTLSPolicies)
    ensures var r := HandleIngress(env, input.ingress, schedule, w, input.annotations);
            && AllAscending(r.world.graph.backendTLSPolicies)
            && (port in Held(r.world.graph.backendTLSPolicies, service) <==>
                port in Held(w.graph.backendTLSPolicies, service) || GivesPort(input, service, port))
  {
    hide HandleRules;
    hide AllAscending;
    hide Held;
    hide HostPort;
    hide PassPorts;
    hide IsHTTPS;
    hide KeyOf;
    var n := |input.ingress.rules|;
    GrantsOnly(w, input.ingress, |input.ingress.tls|);
    RulesAddPorts(env, input.ingress, schedule, IngressStart(w, input.ingress, input.annotations), n, service);
    PassPortsAreHostPorts(input.ingress, n, service, port);
  }

  /** Over a run, a service's policy lists in strictly increasing order exactly the ports the ingresses give it. */
  lemma {:induction false} RunCollectsPorts(
    env: Env, inputs: map<NamespacedName, Input>, schedules: NamespacedName -> Schedule, w: World,
    order: seq<NamespacedName>,
    service: NamespacedName, port: int)
    requires ValidInput(inputs, schedules) && (forall k | k in order :: k in inputs)
    requires w.graph.backendTLSPolicies == map[]
    ensures var g := HandleIngresses(env, inputs, schedules, w, order).world.graph.backendTLSPolicies;
            && AllAscending(g) && StrictlySorted(PortsOf(g, service), IntLess)
            && (port in PortsOf(g, service) <==> exists k :: k in order && GivesPort(inputs[k], service, port))
  {
    hide HandleIngress;
    hide GivesPort;
    if order == [] {
    } else {
      var init, last := order[..|order| - 1], order[|order| - 1];
      assert order == init + [last] && last in order;
      RunCollectsPorts(env, inputs, schedules, w, init, service, port);
      var before := HandleIngresses(env, inputs, schedules, w, init).world;
      IngressAddsPorts(env, inputs[last], schedules(last), before, service, port);
      assert forall g: TLSPolicies :: port in Held(g, service) <==> port in PortsOf(g, service);
    }
  }
}
