/** The policies of the routes and of the gateway after a conversion: timeouts, cookie affinity, firewall policies. */
module RoutePolicies {
  import opened Text
  import opened Ordering
  import opened Annotations
  import opened Resources
  import opened Gateways
  import opened Filters
  import opened RuleSets
  import opened Probes
  import opened BackendTLS
  import opened Handlers
  import opened Ingresses
  import opened Routing
  import opened Lifting
  import opened RunMeaning

  // ---------- The settings of one route ----------

  /** The settings a route has by policies: its timeout, its cookie affinity, and its firewall policy. */
  datatype Settings = Settings(timeout: Option<int>, cookie: bool, firewall: Option<string>)

  function SettingsOf(g: Graph, route: NamespacedName): Settings {
    var policy := NamespacedName(route.namespace, route.name + "-policy");
    var firewall := NamespacedName(route.namespace, "httproute-" + route.namespace + "-" + route.name + "-policy");
    Settings(
      if policy in g.routePolicies then g.routePolicies[policy].spec.routeTimeout else None,
      policy in g.routePolicies && g.routePolicies[policy].spec.managedCookie,
      if firewall in g.wafPolicies then Some(g.wafPolicies[firewall].spec) else None)
  }

  /** A number of seconds, in nanoseconds as a 64-bit number. */
  function TimeoutFor(value: string): Option<int> {
    match ParseInt(value, 0x8000_0000_0000_0000)
    case None => None
    case Some(n) => Some(WrapInt64(n * 1_000_000_000))
  }

  /** What the annotation makes of the settings of the route it is visited on. */
  function Changed(s: Settings, key: string, value: string): Settings {
    if key == AppGW("request-timeout") then
      s.(timeout := if TimeoutFor(value).Some? then TimeoutFor(value) else s.timeout)
    else if key == AppGW("cookie-based-affinity") then
      s.(cookie := s.cookie || value in {"1", "t", "T", "TRUE", "true", "True"})
    else if key == AppGW("waf-policy-for-path") then s.(firewall := Some(value))
    else s
  }

  lemma PolicyNames(route: NamespacedName)
    ensures PolicyName(route) == NamespacedName(route.namespace, route.name + "-policy")
    ensures NewRouteWAFPolicy(route).name
         == NamespacedName(route.namespace, "httproute-" + route.namespace + "-" + route.name + "-policy")
  {
    assert "httproute" + "-" == "httproute-";
  }

  lemma SameNames(a: NamespacedName, b: NamespacedName)
    ensures PolicyName(a) == PolicyName(b) <==> a == b
    ensures NewRouteWAFPolicy(a).name == NewRouteWAFPolicy(b).name <==> a == b
  {
    if PolicyName(a) == PolicyName(b) {
      PolicyNameInjective(a, b);
    }
    if NewRouteWAFPolicy(a).name == NewRouteWAFPolicy(b).name {
      WAFPolicyNameInjective("httproute", KIND_HTTP_ROUTE, a, b);
    }
  }

  lemma TimeoutSettings(w: World, route: HTTPRoute, a: Annotation, name: NamespacedName)
    ensures var s := SettingsOf(w.graph, name);
            SettingsOf(HandleRequestTimeout(w, route, a).world.graph, name)
            == if route.name == name && TimeoutFor(a.value).Some? then s.(timeout := TimeoutFor(a.value)) else s
  {
    hide ParseInt;
    PolicyNames(name);
    SameNames(route.name, name);
    hide PolicyName;
    hide NewRouteWAFPolicy;
  }

  lemma CookieSettings(w: World, route: HTTPRoute, a: Annotation, name: NamespacedName)
    ensures var s := SettingsOf(w.graph, name);
            SettingsOf(HandleCookieBasedAffinity(w, route, a).world.graph, name)
            == if route.name == name && a.value in {"1", "t", "T", "TRUE", "true", "True"} then s.(cookie := true)
               else s
  {
    PolicyNames(name);
    SameNames(route.name, name);
    TrueValues(a.value);
    hide PolicyName;
    hide NewRouteWAFPolicy;
    hide ParseBool;
  }

  lemma TrueValues(value: string)
    ensures ParseBool(value) == Some(true) <==> value in {"1", "t", "T", "TRUE", "true", "True"}
    ensures ParseBool(value) == Some(false) <==> value in {"0", "f", "F", "FALSE", "false", "False"}
  {
  }

  lemma FirewallSettings(w: World, route: HTTPRoute, a: Annotation, name: NamespacedName)
    ensures var s := SettingsOf(w.graph, name);
            SettingsOf(HandleWAFPolicyForPath(w, route, a).world.graph, name)
            == if route.name == name then s.(firewall := Some(a.value)) else s
  {
    PolicyNames(name);
    SameNames(route.name, name);
    hide PolicyName;
    hide NewWAFPolicy;
  }

  /** A visit changes the settings of its own route, as the annotation says, and of no other. */
  lemma VisitSettings(
    env: Env, ingress: Ingress, sections: set<string>, w: World, route: HTTPRoute, key: string, a: Annotation,
    orders: Orders, name: NamespacedName)
    ensures SettingsOf(Visit(env, ingress, sections, w, route, key, a, orders).world.graph, name)
         == if route.name == name then Changed(SettingsOf(w.graph, name), key, a.value) else SettingsOf(w.graph, name)
  {
    hide HandlerFor;
    hide KeyOf;
    hide AppGW;
    hide SettingsOf;
    hide TimeoutFor;
    hide HandleRequestTimeout;
    hide HandleCookieBasedAffinity;
    hide HandleWAFPolicyForPath;
    hide HandleRuleSet;
    hide HandleProbe;
    hide HandleProtocol;
    hide HostNames;
    hide Split;
    hide ApplyProfile;
    hide ApplyOp;
    Keys();
    Dispatch(key, RequestTimeout);
    Dispatch(key, CookieBasedAffinity);
    Dispatch(key, WAFPolicyForPath);
    TimeoutSettings(w, route, a, name);
    CookieSettings(w, route, a, name);
    FirewallSettings(w, route, a, name);
    if key != LAST_APPLIED && HandlerFor(key).Some? {
      match HandlerFor(key).value {
        case HostnameExtension =>
          ExtendKeepsRouting(env.naming, ingress, sections, w, route, HostNames(Split(a.value, ',')));
        case _ =>
      }
    }
    var h := Visit(env, ingress, sections, w, route, key, a, orders).world.graph;
    if h.routePolicies == w.graph.routePolicies && h.wafPolicies == w.graph.wafPolicies {
      SettingsByPolicies(w.graph, h, name);
    }
  }

  lemma SettingsByPolicies(g: Graph, h: Graph, name: NamespacedName)
    requires g.routePolicies == h.routePolicies && g.wafPolicies == h.wafPolicies
    ensures SettingsOf(h, name) == SettingsOf(g, name)
  {
  }

  // ---------- One ingress ----------

  /** What all annotations of an ingress together make of the settings. */
  function AllChanged(s: Settings, values: map<string, Annotation>): Settings {
    var timeout, cookie, firewall :=
      AppGW("request-timeout"), AppGW("cookie-based-affinity"), AppGW("waf-policy-for-path");
    Settings(
      if timeout in values && TimeoutFor(values[timeout].value).Some? then TimeoutFor(values[timeout].value)
      else s.timeout,
      s.cookie || (cookie in values && values[cookie].value in {"1", "t", "T", "TRUE", "true", "True"}),
      if firewall in values then Some(values[firewall].value) else s.firewall)
  }

  /** Each setting is what it was, or what is asked for. */
  predicate Toward(values: map<string, Annotation>, s: Settings, t: Settings) {
    var all := AllChanged(s, values);
    && t.timeout in {s.timeout, all.timeout} && t.cookie in {s.cookie, all.cookie}
    && t.firewall in {s.firewall, all.firewall}
  }

  ghost function SettingsRelation(values: map<string, Annotation>, name: NamespacedName): Relation {
    (w: World, v: World) => Toward(values, SettingsOf(w.graph, name), SettingsOf(v.graph, name))
  }

  ghost function Reached(key: string, value: string, name: NamespacedName): World -> bool {
    (w: World) => Changed(SettingsOf(w.graph, name), key, value) == SettingsOf(w.graph, name)
  }

  lemma KeysApart()
    ensures AppGW("request-timeout") != AppGW("cookie-based-affinity")
    ensures AppGW("request-timeout") != AppGW("waf-policy-for-path")
    ensures AppGW("cookie-based-affinity") != AppGW("waf-policy-for-path")
  {
    hide KeyOf;
    Keys();
    if KeyOf(RequestTimeout) == KeyOf(CookieBasedAffinity) { KeysDiffer(RequestTimeout, CookieBasedAffinity); }
    if KeyOf(RequestTimeout) == KeyOf(WAFPolicyForPath) { KeysDiffer(RequestTimeout, WAFPolicyForPath); }
    if KeyOf(CookieBasedAffinity) == KeyOf(WAFPolicyForPath) { KeysDiffer(CookieBasedAffinity, WAFPolicyForPath); }
  }

  lemma SettingsLift(env: Env, ingress: Ingress, values: map<string, Annotation>, name: NamespacedName)
    ensures Preorder(SettingsRelation(values, name))
    ensures VisitsAre(env, ingress, values, SettingsRelation(values, name))
    ensures OthersAre(env.naming, ingress, SettingsRelation(values, name))
  {
    hide Visit;
    hide AppGW;
    hide SettingsOf;
    hide TimeoutFor;
    hide NewRoute;
    hide GrantTLS;
    hide RouteOf;
    var r := SettingsRelation(values, name);
    KeysApart();
    forall sections, v, route, key, a: Annotation, orders
      | RouteOf(env.naming, ingress, route) && key in values && a.value == values[key].value
      ensures r(v, Visit(env, ingress, sections, v, route, key, a, orders).world)
    {
      VisitSettings(env, ingress, sections, v, route, key, a, orders, name);
    }
    forall w, i | 0 <= i < |ingress.rules| ensures r(w, NewRoute(env.naming, w, ingress, ingress.rules[i].host).0) {
      NewRouteIsEmpty(env.naming, w, ingress, ingress.rules[i].host);
      SettingsByPolicies(w.graph, NewRoute(env.naming, w, ingress, ingress.rules[i].host).0.graph, name);
    }
    forall w ensures r(w, GrantTLS(w, ingress, |ingress.tls|)) {
      GrantsOnly(w, ingress, |ingress.tls|);
      SettingsByPolicies(w.graph, GrantTLS(w, ingress, |ingress.tls|).graph, name);
    }
    forall w, route | RouteOf(env.naming, ingress, route) ensures r(w, Commit(w, route)) {
      SettingsByPolicies(w.graph, Commit(w, route).graph, name);
    }
  }

  /** What an annotation asks for is reached once it has been visited on the route. */
  lemma SettingReached(
    env: Env, ingress: Ingress, schedule: Schedule, w: World, annotations: map<string, Annotation>, host: string,
    key: string)
    requires ValidSchedule(schedule, annotations.Keys) && Committed(ingress, host, |ingress.rules|)
    requires key in annotations
    requires key in {AppGW("request-timeout"), AppGW("cookie-based-affinity"), AppGW("waf-policy-for-path")}
    ensures Reached(key, annotations[key].value, RouteNameFor(env.naming, ingress, host))(
              HandleIngress(env, ingress, schedule, w, annotations).world)
  {
    hide HandleIngress;
    hide Visit;
    hide AppGW;
    hide SettingsOf;
    hide TimeoutFor;
    hide Committed;
    hide ValidSchedule;
    hide VisitsAre;
    hide OthersAre;
    hide Preorder;
    var name := RouteNameFor(env.naming, ingress, host);
    var r, goal := SettingsRelation(annotations, name), Reached(key, annotations[key].value, name);
    SettingsLift(env, ingress, annotations, name);
    KeysApart();
    forall sections, v, route: HTTPRoute, a: Annotation, orders
      | route.name == name && key in annotations && a.value == annotations[key].value
      ensures goal(Visit(env, ingress, sections, v, route, key, a, orders).world)
    {
      VisitSettings(env, ingress, sections, v, route, key, a, orders, name);
    }
    IngressReaches(env, ingress, schedule, w, annotations, r, key, goal, host);
  }

  /** After an ingress the route of every host with paths has the settings its annotations ask for. */
  lemma IngressSetsSettings(
    env: Env, ingress: Ingress, schedule: Schedule, w: World, annotations: map<string, Annotation>, host: string)
    requires ValidSchedule(schedule, annotations.Keys) && Committed(ingress, host, |ingress.rules|)
    ensures var name := RouteNameFor(env.naming, ingress, host);
            SettingsOf(HandleIngress(env, ingress, schedule, w, annotations).world.graph, name)
            == AllChanged(SettingsOf(w.graph, name), annotations)
  {
    hide HandleIngress;
    hide AppGW;
    hide SettingsOf;
    hide TimeoutFor;
    hide Committed;
    hide ValidSchedule;
    hide VisitsAre;
    hide OthersAre;
    hide Preorder;
    var name := RouteNameFor(env.naming, ingress, host);
    SettingsLift(env, ingress, annotations, name);
    IngressSteps(env, ingress, schedule, w, annotations, SettingsRelation(annotations, name));
    KeysApart();
    if AppGW("request-timeout") in annotations {
      SettingReached(env, ingress, schedule, w, annotations, host, AppGW("request-timeout"));
    }
    if AppGW("cookie-based-affinity") in annotations {
      SettingReached(env, ingress, schedule, w, annotations, host, AppGW("cookie-based-affinity"));
    }
    if AppGW("waf-policy-for-path") in annotations {
      SettingReached(env, ingress, schedule, w, annotations, host, AppGW("waf-policy-for-path"));
    }
  }

  /** An ingress leaves the settings of all other routes as they are. */
  lemma IngressLeavesSettings(
    env: Env, ingress: Ingress, schedule: Schedule, w: World, annotations: map<string, Annotation>,
    name: NamespacedName)
    requires ValidSchedule(schedule, annotations.Keys)
    requires forall i | 0 <= i < |ingress.rules| :: RouteNameFor(env.naming, ingress, ingress.rules[i].host) != name
    ensures SettingsOf(HandleIngress(env, ingress, schedule, w, annotations).world.graph, name)
         == SettingsOf(w.graph, name)
  {
    hide HandleIngress;
    hide Visit;
    hide AppGW;
    hide SettingsOf;
    hide NewRoute;
    hide GrantTLS;
    hide ValidSchedule;
    var r: Relation := (v: World, u: World) => SettingsOf(u.graph, name) == SettingsOf(v.graph, name);
    forall sections, v, route, key, a: Annotation, orders
      | RouteOf(env.naming, ingress, route) && key in annotations && a.value == annotations[key].value
      ensures r(v, Visit(env, ingress, sections, v, route, key, a, orders).world)
    {
      VisitSettings(env, ingress, sections, v, route, key, a, orders, name);
    }
    forall v, i | 0 <= i < |ingress.rules| ensures r(v, NewRoute(env.naming, v, ingress, ingress.rules[i].host).0) {
      NewRouteIsEmpty(env.naming, v, ingress, ingress.rules[i].host);
      SettingsByPolicies(v.graph, NewRoute(env.naming, v, ingress, ingress.rules[i].host).0.graph, name);
    }
    forall v ensures r(v, GrantTLS(v, ingress, |ingress.tls|)) {
      GrantsOnly(v, ingress, |ingress.tls|);
      SettingsByPolicies(v.graph, GrantTLS(v, ingress, |ingress.tls|).graph, name);
    }
    forall v, route | RouteOf(env.naming, ingress, route) ensures r(v, Commit(v, route)) {
      SettingsByPolicies(v.graph, Commit(v, route).graph, name);
    }
    IngressSteps(env, ingress, schedule, w, annotations, r);
  }

  // ---------- A whole run ----------

  lemma {:induction false} RunLeavesSettings(
    env: Env, inputs: map<NamespacedName, Input>, schedules: NamespacedName -> Schedule, w: World,
    order: seq<NamespacedName>, name: NamespacedName)
    requires ValidInput(inputs, schedules) && (forall k | k in order :: k in inputs)
    requires forall k | k in order :: forall i | 0 <= i < |inputs[k].ingress.rules| ::
               RouteNameFor(env.naming, inputs[k].ingress, inputs[k].ingress.rules[i].host) != name
    ensures SettingsOf(HandleIngresses(env, inputs, schedules, w, order).world.graph, name) == SettingsOf(w.graph, name)
  {
    hide HandleIngress;
    hide SettingsOf;
    hide ValidSchedule;
    hide RouteNameFor;
    if order != [] {
      var init, last := order[..|order| - 1], order[|order| - 1];
      assert order == init + [last] && last in order;
      RunLeavesSettings(env, inputs, schedules, w, init, name);
      IngressLeavesSettings(env, inputs[last].ingress, schedules(last),
                            HandleIngresses(env, inputs, schedules, w, init).world, inputs[last].annotations, name);
    }
  }

  /** At the end of a run the route of every host with paths has just the settings its own ingress asks for. */
  lemma {:induction false} RunSetsSettings(
    env: Env, inputs: map<NamespacedName, Input>, schedules: NamespacedName -> Schedule, w: World,
    order: seq<NamespacedName>, k: NamespacedName, host: string)
    requires ValidInput(inputs, schedules) && (forall l | l in order :: l in inputs) && NoDuplicates(order)
    requires NamesApart(env.naming, inputs, w.gateway.name.namespace)
    requires k in order && Committed(inputs[k].ingress, host, |inputs[k].ingress.rules|)
    ensures var name := RouteNameFor(env.naming, inputs[k].ingress, host);
            SettingsOf(HandleIngresses(env, inputs, schedules, w, order).world.graph, name)
            == AllChanged(SettingsOf(w.graph, name), inputs[k].annotations)
  {
    hide HandleIngress;
    hide SettingsOf;
    hide AllChanged;
    hide ValidSchedule;
    hide DistinctRouteNames;
    hide RouteNameFor;
    var init, last := order[..|order| - 1], order[|order| - 1];
    assert order == init + [last];
    var name := RouteNameFor(env.naming, inputs[k].ingress, host);
    var before, input := HandleIngresses(env, inputs, schedules, w, init).world, inputs[last];
    var i :| 0 <= i < |inputs[k].ingress.rules| && inputs[k].ingress.rules[i].host == host
             && inputs[k].ingress.rules[i].http.Some?;
    if k == last {
      forall l | l in init ensures NamesDisjoint(env.naming, inputs[k].ingress, inputs[l].ingress) {
      }
      RunLeavesSettings(env, inputs, schedules, w, init, name);
      IngressSetsSettings(env, input.ingress, schedules(k), before, input.annotations, host);
    } else {
      RunSetsSettings(env, inputs, schedules, w, init, k, host);
      assert NamesDisjoint(env.naming, inputs[k].ingress, input.ingress);
      IngressLeavesSettings(env, input.ingress, schedules(last), before, input.annotations, name);
    }
  }

  /** After a conversion the policies of the route of every host with paths hold just the timeout, the cookie
      affinity and the firewall policy its ingress asks for. */
  lemma ConvertSetsSettings(
    env: Env, options: Options, scrapedWAFID: string,
    inputs: map<NamespacedName, Input>, schedules: NamespacedName -> Schedule, listing: seq<NamespacedName>,
    k: NamespacedName, host: string)
    requires ValidInput(inputs, schedules) && Lists(listing, inputs.Keys)
    requires NamesApart(env.naming, inputs, GatewayNamespace(options, Sort(listing, NameLess)))
    requires k in inputs && Committed(inputs[k].ingress, host, |inputs[k].ingress.rules|)
    ensures var g := Convert(env, options, scrapedWAFID, inputs, schedules, listing).world.graph;
            SettingsOf(g, NamespacedName(k.namespace, env.naming.routeName(k.name, host)))
            == AllChanged(Settings(None, false, None), inputs[k].annotations)
  {
    hide HandleIngresses;
    hide SettingsOf;
    hide AllChanged;
    hide NamesApart;
    hide Committed;
    hide NameLess;
    hide Sort;
    hide GatewayNamespace;
    NameLessIsStrictOrder();
    SortOfListing(listing, listing, inputs.Keys, NameLess);
    var sorted := Sort(listing, NameLess);
    var start := StartWorld(options, scrapedWAFID, sorted);
    NoSettingsAtStart(options, scrapedWAFID, sorted, RouteNameFor(env.naming, inputs[k].ingress, host));
    RunSetsSettings(env, inputs, schedules, start, sorted, k, host);
  }

  lemma NoSettingsAtStart(
    options: Options, scrapedWAFID: string, sorted: seq<NamespacedName>, route: NamespacedName)
    ensures SettingsOf(StartWorld(options, scrapedWAFID, sorted).graph, route) == Settings(None, false, None)
  {
    hide NewWAFPolicy;
    PolicyNames(route);
    WAFPolicyKindsDistinct(StartWorld(options, scrapedWAFID, sorted).gateway.name, route);
  }

  // ---------- The gateway ----------

  /** The firewall policy of the gateway, if it has one. */
  function GatewayFirewall(g: Graph, gateway: NamespacedName): Option<string> {
    var name := NamespacedName(gateway.namespace, "gateway-" + gateway.namespace + "-" + gateway.name + "-policy");
    if name in g.wafPolicies then Some(g.wafPolicies[name].spec) else None
  }

  lemma GatewayPolicyName(gateway: NamespacedName)
    ensures NewGatewayWAFPolicy(gateway).name
         == NamespacedName(gateway.namespace, "gateway-" + gateway.namespace + "-" + gateway.name + "-policy")
  {
    assert "gateway" + "-" == "gateway-";
  }

  lemma PathPolicyIsAnother(w: World, route: HTTPRoute, a: Annotation, gateway: NamespacedName)
    ensures GatewayFirewall(HandleWAFPolicyForPath(w, route, a).world.graph, gateway)
         == GatewayFirewall(w.graph, gateway)
  {
    hide NewWAFPolicy;
    GatewayPolicyName(gateway);
    WAFPolicyKindsDistinct(gateway, route.name);
  }

  lemma VisitLeavesGateway(
    env: Env, ingress: Ingress, sections: set<string>, w: World, route: HTTPRoute, key: string, a: Annotation,
    orders: Orders, gateway: NamespacedName)
    ensures GatewayFirewall(Visit(env, ingress, sections, w, route, key, a, orders).world.graph, gateway)
         == GatewayFirewall(w.graph, gateway)
  {
    hide HandlerFor;
    hide KeyOf;
    hide GatewayFirewall;
    hide ParseInt;
    hide ParseBool;
    hide HandleWAFPolicyForPath;
    hide HandleRuleSet;
    hide HandleProbe;
    hide HandleProtocol;
    hide HostNames;
    hide Split;
    hide ApplyProfile;
    hide ApplyOp;
    PathPolicyIsAnother(w, route, a, gateway);
    if key != LAST_APPLIED && HandlerFor(key).Some? {
      match HandlerFor(key).value {
        case HostnameExtension =>
          ExtendKeepsRouting(env.naming, ingress, sections, w, route, HostNames(Split(a.value, ',')));
        case _ =>
      }
    }
    var h := Visit(env, ingress, sections, w, route, key, a, orders).world.graph;
    if h.wafPolicies == w.graph.wafPolicies {
      FirewallByPolicies(w.graph, h, gateway);
    }
  }

  lemma FirewallByPolicies(g: Graph, h: Graph, gateway: NamespacedName)
    requires g.wafPolicies == h.wafPolicies
    ensures GatewayFirewall(h, gateway) == GatewayFirewall(g, gateway)
  {
  }

  lemma IngressLeavesGateway(
    env: Env, ingress: Ingress, schedule: Schedule, w: World, annotations: map<string, Annotation>,
    gateway: NamespacedName)
    requires ValidSchedule(schedule, annotations.Keys)
    ensures GatewayFirewall(HandleIngress(env, ingress, schedule, w, annotations).world.graph, gateway)
         == GatewayFirewall(w.graph, gateway)
  {
    hide HandleIngress;
    hide Visit;
    hide GatewayFirewall;
    hide NewRoute;
    hide GrantTLS;
    hide ValidSchedule;
    hide RouteOf;
    var r: Relation := (v: World, u: World) => GatewayFirewall(u.graph, gateway) == GatewayFirewall(v.graph, gateway);
    forall sections, v, route, key, a: Annotation, orders
      | RouteOf(env.naming, ingress, route) && key in annotations && a.value == annotations[key].value
      ensures r(v, Visit(env, ingress, sections, v, route, key, a, orders).world)
    {
      VisitLeavesGateway(env, ingress, sections, v, route, key, a, orders, gateway);
    }
    forall v, i | 0 <= i < |ingress.rules| ensures r(v, NewRoute(env.naming, v, ingress, ingress.rules[i].host).0) {
      NewRouteIsEmpty(env.naming, v, ingress, ingress.rules[i].host);
      FirewallByPolicies(v.graph, NewRoute(env.naming, v, ingress, ingress.rules[i].host).0.graph, gateway);
    }
    forall v ensures r(v, GrantTLS(v, ingress, |ingress.tls|)) {
      GrantsOnly(v, ingress, |ingress.tls|);
      FirewallByPolicies(v.graph, GrantTLS(v, ingress, |ingress.tls|).graph, gateway);
    }
    forall v, route | RouteOf(env.naming, ingress, route) ensures r(v, Commit(v, route)) {
      FirewallByPolicies(v.graph, Commit(v, route).graph, gateway);
    }
    IngressSteps(env, ingress, schedule, w, annotations, r);
  }

  lemma {:induction false} RunLeavesGateway(
    env: Env, inputs: map<NamespacedName, Input>, schedules: NamespacedName -> Schedule, w: World,
    order: seq<NamespacedName>)
    requires ValidInput(inputs, schedules) && forall k | k in order :: k in inputs
    ensures var v := HandleIngresses(env, inputs, schedules, w, order).world;
            v.gateway.name == w.gateway.name
            && GatewayFirewall(v.graph, w.gateway.name) == GatewayFirewall(w.graph, w.gateway.name)
  {
    hide HandleIngress;
    hide GatewayFirewall;
    hide ValidSchedule;
    RunKeepsName(env, inputs, schedules, w, order);
    if order != [] {
      var init, last := order[..|order| - 1], order[|order| - 1];
      assert last in order;
      RunLeavesGateway(env, inputs, schedules, w, init);
      IngressLeavesGateway(env, inputs[last].ingress, schedules(last),
                           HandleIngresses(env, inputs, schedules, w, init).world, inputs[last].annotations,
                           w.gateway.name);
    }
  }

  /** The gateway of a conversion: its namespace is the option's, or else that of the first ingress, or else "default";
      its firewall policy is the one given, or else the scraped one, if there is either. */
  lemma ConvertSetsGateway(
    env: Env, options: Options, scrapedWAFID: string,
    inputs: map<NamespacedName, Input>, schedules: NamespacedName -> Schedule, listing: seq<NamespacedName>)
    requires ValidInput(inputs, schedules) && Lists(listing, inputs.Keys)
    ensures var w := Convert(env, options, scrapedWAFID, inputs, schedules, listing).world;
            && w.gateway.name.name == "alb-gateway"
            && (options.gatewayNamespace != "" ==> w.gateway.name.namespace == options.gatewayNamespace)
            && (options.gatewayNamespace == "" ==>
                  && (inputs == map[] ==> w.gateway.name.namespace == "default")
                  && (forall k | k in inputs && (forall l | l in inputs :: !NameLess(l, k)) ::
                        w.gateway.name.namespace == k.namespace))
            && GatewayFirewall(w.graph, w.gateway.name)
               == if options.gatewayWAFID != "" then Some(options.gatewayWAFID)
                  else if scrapedWAFID != "" then Some(scrapedWAFID)
                  else None
  {
    hide HandleIngresses;
    hide GatewayFirewall;
    hide NameLess;
    hide Sort;
    NameLessIsStrictOrder();
    SortOfListing(listing, listing, inputs.Keys, NameLess);
    var sorted := Sort(listing, NameLess);
    ListedIn(sorted, inputs.Keys);
    RunLeavesGateway(env, inputs, schedules, StartWorld(options, scrapedWAFID, sorted), sorted);
    FirewallAtStart(options, scrapedWAFID, sorted);
    SomethingListed(sorted, inputs.Keys);
    if inputs != map[] {
      assert sorted != [] by {
        var k :| k in inputs;
        assert k in sorted;
      }
      forall k | k in inputs && (forall l | l in inputs :: !NameLess(l, k)) ensures k == sorted[0] {
        var j :| 0 <= j < |sorted| && sorted[j] == k;
        assert sorted[0] in inputs;
      }
    }
  }

  lemma SomethingListed(sorted: seq<NamespacedName>, keys: set<NamespacedName>)
    requires Lists(sorted, keys)
    ensures sorted != [] ==> keys != {}
  {
    if sorted != [] {
      assert sorted[0] in keys;
    }
  }

  lemma FirewallAtStart(options: Options, scrapedWAFID: string, sorted: seq<NamespacedName>)
    ensures var w := StartWorld(options, scrapedWAFID, sorted);
            GatewayFirewall(w.graph, w.gateway.name)
            == if options.gatewayWAFID != "" then Some(options.gatewayWAFID)
               else if scrapedWAFID != "" then Some(scrapedWAFID)
               else None
  {
    hide NewWAFPolicy;
    GatewayPolicyName(StartWorld(options, scrapedWAFID, sorted).gateway.name);
  }
}
