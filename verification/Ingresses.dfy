/** The translation of one ingress, and the driver that runs it over all of them. */
module Ingresses {
  import opened Text
  import opened Ordering
  import opened Annotations
  import opened Resources
  import opened Gateways
  import opened BackendGroups
  import opened Handlers

  /** The orders in which Go ranges over maps while one ingress is handled. The number is the index of the rule being
      handled; the listeners and services are listed anew for each annotation visited. */
  datatype Schedule = Schedule(
    annotations: nat -> seq<string>,
    services: (nat, string, set<NamespacedName>) -> seq<NamespacedName>,
    listeners: (nat, string, set<ListenerKey>) -> seq<ListenerKey>)

  /** Any order will do, as long as each key comes up once. */
  ghost predicate ValidSchedule(s: Schedule, keys: set<string>) {
    && (forall i: nat :: Lists(s.annotations(i), keys))
    && (forall i: nat, k: string, services: set<NamespacedName> :: Lists(s.services(i, k, services), services))
    && (forall i: nat, k: string, listeners: set<ListenerKey> :: Lists(s.listeners(i, k, listeners), listeners))
  }

  // ---------- Paths ----------

  predicate Supported(p: IngressPath) {
    p.backend.ServiceBackend? && !(p.backend.portName != "" && p.backend.portNumber == 0)
  }

  function TranslatePathType(t: Option<IngressPathType>): PathType {
    if t == Some(PrefixPath) then PathPrefix else Exact
  }

  function TranslatePath(p: IngressPath): RouteRule
    requires Supported(p)
  {
    RouteRule(
      [HTTPRouteMatch(Some(HTTPPathMatch(Some(TranslatePathType(p.pathType)), Some(p.path))))],
      [],
      [BackendRef(None, None, p.backend.name, Some(p.backend.portNumber))])
  }

  /** The rules of the supported paths, in order. */
  function TranslatePaths(paths: seq<IngressPath>): seq<RouteRule> {
    if paths == [] then []
    else
      var last := paths[|paths| - 1];
      TranslatePaths(paths[..|paths| - 1]) + if Supported(last) then [TranslatePath(last)] else []
  }

  // ---------- The first rule of a host ----------

  const NO_SECRET := NamespacedName("", "")

  /** The TLS scan: the secret of the last entry listing the host, and of the last entry without hosts. */
  function ScanTLS(tls: seq<IngressTLS>, namespace: string, host: string): (NamespacedName, NamespacedName) {
    if tls == [] then (NO_SECRET, NO_SECRET)
    else
      var (secret, wildcard) := ScanTLS(tls[..|tls| - 1], namespace, host);
      var last := tls[|tls| - 1];
      var name := NamespacedName(namespace, last.secretName);
      (if host in last.hosts then name else secret, if last.hosts == [] then name else wildcard)
  }

  function ChosenSecret(tls: seq<IngressTLS>, namespace: string, host: string): NamespacedName {
    var (secret, wildcard) := ScanTLS(tls, namespace, host);
    if secret == NO_SECRET then wildcard else secret
  }

  function RouteNameFor(naming: Naming, ingress: Ingress, host: string): NamespacedName {
    NamespacedName(ingress.name.namespace, naming.routeName(ingress.name.name, host))
  }

  function OwnParentRef(gateway: NamespacedName, routeNamespace: string, sectionName: string): ParentReference {
    ParentReference(
      None, None, gateway.name, if gateway.namespace != routeNamespace then Some(gateway.namespace) else None,
      Some(sectionName))
  }

  /** `initRoute`. */
  function NewRoute(naming: Naming, w: World, ingress: Ingress, host: string): (World, HTTPRoute) {
    var bare := HTTPRoute(RouteNameFor(naming, ingress, host), if host != "" then [host] else [], [], []);
    var gateway := w.gateway.name;
    if ingress.tls != [] then
      var secret := ChosenSecret(ingress.tls, ingress.name.namespace, host);
      if secret == NO_SECRET then (w, bare)
      else
        var sectionName := ListenerFor(naming, w.gateway, host, secret).listener.name;
        (EnsureHTTPS(naming, w, host, secret),
         bare.(parentRefs := [OwnParentRef(gateway, bare.name.namespace, sectionName)]))
    else
      var g := EnsureHTTP(w.gateway);
      (w.(gateway := g),
       bare.(parentRefs := [OwnParentRef(gateway, bare.name.namespace, g.httpListener.value.name)]))
  }

  // ---------- One ingress ----------

  /** The state of the annotation loop of one rule; `failed` holds the keys whose handler returned an error. */
  datatype Pass = Pass(world: World, route: HTTPRoute, annotations: map<string, Annotation>, failed: set<string>)

  function OrdersAt(schedule: Schedule, i: nat, key: string, w: World, route: HTTPRoute): Orders {
    Orders(
      schedule.services(i, key, RouteServices(route)),
      schedule.listeners(i, key, w.gateway.httpsListeners.Keys))
  }

  ghost function VisitOne(
    env: Env, ingress: Ingress, sections: set<string>, schedule: Schedule, i: nat, p: Pass, key: string): (r: Pass)
    requires key in p.annotations
    ensures r.annotations.Keys == p.annotations.Keys
  {
    var o := Visit(env, ingress, sections, p.world, p.route, key, p.annotations[key],
                   OrdersAt(schedule, i, key, p.world, p.route));
    Pass(o.world, o.route, p.annotations[key := o.annotation], if o.failed then p.failed + {key} else p.failed)
  }

  /** The loop over the annotations in the given order. */
  ghost function VisitAll(
    env: Env, ingress: Ingress, sections: set<string>, schedule: Schedule, i: nat, p: Pass,
    order: seq<string>): (r: Pass)
    requires forall k | k in order :: k in p.annotations
    ensures r.annotations.Keys == p.annotations.Keys
  {
    if order == [] then p
    else
      VisitOne(
        env, ingress, sections, schedule, i,
        VisitAll(env, ingress, sections, schedule, i, p, order[..|order| - 1]), order[|order| - 1])
  }

  lemma VisitOneIs(
    env: Env, ingress: Ingress, sections: set<string>, schedule: Schedule, i: nat, p: Pass, key: string, orders: Orders,
    o: Outcome)
    requires key in p.annotations && orders == OrdersAt(schedule, i, key, p.world, p.route)
    requires o == Visit(env, ingress, sections, p.world, p.route, key, p.annotations[key], orders)
    ensures VisitOne(env, ingress, sections, schedule, i, p, key)
         == Pass(o.world, o.route, p.annotations[key := o.annotation], if o.failed then p.failed + {key} else p.failed)
  {
    hide Visit;
  }

  lemma VisitNone(
    env: Env, ingress: Ingress, sections: set<string>, schedule: Schedule, i: nat, p: Pass, order: seq<string>)
    ensures VisitAll(env, ingress, sections, schedule, i, p, order[..0]) == p
  {
  }

  /** A schedule's orders list what they are given. */
  lemma ScheduledOrders(schedule: Schedule, keys: set<string>, i: nat, w: World, route: HTTPRoute, key: string)
    requires ValidSchedule(schedule, keys)
    ensures forall k :: k in schedule.annotations(i) <==> k in keys
    ensures var orders := OrdersAt(schedule, i, key, w, route);
            Lists(orders.services, RouteServices(route)) && Lists(orders.listeners, w.gateway.httpsListeners.Keys)
  {
    hide RouteServices;
  }

  lemma VisitAllSnoc(
    env: Env, ingress: Ingress, sections: set<string>, schedule: Schedule, i: nat, p: Pass, order: seq<string>, j: nat)
    requires j < |order| && forall k | k in order :: k in p.annotations
    ensures order[j] in VisitAll(env, ingress, sections, schedule, i, p, order[..j]).annotations
    ensures VisitAll(env, ingress, sections, schedule, i, p, order[..j + 1])
         == VisitOne(env, ingress, sections, schedule, i, VisitAll(env, ingress, sections, schedule, i, p, order[..j]),
                     order[j])
  {
    hide VisitOne;
    assert order[..j + 1][..j] == order[..j];
  }

  /** The state of the rule loop: the routes by host, and the route names recorded for the report. */
  datatype IngressRun = IngressRun(
    world: World,
    routes: map<string, HTTPRoute>,
    annotations: map<string, Annotation>,
    failed: set<string>,
    recorded: seq<NamespacedName>)

  /** The route of a host: the one at hand, or a new one. */
  function RouteFor(naming: Naming, ingress: Ingress, s: IngressRun, host: string): (World, HTTPRoute) {
    if host in s.routes then (s.world, s.routes[host]) else NewRoute(naming, s.world, ingress, host)
  }

  /** The annotation loop of rule `i` starts with the rule's paths added to the route of its host. */
  function PassStart(naming: Naming, ingress: Ingress, s: IngressRun, i: nat): Pass
    requires i < |ingress.rules| && ingress.rules[i].http.Some?
  {
    var (w, route) := RouteFor(naming, ingress, s, ingress.rules[i].host);
    Pass(w, route.(rules := route.rules + TranslatePaths(ingress.rules[i].http.value)), s.annotations, s.failed)
  }

  ghost function PassEnd(env: Env, ingress: Ingress, schedule: Schedule, s: IngressRun, i: nat): (r: Pass)
    requires i < |ingress.rules| && ingress.rules[i].http.Some? && ValidSchedule(schedule, s.annotations.Keys)
    ensures r.annotations.Keys == s.annotations.Keys
  {
    var start := PassStart(env.naming, ingress, s, i);
    VisitAll(env, ingress, SectionsOf(start.route.parentRefs), schedule, i, start, schedule.annotations(i))
  }

  /** A route that has paths goes to the graph, under its own name. */
  function Commit(w: World, route: HTTPRoute): World {
    w.(graph := w.graph.(httpRoutes := w.graph.httpRoutes[route.name := route]))
  }

  ghost function HandleRule(env: Env, ingress: Ingress, schedule: Schedule, s: IngressRun, i: nat): (r: IngressRun)
    requires i < |ingress.rules| && ValidSchedule(schedule, s.annotations.Keys)
    ensures r.annotations.Keys == s.annotations.Keys
  {
    var host := ingress.rules[i].host;
    var (w, route) := RouteFor(env.naming, ingress, s, host);
    var recorded := s.recorded + [route.name];
    if ingress.rules[i].http.None? then s.(world := w, routes := s.routes[host := route], recorded := recorded)
    else
      var p := PassEnd(env, ingress, schedule, s, i);
      IngressRun(
        Commit(p.world, p.route), s.routes[host := p.route], p.annotations, p.failed, recorded)
  }

  lemma PathlessRule(env: Env, ingress: Ingress, schedule: Schedule, s: IngressRun, i: nat, w: World, route: HTTPRoute)
    requires i < |ingress.rules| && ingress.rules[i].http.None? && ValidSchedule(schedule, s.annotations.Keys)
    requires RouteFor(env.naming, ingress, s, ingress.rules[i].host) == (w, route)
    ensures HandleRule(env, ingress, schedule, s, i)
         == IngressRun(w, s.routes[ingress.rules[i].host := route], s.annotations, s.failed, s.recorded + [route.name])
  {
  }

  lemma MigratedRule(env: Env, ingress: Ingress, schedule: Schedule, s: IngressRun, i: nat, w: World, route: HTTPRoute)
    requires i < |ingress.rules| && ingress.rules[i].http.Some? && ValidSchedule(schedule, s.annotations.Keys)
    requires RouteFor(env.naming, ingress, s, ingress.rules[i].host) == (w, route)
    ensures var p := PassEnd(env, ingress, schedule, s, i);
            HandleRule(env, ingress, schedule, s, i)
            == IngressRun(Commit(p.world, p.route), s.routes[ingress.rules[i].host := p.route], p.annotations, p.failed,
                          s.recorded + [route.name])
  {
    hide PassEnd;
    hide RouteFor;
  }

  /** The rule loop up to rule `n`. */
  ghost function HandleRules(env: Env, ingress: Ingress, schedule: Schedule, s: IngressRun, n: nat): (r: IngressRun)
    requires n <= |ingress.rules| && ValidSchedule(schedule, s.annotations.Keys)
    ensures r.annotations.Keys == s.annotations.Keys
  {
    if n == 0 then s else HandleRule(env, ingress, schedule, HandleRules(env, ingress, schedule, s, n - 1), n - 1)
  }

  /** The grants for the secrets of the TLS section. */
  function GrantTLS(w: World, ingress: Ingress, n: nat): World
    requires n <= |ingress.tls|
  {
    if n == 0 then w
    else
      var before := GrantTLS(w, ingress, n - 1);
      if ingress.tls[n - 1].secretName == "" || ingress.name.namespace == w.gateway.name.namespace then before
      else before.(graph := WithGrant(before.graph, w.gateway.name.namespace, ingress.name.namespace))
  }

  /** The grants change nothing else. */
  lemma {:induction false} GrantsOnly(w: World, ingress: Ingress, n: nat)
    requires n <= |ingress.tls|
    ensures GrantTLS(w, ingress, n)
         == w.(graph := w.graph.(referenceGrants := GrantTLS(w, ingress, n).graph.referenceGrants))
  {
    if n > 0 { GrantsOnly(w, ingress, n - 1); }
  }

  function IngressStart(w: World, ingress: Ingress, annotations: map<string, Annotation>): IngressRun {
    IngressRun(GrantTLS(w, ingress, |ingress.tls|), map[], annotations, {}, [])
  }

  /** `handleIngress`. */
  ghost function HandleIngress(
    env: Env, ingress: Ingress, schedule: Schedule, w: World, annotations: map<string, Annotation>): (r: IngressRun)
    requires ValidSchedule(schedule, annotations.Keys)
    ensures r.annotations.Keys == annotations.Keys
  {
    HandleRules(env, ingress, schedule, IngressStart(w, ingress, annotations), |ingress.rules|)
  }

  lemma NoRulesHandled(env: Env, ingress: Ingress, schedule: Schedule, s: IngressRun)
    requires ValidSchedule(schedule, s.annotations.Keys)
    ensures HandleRules(env, ingress, schedule, s, 0) == s
  {
  }

  lemma RulesSnoc(env: Env, ingress: Ingress, schedule: Schedule, s: IngressRun, n: nat)
    requires n < |ingress.rules| && ValidSchedule(schedule, s.annotations.Keys)
    ensures HandleRules(env, ingress, schedule, s, n + 1)
         == HandleRule(env, ingress, schedule, HandleRules(env, ingress, schedule, s, n), n)
  {
  }

  lemma HandleIngressIs(env: Env, ingress: Ingress, schedule: Schedule, w: World, annotations: map<string, Annotation>)
    requires ValidSchedule(schedule, annotations.Keys)
    ensures var start := IngressStart(w, ingress, annotations);
            && start == IngressRun(GrantTLS(w, ingress, |ingress.tls|), map[], annotations, {}, [])
            && HandleIngress(env, ingress, schedule, w, annotations)
              == HandleRules(env, ingress, schedule, start, |ingress.rules|)
  {
  }

  // ---------- All ingresses ----------

  /** An ingress with the annotations tracked for it. */
  datatype Input = Input(ingress: Ingress, annotations: map<string, Annotation>)

  ghost predicate ValidInput(inputs: map<NamespacedName, Input>, schedules: NamespacedName -> Schedule) {
    forall k | k in inputs ::
      && inputs[k].ingress.name == k
      && ValidSchedule(schedules(k), inputs[k].annotations.Keys)
  }

  datatype ConvertRun = ConvertRun(world: World, results: map<NamespacedName, IngressRun>)

  ghost function HandleIngresses(
    env: Env, inputs: map<NamespacedName, Input>, schedules: NamespacedName -> Schedule, w: World,
    order: seq<NamespacedName>)
    : ConvertRun
    requires ValidInput(inputs, schedules)
    requires forall k | k in order :: k in inputs
  {
    if order == [] then ConvertRun(w, map[])
    else
      var before := HandleIngresses(env, inputs, schedules, w, order[..|order| - 1]);
      var k := order[|order| - 1];
      var r := HandleIngress(env, inputs[k].ingress, schedules(k), before.world, inputs[k].annotations);
      ConvertRun(r.world, before.results[k := r])
  }

  datatype Options = Options(byoResourceID: string, managedSubnetID: string, gatewayNamespace: string,
                             gatewayWAFID: string)

  /** The gateway's namespace: the option, else that of the first ingress, else "default". */
  function GatewayNamespace(options: Options, sorted: seq<NamespacedName>): string {
    if options.gatewayNamespace != "" then options.gatewayNamespace
    else if sorted != [] then sorted[0].namespace
    else "default"
  }

  /** The gateway-wide WAF policy; the explicit ID takes precedence over the scraped one. */
  function WithGatewayWAF(g: Graph, gateway: NamespacedName, wafID: string): Graph {
    var initial := NewGatewayWAFPolicy(gateway);
    var policies := Inserted(g.wafPolicies, initial);
    g.(wafPolicies := policies[initial.name := policies[initial.name].(spec := wafID)])
  }

  function StartWorld(options: Options, scrapedWAFID: string, sorted: seq<NamespacedName>): World {
    var name := NamespacedName(GatewayNamespace(options, sorted), "alb-gateway");
    var wafID := if options.gatewayWAFID != "" then options.gatewayWAFID else scrapedWAFID;
    World(
      GatewayState(name, None, map[], false),
      if wafID != "" then WithGatewayWAF(EMPTY_GRAPH, name, wafID) else EMPTY_GRAPH)
  }

  /** `Convert`, when the input map is ranged over in `listing`. */
  ghost function Convert(
    env: Env, options: Options, scrapedWAFID: string,
    inputs: map<NamespacedName, Input>, schedules: NamespacedName -> Schedule, listing: seq<NamespacedName>): ConvertRun
    requires ValidInput(inputs, schedules) && Lists(listing, inputs.Keys)
  {
    NameLessIsStrictOrder();
    SortOfListing(listing, listing, inputs.Keys, NameLess);
    var sorted := Sort(listing, NameLess);
    HandleIngresses(env, inputs, schedules, StartWorld(options, scrapedWAFID, sorted), sorted)
  }

  lemma NoIngressesYet(
    env: Env, inputs: map<NamespacedName, Input>, schedules: NamespacedName -> Schedule, w: World,
    order: seq<NamespacedName>)
    requires ValidInput(inputs, schedules)
    ensures HandleIngresses(env, inputs, schedules, w, order[..0]) == ConvertRun(w, map[])
  {
  }

  lemma IngressesSnoc(
    env: Env, inputs: map<NamespacedName, Input>, schedules: NamespacedName -> Schedule, w: World,
    order: seq<NamespacedName>, n: nat)
    requires ValidInput(inputs, schedules) && n < |order| && forall k | k in order :: k in inputs
    ensures order[n] in inputs && ValidSchedule(schedules(order[n]), inputs[order[n]].annotations.Keys)
    ensures var before := HandleIngresses(env, inputs, schedules, w, order[..n]);
            var r := HandleIngress(env, inputs[order[n]].ingress, schedules(order[n]), before.world,
                                   inputs[order[n]].annotations);
            HandleIngresses(env, inputs, schedules, w, order[..n + 1])
              == ConvertRun(r.world, before.results[order[n] := r])
  {
    hide ValidSchedule;
    hide HandleIngress;
    assert order[..n + 1][..n] == order[..n];
  }

  /** The result of an ingress is that of handling it in the world its predecessors left. */
  lemma {:induction false} ResultAt(
    env: Env, inputs: map<NamespacedName, Input>, schedules: NamespacedName -> Schedule, w: World,
    order: seq<NamespacedName>,
    j: nat)
    requires ValidInput(inputs, schedules) && (forall k | k in order :: k in inputs) && NoDuplicates(order)
    requires j < |order|
    ensures order[j] in inputs && ValidSchedule(schedules(order[j]), inputs[order[j]].annotations.Keys)
    ensures order[j] in HandleIngresses(env, inputs, schedules, w, order).results
    ensures HandleIngresses(env, inputs, schedules, w, order).results[order[j]]
         == HandleIngress(env, inputs[order[j]].ingress, schedules(order[j]),
                          HandleIngresses(env, inputs, schedules, w, order[..j]).world, inputs[order[j]].annotations)
    decreases |order|
  {
    hide ValidSchedule;
    hide HandleIngress;
    var init, last := order[..|order| - 1], order[|order| - 1];
    assert order[j] in order && last in order;
    if j < |order| - 1 {
      ResultAt(env, inputs, schedules, w, init, j);
      assert init[..j] == order[..j];
    } else {
      assert init == order[..j];
    }
  }

  lemma ConvertIs(
    env: Env, options: Options, scrapedWAFID: string, inputs: map<NamespacedName, Input>,
    schedules: NamespacedName -> Schedule,
    sorted: seq<NamespacedName>, listing: seq<NamespacedName>)
    requires ValidInput(inputs, schedules) && Lists(listing, inputs.Keys) && sorted == Sort(listing, NameLess)
    ensures forall k | k in sorted :: k in inputs
    ensures Convert(env, options, scrapedWAFID, inputs, schedules, listing)
         == HandleIngresses(env, inputs, schedules, StartWorld(options, scrapedWAFID, sorted), sorted)
  {
    hide NameLess;
    hide Sort;
    hide HandleIngresses;
    hide StartWorld;
    NameLessIsStrictOrder();
    SortOfListing(listing, listing, inputs.Keys, NameLess);
  }

  /** The order in which Go lists the input map makes no difference. */
  lemma ConvertIgnoresListing(
    env: Env, options: Options, scrapedWAFID: string,
    inputs: map<NamespacedName, Input>, schedules: NamespacedName -> Schedule, a: seq<NamespacedName>,
    b: seq<NamespacedName>)
    requires ValidInput(inputs, schedules) && Lists(a, inputs.Keys) && Lists(b, inputs.Keys)
    ensures Convert(env, options, scrapedWAFID, inputs, schedules, a)
         == Convert(env, options, scrapedWAFID, inputs, schedules, b)
  {
    NameLessIsStrictOrder();
    SortOfListing(a, b, inputs.Keys, NameLess);
  }

  /** The ingresses are handled by namespace, and by name within one. */
  lemma HandledInOrder(inputs: map<NamespacedName, Input>, listing: seq<NamespacedName>)
    requires Lists(listing, inputs.Keys)
    ensures var sorted := Sort(listing, NameLess);
            Lists(sorted, inputs.Keys)
            && forall i, j | 0 <= i < j < |sorted| ::
                 Before(sorted[i].namespace, sorted[j].namespace)
                 || (sorted[i].namespace == sorted[j].namespace && Before(sorted[i].name, sorted[j].name))
  {
    hide NameLess;
    hide Before;
    hide Sort;
    NameLessIsStrictOrder();
    SortOfListing(listing, listing, inputs.Keys, NameLess);
    var sorted := Sort(listing, NameLess);
    forall i, j | 0 <= i < j < |sorted|
      ensures Before(sorted[i].namespace, sorted[j].namespace)
              || (sorted[i].namespace == sorted[j].namespace && Before(sorted[i].name, sorted[j].name))
    {
      assert NameLess(sorted[i], sorted[j]);
      NameLessIff(sorted[i], sorted[j]);
    }
  }

  // ---------- Which secret ----------

  /** The secret of the last TLS entry without hosts. */
  function WildcardSecret(tls: seq<IngressTLS>): Option<string> {
    if tls == [] then None
    else if tls[|tls| - 1].hosts == [] then Some(tls[|tls| - 1].secretName)
    else WildcardSecret(tls[..|tls| - 1])
  }

  /** A route takes the secret of the last entry naming its host, else of the last entry naming none, else no parent. */
  lemma {:induction false} SecretChoice(tls: seq<IngressTLS>, namespace: string, host: string)
    requires namespace != ""
    ensures ChosenSecret(tls, namespace, host) ==
            match HostSecret(tls, host)
            case Some(name) => NamespacedName(namespace, name)
            case None =>
              match WildcardSecret(tls)
              case Some(name) => NamespacedName(namespace, name)
              case None => NO_SECRET
    ensures ScanTLS(tls, namespace, host).0 == NO_SECRET <==> HostSecret(tls, host).None?
    ensures ScanTLS(tls, namespace, host).1 == NO_SECRET <==> WildcardSecret(tls).None?
  {
    if tls != [] {
      SecretChoice(tls[..|tls| - 1], namespace, host);
    }
  }
}
