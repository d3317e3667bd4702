/** The conversion engine in its own form: it writes the shared graph, gateway and ingress contexts in place. */
module Conversion {
  import opened Text
  import opened Ordering
  import opened Annotations
  import opened Resources
  import opened Gateways
  import opened BackendGroups
  import opened Handlers
  import opened HandlerMethods
  import opened Ingresses
  import Integrity

  const ALB_NAMESPACE_ANNOTATION := "alb.networking.azure.io/alb-namespace"
  const ALB_NAME_ANNOTATION := "alb.networking.azure.io/alb-name"
  const ALB_ID_ANNOTATION := "alb.networking.azure.io/alb-id"
  const INGRESS_CLASS_ANNOTATION := "kubernetes.io/ingress.class"

  /** `IngressContext`. */
  class IngressContext {
    const ingress: Ingress
    const annotations: map<string, IngressAnnotationContext>
    var status: MigrationStatus
    var httpRoutes: seq<NamespacedName>

    /** Each annotation sits under its own key, so no annotation sits under two. */
    ghost predicate Valid() {
      forall k | k in annotations :: annotations[k].key == k
    }

    function Tracked(): (tracked: map<string, Annotation>)
      reads annotations.Values
      ensures tracked.Keys == annotations.Keys
    {
      map k | k in annotations :: annotations[k].View()
    }

    /** `NewIngressContext`: every annotation is tracked, but for the ingress class. */
    constructor (ingress: Ingress, values: map<string, string>)
      ensures Valid() && fresh(annotations.Values)
      ensures this.ingress == ingress && status == NotStarted && httpRoutes == []
      ensures Tracked() == map k | k in values && k != INGRESS_CLASS_ANNOTATION :: NewAnnotation(k, values[k])
    {
      var tracked := TrackAnnotations(values);
      this.ingress, this.annotations, this.status, this.httpRoutes := ingress, tracked, NotStarted, [];
    }

    /** The annotation loop of `NewIngressContext`. */
    static method TrackAnnotations(values: map<string, string>) returns (tracked: map<string, IngressAnnotationContext>)
      ensures forall k :: k in tracked <==> k in values && k != INGRESS_CLASS_ANNOTATION
      ensures forall k | k in tracked :: fresh(tracked[k]) && tracked[k].View() == NewAnnotation(k, values[k])
    {
      hide NewAnnotation;
      hide Lists;
      var keys := ListKeys(values.Keys);
      ListedIn(keys, values.Keys);
      tracked := map[];
      for i := 0 to |keys|
        invariant forall k :: k in tracked <==> k in keys[..i] && k != INGRESS_CLASS_ANNOTATION
        invariant forall k | k in tracked :: fresh(tracked[k]) && tracked[k].View() == NewAnnotation(k, values[k])
      {
        assert keys[..i + 1] == keys[..i] + [keys[i]];
        assert keys[i] in keys;
        if keys[i] == INGRESS_CLASS_ANNOTATION {
          continue;
        }
        var annotation := new IngressAnnotationContext(keys[i], values[keys[i]]);
        tracked := tracked[keys[i] := annotation];
      }
      assert keys[..|keys|] == keys;
    }

    /** `MigrationComplete`. */
    method MigrationComplete(failed: bool)
      modifies this`status
      ensures status == if failed then Error else Completed
    {
      status := if failed then Error else Completed;
    }

    /** The context holds the result of its run, after the route names it held before. */
    ghost predicate Holds(r: IngressRun, before: seq<NamespacedName>)
      reads this, annotations.Values
    {
      && Tracked() == r.annotations
      && httpRoutes == before + r.recorded
      && status == if r.failed == {} then Completed else Error
    }
  }

  // ---------- One rule ----------

  /** The path loop of `handleIngress`. */
  method AppendPaths(route: HTTPRoute, paths: seq<IngressPath>) returns (r: HTTPRoute)
    ensures r == route.(rules := route.rules + TranslatePaths(paths))
  {
    r := route;
    for i := 0 to |paths|
      invariant r == route.(rules := route.rules + TranslatePaths(paths[..i]))
    {
      var path := paths[i];
      assert paths[..i + 1][..i] == paths[..i];
      if path.backend.ResourceBackend? {
        continue;
      }
      if path.backend.portName != "" && path.backend.portNumber == 0 {
        continue;
      }
      var pathType := Exact;
      if path.pathType.Some? {
        match path.pathType.value {
          case ExactPath | ImplementationSpecificPath => pathType := Exact;
          case PrefixPath => pathType := PathPrefix;
          case UnknownPathType => pathType := Exact;
        }
      }
      r := r.(rules := r.rules + [
        RouteRule(
          [HTTPRouteMatch(Some(HTTPPathMatch(Some(pathType), Some(path.path))))], [],
          [BackendRef(None, None, path.backend.name, Some(path.backend.portNumber))])]);
    }
    assert paths[..|paths|] == paths;
  }

  /** The TLS scan of `initRoute`. */
  method ChooseSecret(tls: seq<IngressTLS>, namespace: string, host: string) returns (secret: NamespacedName)
    ensures secret == ChosenSecret(tls, namespace, host)
  {
    var wildcard := NO_SECRET;
    secret := NO_SECRET;
    for i := 0 to |tls|
      invariant (secret, wildcard) == ScanTLS(tls[..i], namespace, host)
    {
      assert tls[..i + 1][..i] == tls[..i];
      if |tls[i].hosts| == 0 {
        wildcard := NamespacedName(namespace, tls[i].secretName);
      }
      if host in tls[i].hosts {
        secret := NamespacedName(namespace, tls[i].secretName);
      }
    }
    assert tls[..|tls|] == tls;
    if secret == NO_SECRET {
      secret := wildcard;
    }
  }

  method InitRoute(
    env: Env, graph: AGCResourceGraph, gateway: GatewayContext, ingress: Ingress, host: string)
    returns (route: HTTPRoute)
    requires graph.Valid() && gateway.Valid()
    modifies graph`referenceGrants, gateway`httpListener, gateway`httpsListeners, gateway.httpsListeners.Values
    ensures graph.Valid() && gateway.Valid()
    ensures fresh(gateway.httpsListeners.Values - old(gateway.httpsListeners.Values))
    ensures (World(gateway.View(), graph.View()), route)
         == NewRoute(env.naming, old(World(gateway.View(), graph.View())), ingress, host)
  {
    hide ChosenSecret;
    hide EnsureHTTPS;
    hide ListenerFor;
    route := HTTPRoute(RouteNameFor(env.naming, ingress, host), [], [], []);
    if host != "" {
      route := route.(hostnames := [host]);
    }
    var parentNamespace :=
      if gateway.name.namespace != route.name.namespace then Some(gateway.name.namespace) else None;
    if |ingress.tls| > 0 {
      var secret := ChooseSecret(ingress.tls, ingress.name.namespace, host);
      if secret != NO_SECRET {
        var sectionName := EnsureListener(env.naming, graph, gateway, host, secret);
        route := route.(parentRefs := [ParentReference(None, None, gateway.name.name, parentNamespace,
                                                       Some(sectionName))]);
      }
    } else {
      var g := gateway.View();
      var sectionName := gateway.EnsureHTTPListener();
      assert gateway.View() == EnsureHTTP(g);
      route := route.(parentRefs := [ParentReference(None, None, gateway.name.name, parentNamespace,
                                                     Some(sectionName))]);
    }
  }

  /** The listener asked for, by its name. */
  method EnsureListener(
    naming: Naming, graph: AGCResourceGraph, gateway: GatewayContext, host: string, secret: NamespacedName)
    returns (sectionName: string)
    requires graph.Valid() && gateway.Valid()
    modifies graph`referenceGrants, gateway`httpsListeners, gateway.httpsListeners.Values
    ensures graph.Valid() && gateway.Valid()
    ensures fresh(gateway.httpsListeners.Values - old(gateway.httpsListeners.Values))
    ensures World(gateway.View(), graph.View())
         == EnsureHTTPS(naming, old(World(gateway.View(), graph.View())), host, secret)
    ensures sectionName == ListenerFor(naming, old(gateway.View()), host, secret).listener.name
  {
    hide ListenerFor;
    sectionName := gateway.EnsureHTTPSListener(naming, graph, host, secret);
    assert sectionName == gateway.View().httpsListeners[HTTPSKey(host)].listener.name;
  }

  /** The orders in which the maps at hand are ranged over. */
  method OrdersFor(
    schedule: Schedule, i: nat, key: string, gateway: GatewayContext, routeCtx: HTTPRouteContext,
    ghost keys: set<string>, ghost g: Graph)
    returns (orders: Orders)
    requires ValidSchedule(schedule, keys)
    ensures orders == OrdersAt(schedule, i, key, World(gateway.View(), g), routeCtx.route)
    ensures Lists(orders.services, RouteServices(routeCtx.route))
    ensures Lists(orders.listeners, gateway.httpsListeners.Keys)
  {
    hide RouteServices;
    hide Lists;
    assert gateway.View().httpsListeners.Keys == gateway.httpsListeners.Keys;
    orders := Orders(
      schedule.services(i, key, RouteServices(routeCtx.route)),
      schedule.listeners(i, key, gateway.httpsListeners.Keys));
  }

  /** The call for one annotation leaves the others as they were. */
  method HandleTracked(
    env: Env, graph: AGCResourceGraph, gateway: GatewayContext, ingressCtx: IngressContext, routeCtx: HTTPRouteContext,
    key: string, orders: Orders) returns (err: bool)
    requires graph.Valid() && gateway.Valid() && ingressCtx.Valid() && key in ingressCtx.annotations
    requires Lists(orders.services, RouteServices(routeCtx.route))
    requires Lists(orders.listeners, gateway.httpsListeners.Keys)
    modifies graph, gateway`httpListener, gateway`httpsListeners, gateway`hasHTTPSRedirect
    modifies gateway.httpsListeners.Values, routeCtx, ingressCtx.annotations[key]
    ensures graph.Valid() && gateway.Valid()
    ensures fresh(gateway.httpsListeners.Values - old(gateway.httpsListeners.Values))
    ensures Outcome(World(gateway.View(), graph.View()), routeCtx.route, ingressCtx.Tracked()[key], err)
         == Visit(env, ingressCtx.ingress, routeCtx.namedParentSections, old(World(gateway.View(), graph.View())),
                  old(routeCtx.route), key,
                  old(ingressCtx.Tracked()[key]), orders)
    ensures ingressCtx.Tracked() == old(ingressCtx.Tracked())[key := ingressCtx.Tracked()[key]]
  {
    hide Visit;
    hide RouteServices;
    hide Lists;
    hide GatewayContext.View;
    hide AGCResourceGraph.View;
    hide GatewayContext.Valid;
    hide AGCResourceGraph.Valid;
    hide IngressAnnotationContext.View;
    ghost var before := ingressCtx.Tracked();
    err := HandleAnnotation(env, graph, gateway, routeCtx, ingressCtx.ingress, ingressCtx.annotations[key], key,
                            orders);
    assert ingressCtx.Tracked() == before[key := ingressCtx.annotations[key].View()];
  }

  /** One round of the annotation loop. */
  method VisitAnnotation(
    env: Env, graph: AGCResourceGraph, gateway: GatewayContext, ingressCtx: IngressContext, routeCtx: HTTPRouteContext,
    schedule: Schedule, i: nat, key: string, errs: set<string>) returns (failed: set<string>)
    requires graph.Valid() && gateway.Valid() && ingressCtx.Valid()
    requires ValidSchedule(schedule, ingressCtx.annotations.Keys) && key in ingressCtx.annotations
    modifies graph, gateway`httpListener, gateway`httpsListeners, gateway`hasHTTPSRedirect
    modifies gateway.httpsListeners.Values, routeCtx, ingressCtx.annotations[key]
    ensures graph.Valid() && gateway.Valid()
    ensures fresh(gateway.httpsListeners.Values - old(gateway.httpsListeners.Values))
    ensures Pass(World(gateway.View(), graph.View()), routeCtx.route, ingressCtx.Tracked(), failed)
         == VisitOne(env, ingressCtx.ingress, routeCtx.namedParentSections, schedule, i,
                     Pass(old(World(gateway.View(), graph.View())), old(routeCtx.route), old(ingressCtx.Tracked()),
                          errs), key)
  {
    hide *;
    var orders := OrdersFor(schedule, i, key, gateway, routeCtx, ingressCtx.annotations.Keys, graph.View());
    ghost var before := Pass(World(gateway.View(), graph.View()), routeCtx.route, ingressCtx.Tracked(), errs);
    var err := HandleTracked(env, graph, gateway, ingressCtx, routeCtx, key, orders);
    VisitOneIs(env, ingressCtx.ingress, routeCtx.namedParentSections, schedule, i, before, key, orders,
               Outcome(World(gateway.View(), graph.View()), routeCtx.route, ingressCtx.Tracked()[key], err));
    failed := if err then errs + {key} else errs;
  }

  /** `handleIngressAnnotations` for rule `i`; `errs` are the keys that have failed so far. */
  method HandleIngressAnnotations(
    env: Env, graph: AGCResourceGraph, gateway: GatewayContext, ingressCtx: IngressContext, routeCtx: HTTPRouteContext,
    schedule: Schedule, i: nat, errs: set<string>) returns (failed: set<string>)
    requires graph.Valid() && gateway.Valid() && ingressCtx.Valid()
    requires ValidSchedule(schedule, ingressCtx.annotations.Keys)
    modifies graph, gateway`httpListener, gateway`httpsListeners, gateway`hasHTTPSRedirect
    modifies gateway.httpsListeners.Values, routeCtx, ingressCtx.annotations.Values
    ensures graph.Valid() && gateway.Valid()
    ensures fresh(gateway.httpsListeners.Values - old(gateway.httpsListeners.Values))
    ensures (forall k | k in schedule.annotations(i) :: k in ingressCtx.annotations)
    ensures Pass(World(gateway.View(), graph.View()), routeCtx.route, ingressCtx.Tracked(), failed)
         == VisitAll(env, ingressCtx.ingress, routeCtx.namedParentSections, schedule, i,
                     Pass(old(World(gateway.View(), graph.View())), old(routeCtx.route), old(ingressCtx.Tracked()),
                          errs),
                     schedule.annotations(i))
  {
    hide *;
    var order := schedule.annotations(i);
    failed := errs;
    ghost var start := Pass(World(gateway.View(), graph.View()), routeCtx.route, ingressCtx.Tracked(), errs);
    ScheduledOrders(schedule, ingressCtx.annotations.Keys, i, start.world, start.route, "");
    VisitNone(env, ingressCtx.ingress, routeCtx.namedParentSections, schedule, i, start, order);
    for j := 0 to |order|
      invariant graph.Valid() && gateway.Valid()
      invariant fresh(gateway.httpsListeners.Values - old(gateway.httpsListeners.Values))
      invariant Pass(World(gateway.View(), graph.View()), routeCtx.route, ingressCtx.Tracked(), failed)
             == VisitAll(env, ingressCtx.ingress, routeCtx.namedParentSections, schedule, i, start, order[..j])
    {
      VisitAllSnoc(env, ingressCtx.ingress, routeCtx.namedParentSections, schedule, i, start, order, j);
      failed := VisitAnnotation(env, graph, gateway, ingressCtx, routeCtx, schedule, i, order[j], failed);
    }
    assert order[..|order|] == order;
  }

  /** The route of a host: the one at hand, or a new one. */
  method FindRoute(
    env: Env, graph: AGCResourceGraph, gateway: GatewayContext, ingress: Ingress, host: string,
    routes: map<string, HTTPRoute>,
                   ghost s: IngressRun) returns (route: HTTPRoute)
    requires graph.Valid() && gateway.Valid() && s.routes == routes && s.world == World(gateway.View(), graph.View())
    modifies graph`referenceGrants, gateway`httpListener, gateway`httpsListeners, gateway.httpsListeners.Values
    ensures graph.Valid() && gateway.Valid()
    ensures fresh(gateway.httpsListeners.Values - old(gateway.httpsListeners.Values))
    ensures (World(gateway.View(), graph.View()), route) == RouteFor(env.naming, ingress, s, host)
  {
    hide NewRoute;
    if host in routes {
      route := routes[host];
    } else {
      route := InitRoute(env, graph, gateway, ingress, host);
    }
  }

  /** The paths and annotations of rule `i`, on the route of its host. */
  method MigrateRule(
    env: Env, graph: AGCResourceGraph, gateway: GatewayContext, ingressCtx: IngressContext, schedule: Schedule, i: nat,
    route: HTTPRoute,
    errs: set<string>, ghost s: IngressRun) returns (migrated: HTTPRoute, failed: set<string>)
    requires graph.Valid() && gateway.Valid() && ingressCtx.Valid()
    requires i < |ingressCtx.ingress.rules| && ingressCtx.ingress.rules[i].http.Some?
    requires s.annotations == ingressCtx.Tracked() && s.failed == errs && ValidSchedule(schedule, s.annotations.Keys)
    requires RouteFor(env.naming, ingressCtx.ingress, s, ingressCtx.ingress.rules[i].host)
          == (World(gateway.View(), graph.View()), route)
    modifies graph, gateway`httpListener, gateway`httpsListeners, gateway`hasHTTPSRedirect
    modifies gateway.httpsListeners.Values, ingressCtx.annotations.Values
    ensures graph.Valid() && gateway.Valid()
    ensures fresh(gateway.httpsListeners.Values - old(gateway.httpsListeners.Values))
    ensures Pass(World(gateway.View(), graph.View()), migrated, ingressCtx.Tracked(), failed)
         == PassEnd(env, ingressCtx.ingress, schedule, s, i)
  {
    hide RouteFor;
    hide TranslatePaths;
    hide ValidSchedule;
    hide VisitAll;
    var extended := AppendPaths(route, ingressCtx.ingress.rules[i].http.value);
    var routeCtx := new HTTPRouteContext(extended);
    failed := HandleIngressAnnotations(env, graph, gateway, ingressCtx, routeCtx, schedule, i, errs);
    migrated := routeCtx.route;
  }

  /** The part of a round that a rule without paths skips. */
  method HandlePaths(
    env: Env, graph: AGCResourceGraph, gateway: GatewayContext, ingressCtx: IngressContext, schedule: Schedule, i: nat,
    route: HTTPRoute,
    routes: map<string, HTTPRoute>, errs: set<string>, ghost s: IngressRun)
    returns (nextRoutes: map<string, HTTPRoute>, failed: set<string>)
    requires graph.Valid() && gateway.Valid() && ingressCtx.Valid()
    requires i < |ingressCtx.ingress.rules| && ingressCtx.ingress.rules[i].http.Some?
    requires s.routes == routes && s.annotations == ingressCtx.Tracked() && s.failed == errs
    requires ValidSchedule(schedule, s.annotations.Keys)
    requires RouteFor(env.naming, ingressCtx.ingress, s, ingressCtx.ingress.rules[i].host)
          == (World(gateway.View(), graph.View()), route)
    modifies graph, gateway`httpListener, gateway`httpsListeners, gateway`hasHTTPSRedirect
    modifies gateway.httpsListeners.Values, ingressCtx.annotations.Values
    ensures graph.Valid() && gateway.Valid()
    ensures fresh(gateway.httpsListeners.Values - old(gateway.httpsListeners.Values))
    ensures IngressRun(World(gateway.View(), graph.View()), nextRoutes, ingressCtx.Tracked(), failed,
                       s.recorded + [route.name])
         == Ingresses.HandleRule(env, ingressCtx.ingress, schedule, s, i)
  {
    hide *;
    MigratedRule(env, ingressCtx.ingress, schedule, s, i, World(gateway.View(), graph.View()), route);
    var migrated;
    migrated, failed := MigrateRule(env, graph, gateway, ingressCtx, schedule, i, route, errs, s);
    nextRoutes := routes[ingressCtx.ingress.rules[i].host := migrated];
    CommitRoute(graph, migrated, gateway.View());
  }

  /** One round of the rule loop; `recorded` are the names this ingress has recorded so far. */
  method HandleRule(
    env: Env, graph: AGCResourceGraph, gateway: GatewayContext, ingressCtx: IngressContext, schedule: Schedule, i: nat,
    routes: map<string, HTTPRoute>, errs: set<string>, ghost recorded: seq<NamespacedName>)
    returns (nextRoutes: map<string, HTTPRoute>, failed: set<string>, route: HTTPRoute)
    requires graph.Valid() && gateway.Valid() && ingressCtx.Valid()
    requires i < |ingressCtx.ingress.rules| && ValidSchedule(schedule, ingressCtx.annotations.Keys)
    modifies graph, gateway`httpListener, gateway`httpsListeners, gateway`hasHTTPSRedirect
    modifies gateway.httpsListeners.Values, ingressCtx`httpRoutes, ingressCtx.annotations.Values
    ensures graph.Valid() && gateway.Valid()
    ensures fresh(gateway.httpsListeners.Values - old(gateway.httpsListeners.Values))
    ensures IngressRun(World(gateway.View(), graph.View()), nextRoutes, ingressCtx.Tracked(), failed,
                       recorded + [route.name])
         == Ingresses.HandleRule(env, ingressCtx.ingress, schedule,
                                 IngressRun(old(World(gateway.View(), graph.View())), routes, old(ingressCtx.Tracked()),
                                            errs, recorded), i)
    ensures ingressCtx.httpRoutes == old(ingressCtx.httpRoutes) + [route.name]
  {
    hide *;
    ghost var s := IngressRun(World(gateway.View(), graph.View()), routes, ingressCtx.Tracked(), errs, recorded);
    var rule := ingressCtx.ingress.rules[i];
    route := FindRoute(env, graph, gateway, ingressCtx.ingress, rule.host, routes, s);
    nextRoutes, failed := routes[rule.host := route], errs;
    ghost var w := World(gateway.View(), graph.View());
    ingressCtx.httpRoutes := ingressCtx.httpRoutes + [route.name];
    if rule.http.None? {
      PathlessRule(env, ingressCtx.ingress, schedule, s, i, w, route);
      return;
    }
    nextRoutes, failed := HandlePaths(env, graph, gateway, ingressCtx, schedule, i, route, routes, errs, s);
  }

  method CommitRoute(graph: AGCResourceGraph, route: HTTPRoute, ghost g: GatewayState)
    requires graph.Valid()
    modifies graph`httpRoutes
    ensures graph.Valid() && World(g, graph.View()) == Commit(World(g, old(graph.View())), route)
  {
    graph.httpRoutes := graph.httpRoutes[route.name := route];
  }

  // ---------- One ingress ----------

  /** The TLS loop of `handleIngress`. */
  method GrantSecrets(graph: AGCResourceGraph, gateway: GatewayContext, ingress: Ingress)
    requires graph.Valid()
    modifies graph`referenceGrants
    ensures graph.Valid()
    ensures World(gateway.View(), graph.View())
         == GrantTLS(old(World(gateway.View(), graph.View())), ingress, |ingress.tls|)
  {
    hide WithGrant;
    ghost var w := World(gateway.View(), graph.View());
    for i := 0 to |ingress.tls|
      invariant graph.Valid()
      invariant World(gateway.View(), graph.View()) == GrantTLS(w, ingress, i)
    {
      if ingress.tls[i].secretName == "" {
        continue;
      }
      if ingress.name.namespace != gateway.name.namespace {
        graph.GetOrCreateReferenceGrantForGWSecret(gateway.name.namespace, ingress.name.namespace);
      }
    }
  }

  /** `handleIngress`; the result holds the keys of the annotations whose handlers failed. */
  method HandleIngress(
    env: Env, graph: AGCResourceGraph, gateway: GatewayContext, ingressCtx: IngressContext, schedule: Schedule)
    returns (failed: set<string>, ghost r: IngressRun)
    requires graph.Valid() && gateway.Valid() && ingressCtx.Valid()
    requires ValidSchedule(schedule, ingressCtx.annotations.Keys)
    modifies graph, gateway`httpListener, gateway`httpsListeners, gateway`hasHTTPSRedirect
    modifies gateway.httpsListeners.Values, ingressCtx`httpRoutes, ingressCtx.annotations.Values
    ensures graph.Valid() && gateway.Valid()
    ensures fresh(gateway.httpsListeners.Values - old(gateway.httpsListeners.Values))
    ensures r == Ingresses.HandleIngress(env, ingressCtx.ingress, schedule, old(World(gateway.View(), graph.View())),
                                         old(ingressCtx.Tracked()))
    ensures World(gateway.View(), graph.View()) == r.world && ingressCtx.Tracked() == r.annotations
    ensures failed == r.failed
    ensures ingressCtx.httpRoutes == old(ingressCtx.httpRoutes) + r.recorded
  {
    hide *;
    ghost var start := IngressStart(World(gateway.View(), graph.View()), ingressCtx.ingress, ingressCtx.Tracked());
    HandleIngressIs(env, ingressCtx.ingress, schedule, World(gateway.View(), graph.View()), ingressCtx.Tracked());
    r := start;
    NoRulesHandled(env, ingressCtx.ingress, schedule, start);
    GrantSecrets(graph, gateway, ingressCtx.ingress);
    var routes: map<string, HTTPRoute> := map[];
    failed := {};
    for i := 0 to |ingressCtx.ingress.rules|
      invariant graph.Valid() && gateway.Valid()
      invariant fresh(gateway.httpsListeners.Values - old(gateway.httpsListeners.Values))
      invariant r == IngressRun(World(gateway.View(), graph.View()), routes, ingressCtx.Tracked(), failed, r.recorded)
      invariant r == HandleRules(env, ingressCtx.ingress, schedule, start, i)
      invariant ingressCtx.httpRoutes == old(ingressCtx.httpRoutes) + r.recorded
    {
      RulesSnoc(env, ingressCtx.ingress, schedule, start, i);
      var route;
      routes, failed, route := HandleRule(env, graph, gateway, ingressCtx, schedule, i, routes, failed, r.recorded);
      r := IngressRun(World(gateway.View(), graph.View()), routes, ingressCtx.Tracked(), failed,
                      r.recorded + [route.name]);
    }
  }

  // ---------- All ingresses ----------

  /** The ingresses as the conversion finds them. */
  ghost function InputsOf(inputs: map<NamespacedName, IngressContext>): (r: map<NamespacedName, Input>)
    reads set k, a | k in inputs && a in inputs[k].annotations.Values :: a
  {
    map k | k in inputs :: Input(inputs[k].ingress, inputs[k].Tracked())
  }

  /** Each ingress sits under its own name, and tracks its own annotations. */
  ghost predicate ValidContexts(inputs: map<NamespacedName, IngressContext>, schedules: NamespacedName -> Schedule) {
    && (forall k | k in inputs ::
          inputs[k].Valid() && inputs[k].ingress.name == k && ValidSchedule(schedules(k), inputs[k].annotations.Keys))
    && (forall a, b | a in inputs && b in inputs && a != b ::
          inputs[a].annotations.Values !! inputs[b].annotations.Values)
  }

  /** `handleWAFPolicyForGateway`. */
  method HandleWAFPolicyForGateway(graph: AGCResourceGraph, gateway: GatewayContext, policyID: string)
    requires graph.Valid()
    modifies graph`wafPolicies, gateway`issues
    ensures graph.Valid() && graph.View() == WithGatewayWAF(old(graph.View()), gateway.name, policyID)
    ensures gateway.issues == old(gateway.issues) + [Issue(WAFPotentialIncompatibility, None)]
  {
    var policy := graph.GetOrCreateWAFPolicyForGateway(gateway.name);
    gateway.issues := gateway.issues + [Issue(WAFPotentialIncompatibility, None)];
    graph.wafPolicies := graph.wafPolicies[policy.name := policy.(spec := policyID)];
  }

  /** The load balancer the gateway refers to: one of the caller's own, by its ID, or else one made for the managed
      subnet and referred to by its name, or else none. */
  ghost predicate RefersToLoadBalancer(
    options: Options, gateway: NamespacedName, annotations: map<string, string>, alb: Option<ApplicationLoadBalancer>)
  {
    && (alb.Some? <==> options.byoResourceID == "" && options.managedSubnetID != "")
    && (alb.Some? ==>
          alb.value == ApplicationLoadBalancer(NamespacedName(gateway.namespace, "alb"), [options.managedSubnetID]))
    && (ALB_ID_ANNOTATION in annotations <==> options.byoResourceID != "")
    && (ALB_ID_ANNOTATION in annotations ==> annotations[ALB_ID_ANNOTATION] == options.byoResourceID)
    && (ALB_NAME_ANNOTATION in annotations <==> alb.Some?) && (ALB_NAMESPACE_ANNOTATION in annotations <==> alb.Some?)
    && (alb.Some? ==> alb.value.name ==
                      NamespacedName(annotations[ALB_NAMESPACE_ANNOTATION], annotations[ALB_NAME_ANNOTATION]))
    && annotations.Keys <= {ALB_ID_ANNOTATION, ALB_NAME_ANNOTATION, ALB_NAMESPACE_ANNOTATION}
  }

  method ReferToLoadBalancer(options: Options, gateway: NamespacedName)
    returns (annotations: map<string, string>, alb: Option<ApplicationLoadBalancer>)
    ensures RefersToLoadBalancer(options, gateway, annotations, alb)
  {
    annotations, alb := map[], None;
    if options.byoResourceID != "" {
      annotations := annotations[ALB_ID_ANNOTATION := options.byoResourceID];
    } else if options.managedSubnetID != "" {
      var balancer := ApplicationLoadBalancer(NamespacedName(gateway.namespace, "alb"), [options.managedSubnetID]);
      annotations := annotations[ALB_NAME_ANNOTATION := balancer.name.name];
      annotations := annotations[ALB_NAMESPACE_ANNOTATION := balancer.name.namespace];
      alb := Some(balancer);
    }
  }

  /** The issue registered with a gateway-wide WAF policy. */
  function StartIssues(options: Options, scrapedWAFID: string): seq<Issue> {
    if options.gatewayWAFID == "" && scrapedWAFID == "" then [] else [Issue(WAFPotentialIncompatibility, None)]
  }

  /** The graph and gateway the driver starts from. */
  method Start(
    options: Options, scrapedWAFID: string, sorted: seq<NamespacedName>)
    returns (graph: AGCResourceGraph, gateway: GatewayContext)
    ensures fresh(graph) && fresh(gateway) && graph.Valid() && gateway.Valid() && gateway.httpsListeners == map[]
    ensures World(gateway.View(), graph.View()) == StartWorld(options, scrapedWAFID, sorted)
    ensures RefersToLoadBalancer(options, gateway.name, gateway.annotations, graph.applicationLoadBalancer)
    ensures gateway.issues == StartIssues(options, scrapedWAFID)
  {
    hide RefersToLoadBalancer;
    hide WithGatewayWAF;
    var namespace := options.gatewayNamespace;
    if namespace == "" {
      namespace := if |sorted| > 0 then sorted[0].namespace else "default";
    }
    var annotations, alb := ReferToLoadBalancer(options, NamespacedName(namespace, "alb-gateway"));
    graph := new AGCResourceGraph(alb);
    gateway := new GatewayContext(NamespacedName(namespace, "alb-gateway"), annotations);
    if options.gatewayWAFID != "" {
      HandleWAFPolicyForGateway(graph, gateway, options.gatewayWAFID);
    } else if scrapedWAFID != "" {
      HandleWAFPolicyForGateway(graph, gateway, scrapedWAFID);
    }
  }

  /** One round of the driver loop. */
  method ConvertOne(
    env: Env, graph: AGCResourceGraph, gateway: GatewayContext, ingressCtx: IngressContext, schedule: Schedule)
    returns (ghost r: IngressRun)
    requires graph.Valid() && gateway.Valid() && ingressCtx.Valid()
    requires ValidSchedule(schedule, ingressCtx.annotations.Keys)
    modifies graph, gateway`httpListener, gateway`httpsListeners, gateway`hasHTTPSRedirect
    modifies gateway.httpsListeners.Values, ingressCtx, ingressCtx.annotations.Values
    ensures graph.Valid() && gateway.Valid()
    ensures fresh(gateway.httpsListeners.Values - old(gateway.httpsListeners.Values))
    ensures r == Ingresses.HandleIngress(env, ingressCtx.ingress, schedule, old(World(gateway.View(), graph.View())),
                                         old(ingressCtx.Tracked()))
    ensures World(gateway.View(), graph.View()) == r.world && ingressCtx.Holds(r, old(ingressCtx.httpRoutes))
  {
    hide Ingresses.HandleIngress;
    hide ValidSchedule;
    var failed;
    failed, r := HandleIngress(env, graph, gateway, ingressCtx, schedule);
    ingressCtx.MigrationComplete(failed != {});
  }

  /** The driver loop. */
  method ConvertAll(
    env: Env, graph: AGCResourceGraph, gateway: GatewayContext, inputs: map<NamespacedName, IngressContext>,
    schedules: NamespacedName -> Schedule, sorted: seq<NamespacedName>, ghost ins: map<NamespacedName, Input>)
    returns (ghost run: ConvertRun)
    requires graph.Valid() && gateway.Valid() && gateway.httpsListeners == map[]
    requires forall k | k in inputs :: inputs[k].Valid() && ValidSchedule(schedules(k), inputs[k].annotations.Keys)
    requires forall k | k in inputs :: k in ins && ins[k] == Input(inputs[k].ingress, inputs[k].Tracked())
    requires forall a, b | a in inputs && b in inputs && a != b ::
               inputs[a] != inputs[b] && inputs[a].annotations.Values !! inputs[b].annotations.Values
    requires ValidInput(ins, schedules)
    requires forall j | 0 <= j < |sorted| :: sorted[j] in inputs
    requires forall i, j | 0 <= i < j < |sorted| :: sorted[i] != sorted[j]
    modifies graph, gateway`httpListener, gateway`httpsListeners, gateway`hasHTTPSRedirect
    modifies gateway.httpsListeners.Values
    modifies inputs.Values, set k, a | k in inputs && a in inputs[k].annotations.Values :: a
    ensures graph.Valid() && gateway.Valid()
    ensures run == HandleIngresses(env, ins, schedules, old(World(gateway.View(), graph.View())), sorted)
    ensures World(gateway.View(), graph.View()) == run.world
    ensures forall j | 0 <= j < |sorted| ::
              sorted[j] in run.results
              && inputs[sorted[j]].Holds(run.results[sorted[j]], old(inputs[sorted[j]].httpRoutes))
  {
    hide *;
    ghost var start := World(gateway.View(), graph.View());
    run := ConvertRun(start, map[]);
    NoIngressesYet(env, ins, schedules, start, sorted);
    for i := 0 to |sorted|
      invariant graph.Valid() && gateway.Valid() && fresh(gateway.httpsListeners.Values)
      invariant run == HandleIngresses(env, ins, schedules, start, sorted[..i])
      invariant World(gateway.View(), graph.View()) == run.world
      invariant forall j | 0 <= j < i ::
                  sorted[j] in run.results
                  && inputs[sorted[j]].Holds(run.results[sorted[j]], old(inputs[sorted[j]].httpRoutes))
      invariant forall j | i <= j < |sorted| ::
                  unchanged(inputs[sorted[j]]) && unchanged(inputs[sorted[j]].annotations.Values)
    {
      IngressesSnoc(env, ins, schedules, start, sorted, i);
      ghost var r := ConvertOne(env, graph, gateway, inputs[sorted[i]], schedules(sorted[i]));
      run := ConvertRun(r.world, run.results[sorted[i] := r]);
    }
    assert sorted[..|sorted|] == sorted;
  }

  lemma ContextsAsInputs(inputs: map<NamespacedName, IngressContext>, schedules: NamespacedName -> Schedule)
    requires ValidContexts(inputs, schedules)
    ensures ValidInput(InputsOf(inputs), schedules) && InputsOf(inputs).Keys == inputs.Keys
    ensures forall k | k in inputs :: inputs[k].Valid() && ValidSchedule(schedules(k), inputs[k].annotations.Keys)
    ensures forall k | k in inputs ::
              k in InputsOf(inputs) && InputsOf(inputs)[k] == Input(inputs[k].ingress, inputs[k].Tracked())
    ensures forall a, b | a in inputs && b in inputs && a != b ::
              inputs[a] != inputs[b] && inputs[a].annotations.Values !! inputs[b].annotations.Values
  {
    hide ValidSchedule;
  }

  /** `Convert`. Whatever the order in which Go lists the ingresses, the state it leaves is that of the specification,
      and everything in it that refers to something else refers to something that is there. */
  method Convert(
    env: Env, options: Options, scrapedWAFID: string, inputs: map<NamespacedName, IngressContext>,
    schedules: NamespacedName -> Schedule)
    returns (graph: AGCResourceGraph, gateway: GatewayContext, listeners: seq<Listener>, ghost run: ConvertRun)
    requires ValidContexts(inputs, schedules)
    modifies inputs.Values, set k, a | k in inputs && a in inputs[k].annotations.Values :: a
    ensures graph.Valid() && gateway.Valid()
    ensures ValidInput(old(InputsOf(inputs)), schedules)
    ensures forall listing | Lists(listing, inputs.Keys) ::
              run == Ingresses.Convert(env, options, scrapedWAFID, old(InputsOf(inputs)), schedules, listing)
    ensures World(gateway.View(), graph.View()) == run.world
    ensures forall k | k in inputs :: k in run.results && inputs[k].Holds(run.results[k], old(inputs[k].httpRoutes))
    ensures forall order | Lists(order, gateway.View().httpsListeners.Keys) :: listeners == Built(gateway.View(), order)
    ensures RefersToLoadBalancer(options, gateway.name, gateway.annotations, graph.applicationLoadBalancer)
    ensures gateway.issues == StartIssues(options, scrapedWAFID)
    ensures Integrity.Safe(env.naming, World(gateway.View(), graph.View()), {})
  {
    hide *;
    ContextsAsInputs(inputs, schedules);
    ghost var ins := InputsOf(inputs);
    NameLessIsStrictOrder();
    var sorted := SortedKeys(inputs.Keys, NameLess);
    ListedOnce(sorted, inputs.Keys);
    graph, gateway := Start(options, scrapedWAFID, sorted);
    run := ConvertAll(env, graph, gateway, inputs, schedules, sorted, ins);
    forall listing | Lists(listing, inputs.Keys)
      ensures run == Ingresses.Convert(env, options, scrapedWAFID, ins, schedules, listing)
    {
      ConvertIs(env, options, scrapedWAFID, ins, schedules, sorted, listing);
    }
    Integrity.ConvertIsSafe(env, options, scrapedWAFID, ins, schedules, sorted);
    listeners := gateway.Build();
  }
}
