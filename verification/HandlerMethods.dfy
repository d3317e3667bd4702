/** The annotation handlers in their own form: they write the shared graph, gateway and route in place. */
module HandlerMethods {
  import opened Text
  import opened Ordering
  import opened Annotations
  import opened Resources
  import opened Gateways
  import opened BackendGroups
  import opened Filters
  import opened RuleSets
  import opened Probes
  import opened BackendTLS
  import opened Handlers

  method RunRequestTimeout(
    graph: AGCResourceGraph, routeCtx: HTTPRouteContext, annotationCtx: IngressAnnotationContext, ghost g: GatewayState)
    returns (failed: bool)
    requires graph.Valid()
    modifies graph`routePolicies, annotationCtx`status, annotationCtx`destinationResources, annotationCtx`issues
    ensures graph.Valid()
    ensures Outcome(World(g, graph.View()), routeCtx.route, annotationCtx.View(), failed)
         == HandleRequestTimeout(World(g, old(graph.View())), routeCtx.route, old(annotationCtx.View()))
  {
    var seconds := ParseInt(annotationCtx.value, TWO_TO_THE_63);
    if seconds.None? {
      annotationCtx.RegisterIssue(Issue(InvalidAnnotationValue, None));
      return true;
    }
    var policy := graph.GetOrCreateRoutePolicy(routeCtx.route.name);
    var timeout := WrapInt64(seconds.value * NANOSECONDS_PER_SECOND);
    policy := policy.(spec := policy.spec.(routeTimeout := Some(timeout)));
    graph.routePolicies := graph.routePolicies[policy.name := policy];
    annotationCtx.AddDestination(ResourceID(ALB_API_VERSION, KIND_ROUTE_POLICY, policy.name));
    failed := false;
  }

  method RunCookieBasedAffinity(
    graph: AGCResourceGraph, routeCtx: HTTPRouteContext, annotationCtx: IngressAnnotationContext, ghost g: GatewayState)
    returns (failed: bool)
    requires graph.Valid()
    modifies graph`routePolicies, annotationCtx`status, annotationCtx`destinationResources, annotationCtx`issues
    ensures graph.Valid()
    ensures Outcome(World(g, graph.View()), routeCtx.route, annotationCtx.View(), failed)
         == HandleCookieBasedAffinity(World(g, old(graph.View())), routeCtx.route, old(annotationCtx.View()))
  {
    var val := ParseBool(annotationCtx.value);
    if val.None? {
      annotationCtx.RegisterIssue(Issue(InvalidAnnotationValue, None));
      return true;
    }
    if !val.value {
      annotationCtx.SetStatus(Completed);
      return false;
    }
    var policy := graph.GetOrCreateRoutePolicy(routeCtx.route.name);
    policy := policy.(spec := policy.spec.(managedCookie := true));
    graph.routePolicies := graph.routePolicies[policy.name := policy];
    annotationCtx.AddDestination(ResourceID(ALB_API_VERSION, KIND_ROUTE_POLICY, policy.name));
    failed := false;
  }

  method RunWAFPolicyForPath(
    graph: AGCResourceGraph, routeCtx: HTTPRouteContext, annotationCtx: IngressAnnotationContext, ghost g: GatewayState)
    requires graph.Valid()
    modifies graph`wafPolicies, annotationCtx`status, annotationCtx`destinationResources, annotationCtx`issues
    ensures graph.Valid()
    ensures Outcome(World(g, graph.View()), routeCtx.route, annotationCtx.View(), false)
         == HandleWAFPolicyForPath(World(g, old(graph.View())), routeCtx.route, old(annotationCtx.View()))
  {
    var policy := graph.GetOrCreateWAFPolicyForRoute(routeCtx.route.name);
    policy := policy.(spec := annotationCtx.value);
    graph.wafPolicies := graph.wafPolicies[policy.name := policy];
    annotationCtx.RegisterIssue(Issue(WAFPotentialIncompatibility, None));
    annotationCtx.AddDestination(ResourceID(ALB_API_VERSION, KIND_WAF_POLICY, policy.name));
    annotationCtx.SetStatus(Completed);
  }

  method RunSSLRedirect(
    graph: AGCResourceGraph, gateway: GatewayContext, routeCtx: HTTPRouteContext,
    annotationCtx: IngressAnnotationContext)
    requires graph.Valid() && gateway.Valid()
    modifies graph`httpRoutes, gateway`httpListener, gateway`hasHTTPSRedirect, annotationCtx`status,
             annotationCtx`destinationResources
    ensures graph.Valid() && gateway.Valid()
    ensures Outcome(World(gateway.View(), graph.View()), routeCtx.route, annotationCtx.View(), false)
         == HandleSSLRedirect(old(World(gateway.View(), graph.View())), routeCtx.route, old(annotationCtx.View()))
  {
    if gateway.hasHTTPSRedirect {
      return;
    }
    ghost var listeners := gateway.View().httpsListeners;
    var httpListenerName := gateway.EnsureHTTPListener();
    var redirectRoute := HTTPRoute(
      NamespacedName(gateway.name.namespace, "https-redirect"), [],
      [ParentReference(Some(GATEWAY_GROUP), Some(KIND_GATEWAY), gateway.name.name, Some(gateway.name.namespace),
                       Some(httpListenerName))],
      [RouteRule(
         [HTTPRouteMatch(Some(HTTPPathMatch(Some(PathPrefix), Some("/"))))],
         [Filter(RequestRedirectType, None, None, None, Some(RequestRedirect(Some("https"))))],
         [])]);
    graph.httpRoutes := graph.httpRoutes[redirectRoute.name := redirectRoute];
    annotationCtx.AddDestination(ResourceID(GATEWAY_API_VERSION, KIND_HTTP_ROUTE, redirectRoute.name));
    gateway.hasHTTPSRedirect := true;
    annotationCtx.SetStatus(Completed);
    assert gateway.View().httpsListeners == listeners;
  }

  /** The secret named for each host by the TLS entries; later entries overwrite earlier ones. */
  method HostnameSecrets(tls: seq<IngressTLS>) returns (secrets: map<string, string>)
    ensures forall h :: h in secrets <==> HostSecret(tls, h).Some?
    ensures forall h | h in secrets :: HostSecret(tls, h) == Some(secrets[h])
  {
    secrets := map[];
    for i := 0 to |tls|
      invariant forall h :: h in secrets <==> HostSecret(tls[..i], h).Some?
      invariant forall h | h in secrets :: HostSecret(tls[..i], h) == Some(secrets[h])
    {
      ghost var before := secrets;
      var entry := tls[i];
      assert tls[..i + 1][..i] == tls[..i];
      for j := 0 to |entry.hosts|
        invariant forall h :: h in secrets <==> h in before || h in entry.hosts[..j]
        invariant forall h | h in secrets :: secrets[h] == if h in entry.hosts[..j] then entry.secretName else before[h]
      {
        secrets := secrets[entry.hosts[j] := entry.secretName];
        assert entry.hosts[..j + 1] == entry.hosts[..j] + [entry.hosts[j]];
      }
      assert entry.hosts[..|entry.hosts|] == entry.hosts;
    }
    assert tls[..|tls|] == tls;
  }

  lemma HostNamesSnoc(pieces: seq<string>, i: nat)
    requires i < |pieces|
    ensures HostNames(pieces[..i + 1])
         == HostNames(pieces[..i]) + if TrimSpace(pieces[i]) == "" then [] else [TrimSpace(pieces[i])]
  {
    hide TrimSpace;
    assert pieces[..i + 1][..i] == pieces[..i];
  }

  lemma ExtendListenersSnoc(
    naming: Naming, ingress: Ingress, sections: set<string>, w: World, route: HTTPRoute, hosts: seq<string>,
    host: string)
    ensures var (w1, route1) := ExtendListeners(naming, ingress, sections, w, route, hosts);
            ExtendListeners(naming, ingress, sections, w, route, hosts + [host])
            == ExtendListener(naming, ingress, sections, w1, route1, host)
  {
    assert (hosts + [host])[..|hosts|] == hosts;
  }

  lemma NoHostNames(naming: Naming, ingress: Ingress, sections: set<string>, w: World, route: HTTPRoute)
    ensures HostNames([]) == [] && ExtendListeners(naming, ingress, sections, w, route, []) == (w, route)
  {
  }

  /** The body of the hostname loop. */
  method RunExtendListener(
    naming: Naming, graph: AGCResourceGraph, gateway: GatewayContext, routeCtx: HTTPRouteContext, ingress: Ingress,
    hostnameSecrets: map<string, string>, hostname: string)
    requires graph.Valid() && gateway.Valid()
    requires hostname in hostnameSecrets <==> HostSecret(ingress.tls, hostname).Some?
    requires hostname in hostnameSecrets ==> HostSecret(ingress.tls, hostname) == Some(hostnameSecrets[hostname])
    modifies graph`referenceGrants, gateway`httpsListeners, gateway.httpsListeners.Values, routeCtx`route
    ensures graph.Valid() && gateway.Valid()
    ensures fresh(gateway.httpsListeners.Values - old(gateway.httpsListeners.Values))
    ensures (World(gateway.View(), graph.View()), routeCtx.route)
         == ExtendListener(naming, ingress, routeCtx.namedParentSections, old(World(gateway.View(), graph.View())),
                           old(routeCtx.route), hostname)
  {
    hide RouteWithListener;
    hide HostSecret;
    if hostname in hostnameSecrets {
      routeCtx.EnsureHTTPSListener(naming, graph, gateway, hostname,
                                   NamespacedName(ingress.name.namespace, hostnameSecrets[hostname]));
    }
  }

  /** The hostname loop. */
  method RunExtendListeners(
    naming: Naming, graph: AGCResourceGraph, gateway: GatewayContext, routeCtx: HTTPRouteContext, ingress: Ingress,
    pieces: seq<string>)
    returns (hostnames: seq<string>)
    requires graph.Valid() && gateway.Valid()
    modifies graph`referenceGrants, gateway`httpsListeners, gateway.httpsListeners.Values, routeCtx`route
    ensures graph.Valid() && gateway.Valid()
    ensures fresh(gateway.httpsListeners.Values - old(gateway.httpsListeners.Values))
    ensures hostnames == HostNames(pieces)
    ensures (World(gateway.View(), graph.View()), routeCtx.route)
         == ExtendListeners(naming, ingress, routeCtx.namedParentSections, old(World(gateway.View(), graph.View())),
                            old(routeCtx.route), hostnames)
  {
    hide *;
    NoHostNames(naming, ingress, routeCtx.namedParentSections, World(gateway.View(), graph.View()), routeCtx.route);
    var hostnameSecrets := HostnameSecrets(ingress.tls);
    hostnames := [];
    ghost var w, route := World(gateway.View(), graph.View()), routeCtx.route;
    for i := 0 to |pieces|
      invariant graph.Valid() && gateway.Valid()
      invariant fresh(gateway.httpsListeners.Values - old(gateway.httpsListeners.Values))
      invariant hostnames == HostNames(pieces[..i])
      invariant (World(gateway.View(), graph.View()), routeCtx.route)
             == ExtendListeners(naming, ingress, routeCtx.namedParentSections, w, route, hostnames)
    {
      HostNamesSnoc(pieces, i);
      var hostname := TrimSpace(pieces[i]);
      if hostname == "" {
        continue;
      }
      ExtendListenersSnoc(naming, ingress, routeCtx.namedParentSections, w, route, hostnames, hostname);
      hostnames := hostnames + [hostname];
      RunExtendListener(naming, graph, gateway, routeCtx, ingress, hostnameSecrets, hostname);
    }
    assert pieces[..|pieces|] == pieces;
  }

  method RunHostnameExtension(
    naming: Naming, graph: AGCResourceGraph, gateway: GatewayContext, routeCtx: HTTPRouteContext, ingress: Ingress,
    annotationCtx: IngressAnnotationContext)
    requires graph.Valid() && gateway.Valid()
    modifies graph`referenceGrants, gateway`httpsListeners, gateway.httpsListeners.Values, routeCtx`route,
             annotationCtx`status
    ensures graph.Valid() && gateway.Valid()
    ensures fresh(gateway.httpsListeners.Values - old(gateway.httpsListeners.Values))
    ensures Outcome(World(gateway.View(), graph.View()), routeCtx.route, annotationCtx.View(), false)
         == HandleHostnameExtension(naming, ingress, routeCtx.namedParentSections,
                                    old(World(gateway.View(), graph.View())), old(routeCtx.route),
                                    old(annotationCtx.View()))
  {
    hide Split;
    hide HostNames;
    hide ExtendListeners;
    hide Next;
    hide GatewayContext.View;
    hide AGCResourceGraph.View;
    hide GatewayContext.Valid;
    hide AGCResourceGraph.Valid;
    var hostnames := RunExtendListeners(naming, graph, gateway, routeCtx, ingress, Split(annotationCtx.value, ','));
    routeCtx.route := routeCtx.route.(hostnames := routeCtx.route.hostnames + hostnames);
    annotationCtx.SetStatus(Completed);
  }

  /** The body of the profile loop: set the profile of one listener, unless another is set. */
  method WriteProfile(
    graph: AGCResourceGraph, gatewayName: NamespacedName, annotationCtx: IngressAnnotationContext, listener: string,
    profile: string)
    returns (failed: bool)
    requires graph.Valid()
    modifies graph`frontendTLSPolicies, annotationCtx`status, annotationCtx`destinationResources, annotationCtx`issues
    ensures graph.Valid()
    ensures ProfileRun(graph.frontendTLSPolicies, annotationCtx.View(), failed)
         == OneProfile(ProfileRun(old(graph.frontendTLSPolicies), old(annotationCtx.View()), false), gatewayName,
                       profile, listener)
  {
    hide Level;
    hide Next;
    var policy := graph.GetOrCreateFrontendTLSPolicy(gatewayName, listener);
    if policy.spec.None? {
      graph.frontendTLSPolicies := graph.frontendTLSPolicies[policy.name := policy.(spec := Some(profile))];
      annotationCtx.RegisterIssue(Issue(FrontendTLSPolicyProfileCipherWarning, None));
      annotationCtx.destinationResources :=
        annotationCtx.destinationResources + {ResourceID(ALB_API_VERSION, KIND_FRONTEND_TLS_POLICY, policy.name)};
    } else if policy.spec.value != profile {
      annotationCtx.RegisterIssue(Issue(FrontendTLSPolicyProfileConflict, Some(policy.name)));
      return true;
    }
    failed := false;
  }

  method RunSSLProfile(
    graph: AGCResourceGraph, gateway: GatewayContext, routeCtx: HTTPRouteContext,
    annotationCtx: IngressAnnotationContext, order: seq<ListenerKey>)
    returns (failed: bool)
    requires graph.Valid() && Lists(order, gateway.httpsListeners.Keys)
    modifies graph`frontendTLSPolicies, annotationCtx`status, annotationCtx`destinationResources, annotationCtx`issues
    ensures graph.Valid()
    ensures Outcome(World(gateway.View(), graph.View()), routeCtx.route, annotationCtx.View(), failed)
         == HandleSSLProfile(old(World(gateway.View(), graph.View())), routeCtx.route, old(annotationCtx.View()), order)
  {
    hide ParentHTTPSListenerNames;
    hide ApplyProfile;
    hide ProfileFor;
    hide Lists;
    hide Level;
    hide Next;
    var profile := ProfileFor(annotationCtx.value);
    var names := routeCtx.GetParentHTTPSListenerNames(gateway, order);
    if |names| == 0 {
      annotationCtx.RegisterIssue(Issue(NoHTTPSListenersForSSLProfile, None));
      return false;
    }
    failed := WriteProfiles(graph, gateway.name, annotationCtx, names, profile);
  }

  /** The profile loop. */
  method WriteProfiles(
    graph: AGCResourceGraph, gatewayName: NamespacedName, annotationCtx: IngressAnnotationContext, names: seq<string>,
    profile: string)
    returns (failed: bool)
    requires graph.Valid()
    modifies graph`frontendTLSPolicies, annotationCtx`status, annotationCtx`destinationResources, annotationCtx`issues
    ensures graph.Valid()
    ensures ProfileRun(graph.frontendTLSPolicies, annotationCtx.View(), failed)
         == ApplyProfile(old(ProfileRun(graph.frontendTLSPolicies, annotationCtx.View(), false)), gatewayName, profile,
                         names)
  {
    hide OneProfile;
    hide AGCResourceGraph.Valid;
    hide AGCResourceGraph.View;
    hide IngressAnnotationContext.View;
    ghost var r := ProfileRun(graph.frontendTLSPolicies, annotationCtx.View(), false);
    for i := 0 to |names|
      invariant graph.Valid()
      invariant ProfileRun(graph.frontendTLSPolicies, annotationCtx.View(), false)
             == ApplyProfile(r, gatewayName, profile, names[..i])
    {
      assert names[..i + 1][..i] == names[..i];
      var conflict := WriteProfile(graph, gatewayName, annotationCtx, names[i], profile);
      if conflict {
        FailedProfileStays(r, gatewayName, profile, names, i + 1);
        return true;
      }
    }
    assert names[..|names|] == names;
    return false;
  }

  /** Once the loop has failed it changes nothing more. */
  lemma {:induction false} FailedProfileStays(
    r: ProfileRun, gateway: NamespacedName, profile: string, names: seq<string>, n: nat)
    requires n <= |names| && ApplyProfile(r, gateway, profile, names[..n]).failed
    ensures ApplyProfile(r, gateway, profile, names) == ApplyProfile(r, gateway, profile, names[..n])
  {
    if n < |names| {
      var init := names[..|names| - 1];
      assert init[..n] == names[..n];
      FailedProfileStays(r, gateway, profile, init, n);
    } else {
      assert names[..n] == names;
    }
  }

  /** The handlers that only write policies. */
  method RunPolicyHandler(
    graph: AGCResourceGraph, routeCtx: HTTPRouteContext, annotationCtx: IngressAnnotationContext, handler: Handler,
    orders: Orders,
    ghost env: Env, ghost ingress: Ingress, ghost sections: set<string>, ghost g: GatewayState) returns (failed: bool)
    requires graph.Valid() && Lists(orders.services, RouteServices(routeCtx.route))
    requires handler.RequestTimeout? || handler.CookieBasedAffinity? || handler.Probe? || handler.WAFPolicyForPath?
             || handler.BackendProtocol?
    modifies graph`routePolicies, graph`healthCheckPolicies, graph`wafPolicies, graph`backendTLSPolicies
    modifies annotationCtx`status, annotationCtx`destinationResources, annotationCtx`issues
    ensures graph.Valid()
    ensures Outcome(World(g, graph.View()), routeCtx.route, annotationCtx.View(), failed)
         == Handle(env, ingress, sections, World(g, old(graph.View())), routeCtx.route, old(annotationCtx.View()),
                   handler, orders)
  {
    hide HandleRequestTimeout;
    hide HandleCookieBasedAffinity;
    hide HandleProbe;
    hide HandleWAFPolicyForPath;
    hide HandleProtocol;
    hide RouteServices;
    hide Lists;
    failed := false;
    match handler {
      case RequestTimeout => failed := RunRequestTimeout(graph, routeCtx, annotationCtx, g);
      case CookieBasedAffinity => failed := RunCookieBasedAffinity(graph, routeCtx, annotationCtx, g);
      case Probe(field) => failed := HandleHealthProbe(graph, routeCtx, annotationCtx, field, orders.services);
      case WAFPolicyForPath => RunWAFPolicyForPath(graph, routeCtx, annotationCtx, g);
      case BackendProtocol => failed := HandleBackendProtocol(graph, routeCtx, annotationCtx, orders.services);
    }
  }

  /** The handlers that only write filters. */
  method RunFilterHandler(
    env: Env, routeCtx: HTTPRouteContext, ingress: Ingress, annotationCtx: IngressAnnotationContext, handler: Handler,
    ghost orders: Orders, ghost sections: set<string>, ghost w: World) returns (failed: bool)
    requires handler.BackendHostname? || handler.BackendPathPrefix? || handler.RewriteRuleSetCustomResource?
    modifies routeCtx`route, annotationCtx`status, annotationCtx`issues
    ensures Outcome(w, routeCtx.route, annotationCtx.View(), failed)
         == Handle(env, ingress, sections, w, old(routeCtx.route), old(annotationCtx.View()), handler, orders)
  {
    hide ApplyOp;
    hide HandleRuleSet;
    hide Next;
    failed := false;
    match handler {
      case BackendHostname => HandleHTTPFilter(routeCtx, annotationCtx, RewriteHostname(annotationCtx.value));
      case BackendPathPrefix => HandleHTTPFilter(routeCtx, annotationCtx, RewritePrefix(annotationCtx.value));
      case RewriteRuleSetCustomResource =>
        var name := NamespacedName(ingress.name.namespace, annotationCtx.value);
        var ruleSet := if name in env.rewrites then Some(env.rewrites[name]) else None;
        failed := HandleRewriteRuleSet(routeCtx, annotationCtx, ruleSet);
    }
  }

  /** The handlers that work on the gateway or read its listeners. */
  method RunGatewayHandler(
    env: Env, graph: AGCResourceGraph, gateway: GatewayContext, routeCtx: HTTPRouteContext, ingress: Ingress,
    annotationCtx: IngressAnnotationContext, handler: Handler, orders: Orders) returns (failed: bool)
    requires graph.Valid() && gateway.Valid() && Lists(orders.listeners, gateway.httpsListeners.Keys)
    requires handler.HostnameExtension? || handler.SSLRedirect? || handler.TrustedRootCertificate?
             || handler.SSLProfile?
    modifies graph, gateway`httpListener, gateway`httpsListeners, gateway`hasHTTPSRedirect
    modifies gateway.httpsListeners.Values, routeCtx, annotationCtx
    ensures graph.Valid() && gateway.Valid()
    ensures fresh(gateway.httpsListeners.Values - old(gateway.httpsListeners.Values))
    ensures Outcome(World(gateway.View(), graph.View()), routeCtx.route, annotationCtx.View(), failed)
         == Handle(env, ingress, routeCtx.namedParentSections, old(World(gateway.View(), graph.View())),
                   old(routeCtx.route),
                   old(annotationCtx.View()), handler, orders)
  {
    hide HandleHostnameExtension;
    hide HandleSSLRedirect;
    hide HandleSSLProfile;
    hide Lists;
    hide Next;
    hide AGCResourceGraph.Valid;
    hide GatewayContext.Valid;
    hide AGCResourceGraph.View;
    hide GatewayContext.View;
    failed := false;
    match handler {
      case HostnameExtension => RunHostnameExtension(env.naming, graph, gateway, routeCtx, ingress, annotationCtx);
      case SSLRedirect => RunSSLRedirect(graph, gateway, routeCtx, annotationCtx);
      case TrustedRootCertificate => annotationCtx.RegisterIssue(Issue(AppGWTrustedRootCertificatesNotSupported, None));
      case SSLProfile => failed := RunSSLProfile(graph, gateway, routeCtx, annotationCtx, orders.listeners);
    }
  }

  /** The call of the registered handler. */
  method RunHandler(
    env: Env, graph: AGCResourceGraph, gateway: GatewayContext, routeCtx: HTTPRouteContext, ingress: Ingress,
    annotationCtx: IngressAnnotationContext, handler: Handler, orders: Orders) returns (failed: bool)
    requires graph.Valid() && gateway.Valid()
    requires Lists(orders.services, RouteServices(routeCtx.route))
    requires Lists(orders.listeners, gateway.httpsListeners.Keys)
    modifies graph, gateway`httpListener, gateway`httpsListeners, gateway`hasHTTPSRedirect
    modifies gateway.httpsListeners.Values, routeCtx, annotationCtx
    ensures graph.Valid() && gateway.Valid()
    ensures fresh(gateway.httpsListeners.Values - old(gateway.httpsListeners.Values))
    ensures Outcome(World(gateway.View(), graph.View()), routeCtx.route, annotationCtx.View(), failed)
         == Handle(env, ingress, routeCtx.namedParentSections, old(World(gateway.View(), graph.View())),
                   old(routeCtx.route),
                   old(annotationCtx.View()), handler, orders)
  {
    hide *;
    match handler {
      case HostnameExtension | SSLRedirect | TrustedRootCertificate | SSLProfile =>
        failed := RunGatewayHandler(env, graph, gateway, routeCtx, ingress, annotationCtx, handler, orders);
      case BackendHostname | BackendPathPrefix | RewriteRuleSetCustomResource =>
        failed := RunFilterHandler(env, routeCtx, ingress, annotationCtx, handler, orders, routeCtx.namedParentSections,
                                   World(gateway.View(), graph.View()));
      case RequestTimeout | CookieBasedAffinity | Probe(_) | WAFPolicyForPath | BackendProtocol =>
        failed := RunPolicyHandler(graph, routeCtx, annotationCtx, handler, orders,
                                   env, ingress, routeCtx.namedParentSections, gateway.View());
    }
  }

  /** The body of the annotation loop: ignore, dispatch, or report as unsupported. */
  method HandleAnnotation(
    env: Env, graph: AGCResourceGraph, gateway: GatewayContext, routeCtx: HTTPRouteContext, ingress: Ingress,
    annotationCtx: IngressAnnotationContext, key: string, orders: Orders) returns (failed: bool)
    requires graph.Valid() && gateway.Valid()
    requires Lists(orders.services, RouteServices(routeCtx.route))
    requires Lists(orders.listeners, gateway.httpsListeners.Keys)
    modifies graph, gateway`httpListener, gateway`httpsListeners, gateway`hasHTTPSRedirect
    modifies gateway.httpsListeners.Values, routeCtx, annotationCtx
    ensures graph.Valid() && gateway.Valid()
    ensures fresh(gateway.httpsListeners.Values - old(gateway.httpsListeners.Values))
    ensures Outcome(World(gateway.View(), graph.View()), routeCtx.route, annotationCtx.View(), failed)
         == Visit(env, ingress, routeCtx.namedParentSections, old(World(gateway.View(), graph.View())),
                  old(routeCtx.route), key,
                  old(annotationCtx.View()), orders)
  {
    hide HandlerFor;
    hide Handle;
    hide RouteServices;
    hide Lists;
    hide Level;
    hide Next;
    failed := false;
    if key == LAST_APPLIED {
      annotationCtx.SetStatus(Ignored);
      return;
    }
    var handler := HandlerFor(key);
    if handler.Some? {
      failed := RunHandler(env, graph, gateway, routeCtx, ingress, annotationCtx, handler.value, orders);
    } else {
      annotationCtx.RegisterIssue(Issue(UnsupportedAnnotationGeneric, None));
    }
  }
}
