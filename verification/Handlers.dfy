/** The annotation handlers of the AGIC provider. */
module Handlers {
  import opened Text
  import opened Ordering
  import opened Annotations
  import opened Resources
  import opened Gateways
  import opened Filters
  import opened RuleSets
  import opened Probes
  import opened BackendTLS

  // ---------- The input ----------

  datatype IngressBackend =
    | ResourceBackend
    | ServiceBackend(name: string, portName: string, portNumber: int)

  datatype IngressPathType = ExactPath | PrefixPath | ImplementationSpecificPath | UnknownPathType

  datatype IngressPath = IngressPath(path: string, pathType: Option<IngressPathType>, backend: IngressBackend)

  datatype IngressRule = IngressRule(host: string, http: Option<seq<IngressPath>>)

  datatype IngressTLS = IngressTLS(hosts: seq<string>, secretName: string)

  datatype Ingress = Ingress(name: NamespacedName, tls: seq<IngressTLS>, rules: seq<IngressRule>)

  /** What the handlers read besides the ingress: the library's naming and the rewrite resources. */
  datatype Env = Env(naming: Naming, rewrites: map<NamespacedName, seq<RewriteRule>>)

  /** The orders in which one call may range over maps: the services of the route and the HTTPS listeners. */
  datatype Orders = Orders(services: seq<NamespacedName>, listeners: seq<ListenerKey>)

  // ---------- Dispatch ----------

  datatype Handler =
    | RequestTimeout
    | CookieBasedAffinity
    | Probe(field: ProbeField)
    | HostnameExtension
    | BackendHostname
    | RewriteRuleSetCustomResource
    | WAFPolicyForPath
    | BackendPathPrefix
    | SSLRedirect
    | BackendProtocol
    | TrustedRootCertificate
    | SSLProfile

  const LAST_APPLIED := "kubectl.kubernetes.io/last-applied-configuration"

  const KEY_PREFIX := "appgw.ingress.kubernetes.io/"

  /** The annotation key of each handler. */
  function KeyOf(h: Handler): string {
    KEY_PREFIX + Suffix(h)
  }

  function Suffix(h: Handler): string {
    match h
    case RequestTimeout => "request-timeout"
    case CookieBasedAffinity => "cookie-based-affinity"
    case Probe(ProbeHostname) => "health-probe-hostname"
    case Probe(ProbePath) => "health-probe-path"
    case Probe(ProbeInterval) => "health-probe-interval"
    case Probe(ProbePort) => "health-probe-port"
    case Probe(ProbeStatusCodes) => "health-probe-status-codes"
    case Probe(ProbeTimeout) => "health-probe-timeout"
    case Probe(ProbeUnhealthyThreshold) => "health-probe-unhealthy-threshold"
    case HostnameExtension => "hostname-extension"
    case BackendHostname => "backend-hostname"
    case RewriteRuleSetCustomResource => "rewrite-rule-set-custom-resource"
    case WAFPolicyForPath => "waf-policy-for-path"
    case BackendPathPrefix => "backend-path-prefix"
    case SSLRedirect => "ssl-redirect"
    case BackendProtocol => "backend-protocol"
    case TrustedRootCertificate => "appgw-trusted-root-certificate"
    case SSLProfile => "appgw-ssl-profile"
  }

  const HANDLERS: seq<Handler> := [
    RequestTimeout, CookieBasedAffinity, Probe(ProbeHostname), Probe(ProbePath), Probe(ProbeInterval), Probe(ProbePort),
    Probe(ProbeStatusCodes), Probe(ProbeTimeout), Probe(ProbeUnhealthyThreshold), HostnameExtension, BackendHostname,
    RewriteRuleSetCustomResource, WAFPolicyForPath, BackendPathPrefix, SSLRedirect, BackendProtocol,
    TrustedRootCertificate, SSLProfile]

  /** The handler registered for a key in `GetAnnotationHandlers`. */
  function HandlerFor(key: string): (h: Option<Handler>)
    ensures h.Some? ==> KeyOf(h.value) == key
  {
    HandlerAmong(key, HANDLERS)
  }

  function HandlerAmong(key: string, handlers: seq<Handler>): (h: Option<Handler>)
    ensures h.Some? ==> KeyOf(h.value) == key
  {
    if handlers == [] then None
    else if KeyOf(handlers[|handlers| - 1]) == key then Some(handlers[|handlers| - 1])
    else HandlerAmong(key, handlers[..|handlers| - 1])
  }

  /** Two characters and a length tell the keys apart. */
  function Signature(s: string): (nat, char, char) {
    if |s| < 15 then (|s|, '-', '-') else (|s|, s[0], s[14])
  }

  function SignatureOf(h: Handler): (nat, char, char) {
    match h
    case RequestTimeout => (15, 'r', 't')
    case CookieBasedAffinity => (21, 'c', 'f')
    case Probe(ProbeHostname) => (21, 'h', 'o')
    case Probe(ProbePath) => (17, 'h', 'a')
    case Probe(ProbeInterval) => (21, 'h', 'n')
    case Probe(ProbePort) => (17, 'h', 'o')
    case Probe(ProbeStatusCodes) => (25, 'h', 't')
    case Probe(ProbeTimeout) => (20, 'h', 'i')
    case Probe(ProbeUnhealthyThreshold) => (32, 'h', 'n')
    case HostnameExtension => (18, 'h', 's')
    case BackendHostname => (16, 'b', 'm')
    case RewriteRuleSetCustomResource => (32, 'r', 'e')
    case WAFPolicyForPath => (19, 'w', '-')
    case BackendPathPrefix => (19, 'b', 'r')
    case SSLRedirect => (12, '-', '-')
    case BackendProtocol => (16, 'b', 'o')
    case TrustedRootCertificate => (30, 'a', 'r')
    case SSLProfile => (17, 'a', 'i')
  }

  lemma KeysDiffer(a: Handler, b: Handler)
    requires KeyOf(a) == KeyOf(b)
    ensures a == b
  {
    PrefixCancels(KEY_PREFIX, Suffix(a), Suffix(b));
    SignatureIsRight(a);
    SignatureIsRight(b);
    hide Suffix;
    hide Signature;
  }

  lemma SignatureIsRight(h: Handler)
    ensures Signature(Suffix(h)) == SignatureOf(h)
  {
  }

  lemma {:induction false} FoundAmong(h: Handler, handlers: seq<Handler>)
    requires h in handlers
    ensures HandlerAmong(KeyOf(h), handlers) == Some(h)
  {
    hide KeyOf;
    var last := handlers[|handlers| - 1];
    if last != h {
      if KeyOf(last) == KeyOf(h) {
        KeysDiffer(last, h);
      }
      FoundAmong(h, handlers[..|handlers| - 1]);
    }
  }

  lemma AllHandlers(h: Handler)
    ensures h in HANDLERS
  {
    match h {
      case RequestTimeout => assert HANDLERS[0] == h;
      case CookieBasedAffinity => assert HANDLERS[1] == h;
      case Probe(ProbeHostname) => assert HANDLERS[2] == h;
      case Probe(ProbePath) => assert HANDLERS[3] == h;
      case Probe(ProbeInterval) => assert HANDLERS[4] == h;
      case Probe(ProbePort) => assert HANDLERS[5] == h;
      case Probe(ProbeStatusCodes) => assert HANDLERS[6] == h;
      case Probe(ProbeTimeout) => assert HANDLERS[7] == h;
      case Probe(ProbeUnhealthyThreshold) => assert HANDLERS[8] == h;
      case HostnameExtension => assert HANDLERS[9] == h;
      case BackendHostname => assert HANDLERS[10] == h;
      case RewriteRuleSetCustomResource => assert HANDLERS[11] == h;
      case WAFPolicyForPath => assert HANDLERS[12] == h;
      case BackendPathPrefix => assert HANDLERS[13] == h;
      case SSLRedirect => assert HANDLERS[14] == h;
      case BackendProtocol => assert HANDLERS[15] == h;
      case TrustedRootCertificate => assert HANDLERS[16] == h;
      case SSLProfile => assert HANDLERS[17] == h;
    }
  }

  /** Every handler is registered under its own key and no other, and none under the ignored key. */
  lemma Dispatch(key: string, h: Handler)
    ensures HandlerFor(key) == Some(h) <==> key == KeyOf(h)
    ensures KeyOf(h) != LAST_APPLIED
  {
    AllHandlers(h);
    FoundAmong(h, HANDLERS);
    hide Suffix;
    assert KeyOf(h)[0] == KEY_PREFIX[0] == 'a';
    assert LAST_APPLIED[0] == "kubectl.kubernetes.io/"[0] == 'k';
  }

  /** An annotation key of the Application Gateway controller. */
  function AppGW(name: string): string {
    "appgw.ingress.kubernetes.io/" + name
  }

  /** The keys, spelled out. */
  lemma Keys()
    ensures KeyOf(RequestTimeout) == AppGW("request-timeout")
    ensures KeyOf(CookieBasedAffinity) == AppGW("cookie-based-affinity")
    ensures KeyOf(Probe(ProbeHostname)) == AppGW("health-probe-hostname")
    ensures KeyOf(Probe(ProbePath)) == AppGW("health-probe-path")
    ensures KeyOf(Probe(ProbeInterval)) == AppGW("health-probe-interval")
    ensures KeyOf(Probe(ProbePort)) == AppGW("health-probe-port")
    ensures KeyOf(Probe(ProbeStatusCodes)) == AppGW("health-probe-status-codes")
    ensures KeyOf(Probe(ProbeTimeout)) == AppGW("health-probe-timeout")
    ensures KeyOf(Probe(ProbeUnhealthyThreshold)) == AppGW("health-probe-unhealthy-threshold")
    ensures KeyOf(HostnameExtension) == AppGW("hostname-extension")
    ensures KeyOf(BackendHostname) == AppGW("backend-hostname")
    ensures KeyOf(RewriteRuleSetCustomResource) == AppGW("rewrite-rule-set-custom-resource")
    ensures KeyOf(WAFPolicyForPath) == AppGW("waf-policy-for-path")
    ensures KeyOf(BackendPathPrefix) == AppGW("backend-path-prefix")
    ensures KeyOf(SSLRedirect) == AppGW("ssl-redirect")
    ensures KeyOf(BackendProtocol) == AppGW("backend-protocol")
    ensures KeyOf(TrustedRootCertificate) == AppGW("appgw-trusted-root-certificate")
    ensures KeyOf(SSLProfile) == AppGW("appgw-ssl-profile")
  {
  }

  /** What one handler call leaves behind. */
  datatype Outcome = Outcome(world: World, route: HTTPRoute, annotation: Annotation, failed: bool)

  /** The policies a route gets under its own name. */
  function WithRoutePolicy(g: Graph, route: NamespacedName, config: RoutePolicyConfig -> RoutePolicyConfig): Graph {
    var policies := Inserted(g.routePolicies, NewRoutePolicy(route));
    var policy := policies[PolicyName(route)];
    g.(routePolicies := policies[PolicyName(route) := policy.(spec := config(policy.spec))])
  }

  function RoutePolicyID(route: NamespacedName): ResourceID {
    ResourceID(ALB_API_VERSION, KIND_ROUTE_POLICY, PolicyName(route))
  }

  function HandleRequestTimeout(w: World, route: HTTPRoute, a: Annotation): Outcome {
    match ParseInt(a.value, TWO_TO_THE_63)
    case None => Outcome(w, route, a.RegisterIssue(Issue(InvalidAnnotationValue, None)), true)
    case Some(n) =>
      var timeout := WrapInt64(n * NANOSECONDS_PER_SECOND);
      Outcome(
        w.(graph := WithRoutePolicy(w.graph, route.name, (c: RoutePolicyConfig) => c.(routeTimeout := Some(timeout)))),
        route, a.AddDestination(RoutePolicyID(route.name)), false)
  }

  function HandleCookieBasedAffinity(w: World, route: HTTPRoute, a: Annotation): Outcome {
    match ParseBool(a.value)
    case None => Outcome(w, route, a.RegisterIssue(Issue(InvalidAnnotationValue, None)), true)
    case Some(false) => Outcome(w, route, a.SetStatus(Completed), false)
    case Some(true) =>
      Outcome(
        w.(graph := WithRoutePolicy(w.graph, route.name, (c: RoutePolicyConfig) => c.(managedCookie := true))),
        route, a.AddDestination(RoutePolicyID(route.name)), false)
  }

  function HandleWAFPolicyForPath(w: World, route: HTTPRoute, a: Annotation): Outcome {
    var initial := NewRouteWAFPolicy(route.name);
    var policies := Inserted(w.graph.wafPolicies, initial);
    var policy := policies[initial.name];
    Outcome(
      w.(graph := w.graph.(wafPolicies := policies[initial.name := policy.(spec := a.value)])),
      route,
      a.RegisterIssue(Issue(WAFPotentialIncompatibility, None))
      .AddDestination(ResourceID(ALB_API_VERSION, KIND_WAF_POLICY, initial.name)).SetStatus(Completed),
      false)
  }

  function RedirectName(gatewayNamespace: string): NamespacedName {
    NamespacedName(gatewayNamespace, "https-redirect")
  }

  /** The route that sends every plain request to HTTPS. */
  function RedirectRoute(gateway: NamespacedName, sectionName: string): HTTPRoute {
    HTTPRoute(
      RedirectName(gateway.namespace), [],
      [HostParentRef(gateway, sectionName)],
      [RouteRule(
         [HTTPRouteMatch(Some(HTTPPathMatch(Some(PathPrefix), Some("/"))))],
         [Filter(RequestRedirectType, None, None, None, Some(RequestRedirect(Some("https"))))],
         [])])
  }

  function HandleSSLRedirect(w: World, route: HTTPRoute, a: Annotation): Outcome {
    if w.gateway.hasHTTPSRedirect then Outcome(w, route, a, false)
    else
      var gateway := EnsureHTTP(w.gateway);
      var redirect := RedirectRoute(gateway.name, gateway.httpListener.value.name);
      Outcome(
        World(
          gateway.(hasHTTPSRedirect := true),
          w.graph.(httpRoutes := w.graph.httpRoutes[redirect.name := redirect])),
        route,
        a.AddDestination(ResourceID(GATEWAY_API_VERSION, KIND_HTTP_ROUTE, redirect.name)).SetStatus(Completed),
        false)
  }

  /** The secret named for a host by the TLS entries; the last entry listing the host counts. */
  function HostSecret(tls: seq<IngressTLS>, host: string): Option<string> {
    if tls == [] then None
    else if host in tls[|tls| - 1].hosts then Some(tls[|tls| - 1].secretName)
    else HostSecret(tls[..|tls| - 1], host)
  }

  /** The non-empty host names of a comma-separated list. */
  function HostNames(pieces: seq<string>): seq<string> {
    if pieces == [] then []
    else
      var host := TrimSpace(pieces[|pieces| - 1]);
      HostNames(pieces[..|pieces| - 1]) + if host == "" then [] else [host]
  }

  /** The listener of one host, if a TLS entry names a secret for it. */
  function ExtendListener(
    naming: Naming, ingress: Ingress, sections: set<string>, w: World, route: HTTPRoute,
    host: string): (World, HTTPRoute) {
    match HostSecret(ingress.tls, host)
    case None => (w, route)
    case Some(secretName) =>
      RouteWithListener(naming, w, route, sections, host, NamespacedName(ingress.name.namespace, secretName))
  }

  function ExtendListeners(
    naming: Naming, ingress: Ingress, sections: set<string>, w: World, route: HTTPRoute,
    hosts: seq<string>): (World, HTTPRoute)
  {
    if hosts == [] then (w, route)
    else
      var (w1, route1) := ExtendListeners(naming, ingress, sections, w, route, hosts[..|hosts| - 1]);
      ExtendListener(naming, ingress, sections, w1, route1, hosts[|hosts| - 1])
  }

  function HandleHostnameExtension(
    naming: Naming, ingress: Ingress, sections: set<string>, w: World, route: HTTPRoute, a: Annotation): Outcome
  {
    var hosts := HostNames(Split(a.value, ','));
    var (w1, route1) := ExtendListeners(naming, ingress, sections, w, route, hosts);
    Outcome(w1, route1.(hostnames := route1.hostnames + hosts), a.SetStatus(Completed), false)
  }

  function ProfileFor(value: string): string {
    if value == "AppGwSslPolicy20170401S" || value == "AppGwSslPolicy20220101S" then "2023-06-S"
    else "2023-06"
  }

  datatype ProfileRun = ProfileRun(policies: map<NamespacedName, Policy<Option<string>>>, annotation: Annotation,
                                   failed: bool)

  /** The profile of one listener: set if there is none, a conflict if there is another. */
  function OneProfile(r: ProfileRun, gateway: NamespacedName, profile: string, listener: string): ProfileRun {
    var initial := NewFrontendTLSPolicy(gateway, listener);
    var policies := Inserted(r.policies, initial);
    var policy := policies[initial.name];
    if policy.spec.None? then
      var a := r.annotation.RegisterIssue(Issue(FrontendTLSPolicyProfileCipherWarning, None));
      ProfileRun(
        policies[initial.name := policy.(spec := Some(profile))],
        a.(destinations := a.destinations + {ResourceID(ALB_API_VERSION, KIND_FRONTEND_TLS_POLICY, initial.name)}),
        false)
    else if policy.spec.value != profile then
      ProfileRun(
        policies,
        r.annotation.RegisterIssue(Issue(FrontendTLSPolicyProfileConflict, Some(initial.name))),
        true)
    else r.(policies := policies)
  }

  /** The profile loop; it stops at the first conflict. */
  function ApplyProfile(r: ProfileRun, gateway: NamespacedName, profile: string, names: seq<string>): ProfileRun {
    if names == [] then r
    else
      var before := ApplyProfile(r, gateway, profile, names[..|names| - 1]);
      if before.failed then before else OneProfile(before, gateway, profile, names[|names| - 1])
  }

  function HandleSSLProfile(w: World, route: HTTPRoute, a: Annotation, order: seq<ListenerKey>): Outcome {
    var names := ParentHTTPSListenerNames(w.gateway, route, order);
    if names == [] then Outcome(w, route, a.RegisterIssue(Issue(NoHTTPSListenersForSSLProfile, None)), false)
    else
      var r := ApplyProfile(ProfileRun(w.graph.frontendTLSPolicies, a, false), w.gateway.name, ProfileFor(a.value),
                            names);
      Outcome(w.(graph := w.graph.(frontendTLSPolicies := r.policies)), route, r.annotation, r.failed)
  }

  function RuleSetOf(env: Env, ingress: Ingress, a: Annotation): Option<seq<RewriteRule>> {
    var name := NamespacedName(ingress.name.namespace, a.value);
    if name in env.rewrites then Some(env.rewrites[name]) else None
  }

  /** One handler call. */
  ghost function Handle(
    env: Env, ingress: Ingress, sections: set<string>, w: World, route: HTTPRoute, a: Annotation, h: Handler,
    orders: Orders)
    : Outcome
  {
    match h
    case RequestTimeout => HandleRequestTimeout(w, route, a)
    case CookieBasedAffinity => HandleCookieBasedAffinity(w, route, a)
    case Probe(field) =>
      var r := HandleProbe(w.graph.healthCheckPolicies, a, field, orders.services);
      Outcome(w.(graph := w.graph.(healthCheckPolicies := r.policies)), route, r.annotation, r.failed)
    case HostnameExtension => HandleHostnameExtension(env.naming, ingress, sections, w, route, a)
    case BackendHostname =>
      Outcome(w, route.(rules := ApplyOp(route.rules, RewriteHostname(a.value))), a.SetStatus(Completed), false)
    case BackendPathPrefix =>
      Outcome(w, route.(rules := ApplyOp(route.rules, RewritePrefix(a.value))), a.SetStatus(Completed), false)
    case RewriteRuleSetCustomResource =>
      var r := HandleRuleSet(route.rules, a, RuleSetOf(env, ingress, a));
      Outcome(w, route.(rules := r.rules), r.annotation, r.failed)
    case WAFPolicyForPath => HandleWAFPolicyForPath(w, route, a)
    case SSLRedirect => HandleSSLRedirect(w, route, a)
    case BackendProtocol =>
      var r := HandleProtocol(w.graph.backendTLSPolicies, a, route, orders.services);
      Outcome(w.(graph := w.graph.(backendTLSPolicies := r.policies)), route, r.annotation, r.failed)
    case TrustedRootCertificate =>
      Outcome(w, route, a.RegisterIssue(Issue(AppGWTrustedRootCertificatesNotSupported, None)), false)
    case SSLProfile => HandleSSLProfile(w, route, a, orders.listeners)
  }

  /** One annotation of the loop: ignored, handled, or unsupported. */
  ghost function Visit(
    env: Env, ingress: Ingress, sections: set<string>, w: World, route: HTTPRoute, key: string, a: Annotation,
    orders: Orders)
    : Outcome
  {
    if key == LAST_APPLIED then Outcome(w, route, a.SetStatus(Ignored), false)
    else
      match HandlerFor(key)
      case None => Outcome(w, route, a.RegisterIssue(Issue(UnsupportedAnnotationGeneric, None)), false)
      case Some(h) => Handle(env, ingress, sections, w, route, a, h, orders)
  }

  /** A visit under the key of a handler is a call of it. */
  lemma VisitIsCall(
    env: Env, ingress: Ingress, sections: set<string>, w: World, route: HTTPRoute, a: Annotation, orders: Orders,
    h: Handler)
    ensures Visit(env, ingress, sections, w, route, KeyOf(h), a, orders)
         == Handle(env, ingress, sections, w, route, a, h, orders)
  {
    hide HandlerFor;
    hide KeyOf;
    hide Handle;
    Dispatch(KeyOf(h), h);
  }
}
