/** The Gateway API objects the conversion builds, and the graph that collects them. */
module Resources {
  import opened Text
  import opened Ordering
  import opened StatusCodes

  // ---------- HTTPRoute ----------

  datatype PathType = Exact | PathPrefix | RegularExpression

  datatype HTTPPathMatch = HTTPPathMatch(pathType: Option<PathType>, value: Option<string>)

  datatype HTTPRouteMatch = HTTPRouteMatch(path: Option<HTTPPathMatch>)

  datatype PathModifierType = Unset | ReplaceFullPath | ReplacePrefixMatch

  datatype PathModifier = PathModifier(
    modifierType: PathModifierType, fullPath: Option<string>, prefixMatch: Option<string>)

  datatype URLRewrite = URLRewrite(hostname: Option<string>, path: Option<PathModifier>)

  datatype Header = Header(name: string, value: string)

  /** `HTTPHeaderFilter`, without its `Add` list, which no handler uses. */
  datatype HeaderFilter = HeaderFilter(setHeaders: seq<Header>, remove: seq<string>)

  /** `HTTPRequestRedirectFilter`, with the one field the modelled handlers set. */
  datatype RequestRedirect = RequestRedirect(scheme: Option<string>)

  datatype FilterType = URLRewriteType | RequestHeaderType | ResponseHeaderType | RequestRedirectType

  datatype Filter = Filter(
    filterType: FilterType,
    urlRewrite: Option<URLRewrite>,
    requestHeaders: Option<HeaderFilter>,
    responseHeaders: Option<HeaderFilter>,
    requestRedirect: Option<RequestRedirect>)

  datatype BackendRef = BackendRef(kind: Option<string>, namespace: Option<string>, name: string, port: Option<int>)

  datatype RouteRule = RouteRule(matches: seq<HTTPRouteMatch>, filters: seq<Filter>, backendRefs: seq<BackendRef>)

  datatype ParentReference = ParentReference(
    group: Option<string>, kind: Option<string>, name: string, namespace: Option<string>, sectionName: Option<string>)

  datatype HTTPRoute = HTTPRoute(
    name: NamespacedName, hostnames: seq<string>, parentRefs: seq<ParentReference>, rules: seq<RouteRule>)

  // ---------- Policies ----------

  const GATEWAY_GROUP := "gateway.networking.k8s.io"
  const ALB_API_VERSION := "alb.networking.azure.io/v1"
  const GATEWAY_API_VERSION := "gateway.networking.k8s.io/v1"
  const KIND_GATEWAY := "Gateway"
  const KIND_HTTP_ROUTE := "HTTPRoute"
  const KIND_SERVICE := "Service"
  const KIND_SECRET := "Secret"
  const KIND_BACKEND_TLS_POLICY := "BackendTLSPolicy"
  const KIND_HEALTH_CHECK_POLICY := "HealthCheckPolicy"
  const KIND_ROUTE_POLICY := "RoutePolicy"
  const KIND_FRONTEND_TLS_POLICY := "FrontendTLSPolicy"
  const KIND_WAF_POLICY := "WebApplicationFirewallPolicy"

  datatype TargetRef = TargetRef(
    group: string, kind: string, name: string, namespace: Option<string>, sectionNames: seq<string>)

  /** A policy object: its metadata name, its target and its settings. */
  datatype Policy<S> = Policy(name: NamespacedName, target: TargetRef, spec: S)

  datatype HTTPMatch = HTTPMatch(statusCodes: Option<seq<CodeRange>>)

  datatype HTTPSpecifiers = HTTPSpecifiers(host: string, path: string, httpMatch: Option<HTTPMatch>)

  /** `HealthCheckPolicyConfig`; durations are nanoseconds. */
  datatype HealthCheckConfig = HealthCheckConfig(
    interval: int, timeout: int, unhealthyThreshold: int, port: int, http: Option<HTTPSpecifiers>)

  /** `RoutePolicyConfig`: the route timeout in nanoseconds and whether the managed-cookie affinity is set. */
  datatype RoutePolicyConfig = RoutePolicyConfig(routeTimeout: Option<int>, managedCookie: bool)

  datatype ReferenceGrant = ReferenceGrant(name: NamespacedName, fromNamespace: string, fromKind: string,
                                           toKind: string)

  function ReferenceGrantForGatewayToKind(
    gatewayNamespace: string, secretNamespace: string, kind: string): ReferenceGrant {
    ReferenceGrant(
      NamespacedName(secretNamespace, "gateway-in-" + gatewayNamespace + "-" + kind + "-grant"),
      gatewayNamespace, KIND_GATEWAY, kind)
  }

  function PolicyName(target: NamespacedName): NamespacedName {
    NamespacedName(target.namespace, target.name + "-policy")
  }

  function NewRoutePolicy(route: NamespacedName): Policy<RoutePolicyConfig> {
    Policy(
      PolicyName(route),
      TargetRef(GATEWAY_GROUP, KIND_HTTP_ROUTE, route.name, Some(route.namespace), []),
      RoutePolicyConfig(None, false))
  }

  /** The profile name is None until a profile is set. */
  function NewFrontendTLSPolicy(gateway: NamespacedName, listener: string): Policy<Option<string>> {
    Policy(
      NamespacedName(gateway.namespace, gateway.name + "-" + listener + "-policy"),
      TargetRef(GATEWAY_GROUP, KIND_GATEWAY, gateway.name, None, [listener]),
      None)
  }

  function ServiceTarget(service: NamespacedName): TargetRef {
    TargetRef("", KIND_SERVICE, service.name, Some(service.namespace), [])
  }

  function NewHealthCheckPolicy(service: NamespacedName): Policy<HealthCheckConfig> {
    Policy(PolicyName(service), ServiceTarget(service), HealthCheckConfig(0, 0, 0, 0, None))
  }

  /** The settings are the backend ports. */
  function NewBackendTLSPolicy(service: NamespacedName): Policy<seq<int>> {
    Policy(PolicyName(service), ServiceTarget(service), [])
  }

  /** The settings are the WAF policy ID. */
  function NewWAFPolicy(kind: string, targetKind: string, target: NamespacedName): Policy<string> {
    Policy(
      NamespacedName(target.namespace, kind + "-" + target.namespace + "-" + target.name + "-policy"),
      TargetRef(GATEWAY_GROUP, targetKind, target.name, Some(target.namespace), []),
      "")
  }

  function NewGatewayWAFPolicy(gateway: NamespacedName): Policy<string> {
    NewWAFPolicy("gateway", KIND_GATEWAY, gateway)
  }

  function NewRouteWAFPolicy(route: NamespacedName): Policy<string> {
    NewWAFPolicy("httproute", KIND_HTTP_ROUTE, route)
  }

  /** `getOrInsert`: the policy under the new policy's name, and the map with it in. */
  function Inserted<S>(m: map<NamespacedName, Policy<S>>, policy: Policy<S>): map<NamespacedName, Policy<S>> {
    if policy.name in m then m else m[policy.name := policy]
  }

  /** Every policy sits under its own name. */
  ghost predicate Keyed<S>(m: map<NamespacedName, Policy<S>>) {
    forall k | k in m :: m[k].name == k
  }

  // ---------- The graph ----------

  datatype Graph = Graph(
    httpRoutes: map<NamespacedName, HTTPRoute>,
    referenceGrants: map<NamespacedName, ReferenceGrant>,
    backendTLSPolicies: map<NamespacedName, Policy<seq<int>>>,
    frontendTLSPolicies: map<NamespacedName, Policy<Option<string>>>,
    healthCheckPolicies: map<NamespacedName, Policy<HealthCheckConfig>>,
    routePolicies: map<NamespacedName, Policy<RoutePolicyConfig>>,
    wafPolicies: map<NamespacedName, Policy<string>>)

  const EMPTY_GRAPH := Graph(map[], map[], map[], map[], map[], map[], map[])

  function WithGrant(g: Graph, gatewayNamespace: string, secretNamespace: string): Graph {
    var grant := ReferenceGrantForGatewayToKind(gatewayNamespace, secretNamespace, KIND_SECRET);
    if grant.name in g.referenceGrants then g
    else g.(referenceGrants := g.referenceGrants[grant.name := grant])
  }

  method GetOrInsert<S>(m: map<NamespacedName, Policy<S>>, policy: Policy<S>)
    returns (updated: map<NamespacedName, Policy<S>>, stored: Policy<S>)
    requires Keyed(m)
    ensures Keyed(updated) && stored.name == policy.name
    ensures updated == Inserted(m, policy)
    ensures policy.name in updated && stored == updated[policy.name]
  {
    if policy.name in m {
      return m, m[policy.name];
    }
    updated := m[policy.name := policy];
    stored := policy;
  }

  /** `ApplicationLoadBalancer`, with the subnets it is associated with. */
  datatype ApplicationLoadBalancer = ApplicationLoadBalancer(name: NamespacedName, associations: seq<string>)

  /** `AGCResourceGraph`: a policy handed out is written back under its name by the handler that changes it. */
  class AGCResourceGraph {
    const applicationLoadBalancer: Option<ApplicationLoadBalancer>
    var httpRoutes: map<NamespacedName, HTTPRoute>
    var referenceGrants: map<NamespacedName, ReferenceGrant>
    var backendTLSPolicies: map<NamespacedName, Policy<seq<int>>>
    var frontendTLSPolicies: map<NamespacedName, Policy<Option<string>>>
    var healthCheckPolicies: map<NamespacedName, Policy<HealthCheckConfig>>
    var routePolicies: map<NamespacedName, Policy<RoutePolicyConfig>>
    var wafPolicies: map<NamespacedName, Policy<string>>

    /** Every object sits under its own name. */
    ghost predicate Valid()
      reads this
    {
      && (forall k | k in httpRoutes :: httpRoutes[k].name == k)
      && (forall k | k in referenceGrants :: referenceGrants[k].name == k)
      && Keyed(backendTLSPolicies) && Keyed(frontendTLSPolicies) && Keyed(healthCheckPolicies)
      && Keyed(routePolicies) && Keyed(wafPolicies)
    }

    function View(): Graph
      reads this
    {
      Graph(httpRoutes, referenceGrants, backendTLSPolicies, frontendTLSPolicies, healthCheckPolicies, routePolicies,
            wafPolicies)
    }

    constructor (applicationLoadBalancer: Option<ApplicationLoadBalancer>)
      ensures Valid() && View() == EMPTY_GRAPH && this.applicationLoadBalancer == applicationLoadBalancer
    {
      this.applicationLoadBalancer := applicationLoadBalancer;
      httpRoutes, referenceGrants := map[], map[];
      backendTLSPolicies, frontendTLSPolicies, healthCheckPolicies := map[], map[], map[];
      routePolicies, wafPolicies := map[], map[];
    }

    method GetOrCreateReferenceGrantForGWSecret(gatewayNamespace: string, secretNamespace: string)
      requires Valid()
      modifies this`referenceGrants
      ensures Valid()
      ensures View() == WithGrant(old(View()), gatewayNamespace, secretNamespace)
    {
      var grant := ReferenceGrantForGatewayToKind(gatewayNamespace, secretNamespace, KIND_SECRET);
      if grant.name in referenceGrants {
        return;
      }
      referenceGrants := referenceGrants[grant.name := grant];
    }

    method GetOrCreateRoutePolicy(route: NamespacedName) returns (policy: Policy<RoutePolicyConfig>)
      requires Valid()
      modifies this`routePolicies
      ensures Valid()
      ensures routePolicies == Inserted(old(routePolicies), NewRoutePolicy(route))
      ensures PolicyName(route) in routePolicies && policy == routePolicies[PolicyName(route)]
      ensures policy.name == PolicyName(route)
    {
      routePolicies, policy := GetOrInsert(routePolicies, NewRoutePolicy(route));
    }

    method GetOrCreateFrontendTLSPolicy(
      gateway: NamespacedName, listener: string) returns (policy: Policy<Option<string>>)
      requires Valid()
      modifies this`frontendTLSPolicies
      ensures Valid()
      ensures frontendTLSPolicies == Inserted(old(frontendTLSPolicies), NewFrontendTLSPolicy(gateway, listener))
      ensures NewFrontendTLSPolicy(gateway, listener).name in frontendTLSPolicies
      ensures policy == frontendTLSPolicies[NewFrontendTLSPolicy(gateway, listener).name]
      ensures policy.name == NewFrontendTLSPolicy(gateway, listener).name
    {
      frontendTLSPolicies, policy := GetOrInsert(frontendTLSPolicies, NewFrontendTLSPolicy(gateway, listener));
    }

    method GetOrCreateHealthCheckPolicy(service: NamespacedName) returns (policy: Policy<HealthCheckConfig>)
      requires Valid()
      modifies this`healthCheckPolicies
      ensures Valid()
      ensures healthCheckPolicies == Inserted(old(healthCheckPolicies), NewHealthCheckPolicy(service))
      ensures PolicyName(service) in healthCheckPolicies && policy == healthCheckPolicies[PolicyName(service)]
      ensures policy.name == PolicyName(service)
    {
      healthCheckPolicies, policy := GetOrInsert(healthCheckPolicies, NewHealthCheckPolicy(service));
    }

    method GetOrCreateBackendTLSPolicy(service: NamespacedName) returns (policy: Policy<seq<int>>)
      requires Valid()
      modifies this`backendTLSPolicies
      ensures Valid()
      ensures backendTLSPolicies == Inserted(old(backendTLSPolicies), NewBackendTLSPolicy(service))
      ensures PolicyName(service) in backendTLSPolicies && policy == backendTLSPolicies[PolicyName(service)]
      ensures policy.name == PolicyName(service)
    {
      backendTLSPolicies, policy := GetOrInsert(backendTLSPolicies, NewBackendTLSPolicy(service));
    }

    method GetOrCreateWAFPolicyForGateway(gateway: NamespacedName) returns (policy: Policy<string>)
      requires Valid()
      modifies this`wafPolicies
      ensures Valid()
      ensures wafPolicies == Inserted(old(wafPolicies), NewGatewayWAFPolicy(gateway))
      ensures NewGatewayWAFPolicy(gateway).name in wafPolicies
      ensures policy == wafPolicies[NewGatewayWAFPolicy(gateway).name]
      ensures policy.name == NewGatewayWAFPolicy(gateway).name
    {
      wafPolicies, policy := GetOrInsert(wafPolicies, NewGatewayWAFPolicy(gateway));
    }

    method GetOrCreateWAFPolicyForRoute(route: NamespacedName) returns (policy: Policy<string>)
      requires Valid()
      modifies this`wafPolicies
      ensures Valid()
      ensures wafPolicies == Inserted(old(wafPolicies), NewRouteWAFPolicy(route))
      ensures NewRouteWAFPolicy(route).name in wafPolicies
      ensures policy == wafPolicies[NewRouteWAFPolicy(route).name] && policy.name == NewRouteWAFPolicy(route).name
    {
      wafPolicies, policy := GetOrInsert(wafPolicies, NewRouteWAFPolicy(route));
    }
  }

  // ---------- Names never collide ----------

  lemma SuffixCancels(a: string, b: string, suffix: string)
    requires a + suffix == b + suffix
    ensures a == b
  {
    assert |a| == |b|;
    assert (a + suffix)[..|a|] == a && (b + suffix)[..|b|] == b;
  }

  lemma PrefixCancels(prefix: string, a: string, b: string)
    requires prefix + a == prefix + b
    ensures a == b
  {
    assert (prefix + a)[|prefix|..] == a && (prefix + b)[|prefix|..] == b;
  }

  /** Two different services, or two different routes, never share a policy. */
  lemma PolicyNameInjective(a: NamespacedName, b: NamespacedName)
    requires PolicyName(a) == PolicyName(b)
    ensures a == b
  {
    SuffixCancels(a.name, b.name, "-policy");
  }

  /** Under one gateway, two different listeners never share a policy. */
  lemma FrontendTLSPolicyNameInjective(gateway: NamespacedName, a: string, b: string)
    requires NewFrontendTLSPolicy(gateway, a).name == NewFrontendTLSPolicy(gateway, b).name
    ensures a == b
  {
    SuffixCancels(gateway.name + "-" + a, gateway.name + "-" + b, "-policy");
    PrefixCancels(gateway.name + "-", a, b);
  }

  /** Two WAF targets of the same kind never share a policy. */
  lemma WAFPolicyNameInjective(kind: string, targetKind: string, a: NamespacedName, b: NamespacedName)
    requires NewWAFPolicy(kind, targetKind, a).name == NewWAFPolicy(kind, targetKind, b).name
    ensures a == b
  {
    var prefix := kind + "-" + a.namespace + "-";
    SuffixCancels(prefix + a.name, prefix + b.name, "-policy");
    PrefixCancels(prefix, a.name, b.name);
  }

  /** A gateway and a route never share a WAF policy. */
  lemma WAFPolicyKindsDistinct(gateway: NamespacedName, route: NamespacedName)
    ensures NewGatewayWAFPolicy(gateway).name != NewRouteWAFPolicy(route).name
  {
    assert NewGatewayWAFPolicy(gateway).name.name[0] == 'g';
    assert NewRouteWAFPolicy(route).name.name[0] == 'h';
  }
}
