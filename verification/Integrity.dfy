/** What every step of a conversion keeps: references resolve, secrets are permitted, policies sit under their own
    names. */
module Integrity {
  import opened Text
  import opened Ordering
  import opened Annotations
  import opened Resources
  import opened Gateways
  import opened BackendGroups
  import opened Filters
  import opened RuleSets
  import opened Probes
  import opened BackendTLS
  import opened Handlers
  import opened Ingresses
  import opened Routing

  // ---------- Secrets ----------

  /** The secrets a list of references stands for; a reference without a namespace is in the gateway's. */
  function Resolved(gatewayNamespace: string, refs: seq<SecretRef>): (r: seq<NamespacedName>)
    ensures |r| == |refs|
    ensures forall i | 0 <= i < |refs| ::
              r[i] == NamespacedName(refs[i].namespace.GetOr(gatewayNamespace), refs[i].name)
  {
    seq(|refs|, i requires 0 <= i < |refs| => NamespacedName(refs[i].namespace.GetOr(gatewayNamespace), refs[i].name))
  }

  type Grants = map<NamespacedName, ReferenceGrant>

  /** A grant permits what it is from, in its own namespace: here the gateways of one to refer to the secrets of the
      other. */
  predicate Permits(grant: ReferenceGrant, gatewayNamespace: string, secretNamespace: string) {
    && grant.name.namespace == secretNamespace
    && grant.fromNamespace == gatewayNamespace && grant.fromKind == "Gateway" && grant.toKind == "Secret"
  }

  predicate Granted(gatewayNamespace: string, secretNamespace: string, grants: Grants) {
    exists k :: k in grants && Permits(grants[k], gatewayNamespace, secretNamespace)
  }

  /** Every grant permits the gateway the secrets of the namespace it sits in, and that is another one. */
  ghost predicate GrantsOk(gatewayNamespace: string, grants: Grants) {
    forall k | k in grants ::
      grants[k].name == k && k.namespace != gatewayNamespace && Permits(grants[k], gatewayNamespace, k.namespace)
  }

  /** Every secret outside the gateway's namespace is covered by a grant. */
  ghost predicate SecretsGranted(gatewayNamespace: string, secrets: set<NamespacedName>, grants: Grants) {
    forall s | s in secrets && s.namespace != gatewayNamespace :: Granted(gatewayNamespace, s.namespace, grants)
  }

  /** A listener sits under its own host, and its references list its secrets, each once. */
  ghost predicate ListenerOk(naming: Naming, gatewayNamespace: string, k: ListenerKey, l: ListenerState) {
    && k.port == 443 && l.listener.port == 443 && l.listener.hostname == Some(k.hostname)
    && l.listener.name == "https-" + naming.nameFromHost(k.hostname) && l.listener.protocol == "HTTPS"
    && (forall r | r in l.listener.certificateRefs :: r.kind == "Secret" && r.group.GetOr("") == "")
    && Lists(Resolved(gatewayNamespace, l.listener.certificateRefs), l.secrets)
  }

  ghost predicate GatewayOk(naming: Naming, g: GatewayState, grants: Grants) {
    && (g.httpListener.Some? ==> g.httpListener.value == Listener("http", 80, "HTTP", None, []))
    && (forall k | k in g.httpsListeners ::
          ListenerOk(naming, g.name.namespace, k, g.httpsListeners[k])
          && SecretsGranted(g.name.namespace, g.httpsListeners[k].secrets, grants))
  }

  // ---------- Names and targets ----------

  function TargetName(t: TargetRef): NamespacedName {
    NamespacedName(t.namespace.GetOr(""), t.name)
  }

  /** A policy sits under the name, and has the target, of the resource it was requested for. */
  ghost predicate PolicyFor<S, T>(k: NamespacedName, p: Policy<S>, requested: Policy<T>) {
    k == p.name == requested.name && p.target == requested.target
  }

  /** Health-check and backend TLS policies: each under the name of its service. */
  ghost predicate ServicePoliciesOk<S>(m: map<NamespacedName, Policy<S>>) {
    forall k | k in m :: PolicyFor(k, m[k], NewHealthCheckPolicy(TargetName(m[k].target)))
  }

  ghost predicate RoutePoliciesOk(m: map<NamespacedName, Policy<RoutePolicyConfig>>) {
    forall k | k in m :: PolicyFor(k, m[k], NewRoutePolicy(TargetName(m[k].target)))
  }

  ghost predicate WAFPoliciesOk(m: map<NamespacedName, Policy<string>>, gateway: NamespacedName) {
    forall k | k in m ::
      PolicyFor(k, m[k], NewGatewayWAFPolicy(gateway)) || PolicyFor(k, m[k], NewRouteWAFPolicy(TargetName(m[k].target)))
  }

  ghost predicate FrontendPoliciesOk(m: map<NamespacedName, Policy<Option<string>>>, gateway: NamespacedName) {
    forall k | k in m ::
      && |m[k].target.sectionNames| == 1
      && PolicyFor(k, m[k], NewFrontendTLSPolicy(gateway, m[k].target.sectionNames[0]))
  }

  ghost predicate PoliciesOk(g: Graph, gateway: NamespacedName) {
    && ServicePoliciesOk(g.healthCheckPolicies)
    && ServicePoliciesOk(g.backendTLSPolicies)
    && RoutePoliciesOk(g.routePolicies)
    && WAFPoliciesOk(g.wafPolicies, gateway)
    && FrontendPoliciesOk(g.frontendTLSPolicies, gateway)
  }

  function HTTPSNames(g: GatewayState): set<string> {
    set k | k in g.httpsListeners :: g.httpsListeners[k].listener.name
  }

  /** Policies target routes of the graph (or of the `pending` ones about to reach it) and listeners of the gateway. */
  ghost predicate TargetsOk(g: Graph, names: set<string>, pending: set<NamespacedName>) {
    && (forall k | k in g.routePolicies :: TargetName(g.routePolicies[k].target) in g.httpRoutes.Keys + pending)
    && (forall k | k in g.wafPolicies && g.wafPolicies[k].target.kind == KIND_HTTP_ROUTE ::
          TargetName(g.wafPolicies[k].target) in g.httpRoutes.Keys + pending)
    && SectionsIn(g.frontendTLSPolicies, names)
  }

  /** Every parent reference names a listener of the gateway, in the gateway's namespace. */
  ghost predicate ParentsOk(g: GatewayState, route: HTTPRoute) {
    forall r | r in route.parentRefs ::
      && r.group.GetOr("gateway.networking.k8s.io") == "gateway.networking.k8s.io"
      && r.kind.GetOr("Gateway") == "Gateway"
      && r.name == g.name.name && r.namespace.GetOr(route.name.namespace) == g.name.namespace
      && r.sectionName.Some? && r.sectionName.value in ListenerNames(g)
  }

  ghost predicate RoutesOk(g: GatewayState, routes: map<NamespacedName, HTTPRoute>) {
    forall k | k in routes :: routes[k].name == k && ParentsOk(g, routes[k])
  }

  /** The whole invariant. */
  ghost predicate Safe(naming: Naming, w: World, pending: set<NamespacedName>) {
    && GatewayOk(naming, w.gateway, w.graph.referenceGrants)
    && GrantsOk(w.gateway.name.namespace, w.graph.referenceGrants)
    && PoliciesOk(w.graph, w.gateway.name)
    && TargetsOk(w.graph, HTTPSNames(w.gateway), pending)
    && RoutesOk(w.gateway, w.graph.httpRoutes)
  }

  /** Listeners are only ever added, never removed or renamed, and their references only ever grow. */
  ghost predicate Grows(g: GatewayState, h: GatewayState) {
    && h.name == g.name
    && (g.httpListener.Some? ==> h.httpListener == g.httpListener)
    && (forall k | k in g.httpsListeners ::
          && k in h.httpsListeners
          && h.httpsListeners[k].listener.name == g.httpsListeners[k].listener.name
          && g.httpsListeners[k].listener.certificateRefs <= h.httpsListeners[k].listener.certificateRefs
          && g.httpsListeners[k].secrets <= h.httpsListeners[k].secrets)
  }

  lemma GrowsTransitively(a: GatewayState, b: GatewayState, c: GatewayState)
    requires Grows(a, b) && Grows(b, c)
    ensures Grows(a, c)
  {
  }

  lemma GrowthKeepsNames(g: GatewayState, h: GatewayState)
    requires Grows(g, h)
    ensures ListenerNames(g) <= ListenerNames(h) && HTTPSNames(g) <= HTTPSNames(h)
    ensures forall route | ParentsOk(g, route) :: ParentsOk(h, route)
    ensures forall routes | RoutesOk(g, routes) :: RoutesOk(h, routes)
  {
    forall n | n in HTTPSNames(g) ensures n in HTTPSNames(h) {
      var k :| k in g.httpsListeners && g.httpsListeners[k].listener.name == n;
      assert h.httpsListeners[k].listener.name == n;
    }
    assert ListenerNames(g) == (if g.httpListener.Some? then {g.httpListener.value.name} else {}) + HTTPSNames(g);
    assert ListenerNames(h) == (if h.httpListener.Some? then {h.httpListener.value.name} else {}) + HTTPSNames(h);
  }

  // ---------- Listeners ----------

  lemma GrantIsStored(g: Graph, gatewayNamespace: string, namespace: string)
    requires GrantsOk(gatewayNamespace, g.referenceGrants) && namespace != gatewayNamespace
    ensures var h := WithGrant(g, gatewayNamespace, namespace);
            && GrantsOk(gatewayNamespace, h.referenceGrants) && Granted(gatewayNamespace, namespace, h.referenceGrants)
            && g.referenceGrants.Keys <= h.referenceGrants.Keys
            && (forall k | k in g.referenceGrants :: h.referenceGrants[k] == g.referenceGrants[k])
            && h == g.(referenceGrants := h.referenceGrants)
  {
    hide ReferenceGrantForGatewayToKind;
    var grant := ReferenceGrantForGatewayToKind(gatewayNamespace, namespace, KIND_SECRET);
    NewGrantPermits(gatewayNamespace, namespace);
    OneMoreGrant(gatewayNamespace, g.referenceGrants, grant);
    hide Granted;
    hide GrantsOk;
  }

  lemma OneMoreGrant(gatewayNamespace: string, grants: Grants, grant: ReferenceGrant)
    requires GrantsOk(gatewayNamespace, grants) && grant.name.namespace != gatewayNamespace
    requires Permits(grant, gatewayNamespace, grant.name.namespace)
    ensures grant.name in grants ==> Granted(gatewayNamespace, grant.name.namespace, grants)
    ensures GrantsOk(gatewayNamespace, grants[grant.name := grant])
    ensures Granted(gatewayNamespace, grant.name.namespace, grants[grant.name := grant])
  {
    hide Permits;
    var more := grants[grant.name := grant];
    assert grant.name in more && Permits(more[grant.name], gatewayNamespace, grant.name.namespace);
  }

  lemma NewGrantPermits(gatewayNamespace: string, namespace: string)
    ensures var grant := ReferenceGrantForGatewayToKind(gatewayNamespace, namespace, KIND_SECRET);
            grant.name.namespace == namespace && Permits(grant, gatewayNamespace, namespace)
  {
  }

  lemma MoreGrants(gatewayNamespace: string, secrets: set<NamespacedName>, grants: Grants, more: Grants)
    requires SecretsGranted(gatewayNamespace, secrets, grants)
    requires grants.Keys <= more.Keys && forall k | k in grants :: more[k] == grants[k]
    ensures SecretsGranted(gatewayNamespace, secrets, more)
  {
  }

  lemma NewListenerOk(naming: Naming, gatewayNamespace: string, hostname: string, secret: NamespacedName)
    ensures ListenerOk(naming, gatewayNamespace, HTTPSKey(hostname),
                       NewListener(naming, gatewayNamespace, hostname, secret))
  {
    var refs := NewListener(naming, gatewayNamespace, hostname, secret).listener.certificateRefs;
    assert Resolved(gatewayNamespace, refs) == [secret];
  }

  lemma WithSecretOk(naming: Naming, gatewayNamespace: string, k: ListenerKey, l: ListenerState, secret: NamespacedName)
    requires ListenerOk(naming, gatewayNamespace, k, l)
    ensures ListenerOk(naming, gatewayNamespace, k, WithSecret(l, secret))
  {
    if secret !in l.secrets {
      var m := WithSecret(l, secret);
      var before := Resolved(gatewayNamespace, l.listener.certificateRefs);
      ListsSnoc(before, l.secrets, secret);
      assert Resolved(gatewayNamespace, m.listener.certificateRefs) == before + [secret];
    }
  }

  lemma EnsureHTTPSGrows(naming: Naming, w: World, hostname: string, secret: NamespacedName)
    ensures var v := EnsureHTTPS(naming, w, hostname, secret);
            Grows(w.gateway, v.gateway)
            && ListenerFor(naming, w.gateway, hostname, secret).listener.name in HTTPSNames(v.gateway)
  {
    var v := EnsureHTTPS(naming, w, hostname, secret);
    assert v.gateway.httpsListeners[HTTPSKey(hostname)] == ListenerFor(naming, w.gateway, hostname, secret);
  }

  lemma EnsureHTTPSGatewayOk(naming: Naming, w: World, hostname: string, secret: NamespacedName)
    requires GatewayOk(naming, w.gateway, w.graph.referenceGrants)
    requires GrantsOk(w.gateway.name.namespace, w.graph.referenceGrants)
    ensures var v := EnsureHTTPS(naming, w, hostname, secret);
            && GatewayOk(naming, v.gateway, v.graph.referenceGrants)
            && GrantsOk(w.gateway.name.namespace, v.graph.referenceGrants)
  {
    hide ListenerOk;
    hide Granted;
    hide GrantsOk;
    hide WithGrant;
    var ns, v := w.gateway.name.namespace, EnsureHTTPS(naming, w, hostname, secret);
    var key := HTTPSKey(hostname);
    if secret.namespace != ns {
      GrantIsStored(w.graph, ns, secret.namespace);
    }
    NewListenerOk(naming, ns, hostname, secret);
    if key in w.gateway.httpsListeners {
      WithSecretOk(naming, ns, key, w.gateway.httpsListeners[key], secret);
    }
    forall k | k in w.gateway.httpsListeners
      ensures SecretsGranted(ns, w.gateway.httpsListeners[k].secrets, v.graph.referenceGrants)
    {
      MoreGrants(ns, w.gateway.httpsListeners[k].secrets, w.graph.referenceGrants, v.graph.referenceGrants);
    }
    assert SecretsGranted(ns, ListenerFor(naming, w.gateway, hostname, secret).secrets, v.graph.referenceGrants);
  }

  /** Asking for a listener keeps the invariant and yields a listener of that host. */
  lemma EnsureHTTPSKeeps(
    naming: Naming, w: World, hostname: string, secret: NamespacedName, pending: set<NamespacedName>)
    requires Safe(naming, w, pending)
    ensures var v := EnsureHTTPS(naming, w, hostname, secret);
            && Safe(naming, v, pending) && Grows(w.gateway, v.gateway)
            && ListenerFor(naming, w.gateway, hostname, secret).listener.name in HTTPSNames(v.gateway)
  {
    hide GatewayOk;
    hide PoliciesOk;
    hide TargetsOk;
    hide RoutesOk;
    hide Grows;
    hide ListenerFor;
    var v := EnsureHTTPS(naming, w, hostname, secret);
    EnsureHTTPSGatewayOk(naming, w, hostname, secret);
    EnsureHTTPSGrows(naming, w, hostname, secret);
    GrowthKeepsNames(w.gateway, v.gateway);
    OnlyGrantsChange(w.graph, v.graph, w.gateway.name, HTTPSNames(w.gateway), HTTPSNames(v.gateway), pending);
  }

  lemma OnlyGrantsChange(
    g: Graph, h: Graph, gateway: NamespacedName, names: set<string>, more: set<string>, pending: set<NamespacedName>)
    requires h == g.(referenceGrants := h.referenceGrants) && names <= more
    requires PoliciesOk(g, gateway) && TargetsOk(g, names, pending)
    ensures PoliciesOk(h, gateway) && TargetsOk(h, more, pending)
  {
  }

  lemma EnsureHTTPKeeps(naming: Naming, w: World, pending: set<NamespacedName>)
    requires Safe(naming, w, pending)
    ensures var v := w.(gateway := EnsureHTTP(w.gateway));
            && Safe(naming, v, pending) && Grows(w.gateway, v.gateway)
            && v.gateway.httpListener == Some(HTTP_LISTENER) && HTTP_LISTENER_NAME in ListenerNames(v.gateway)
  {
    hide ListenerOk;
    hide PoliciesOk;
    hide RoutesOk;
    var v := w.(gateway := EnsureHTTP(w.gateway));
    GrowthKeepsNames(w.gateway, v.gateway);
    OnlyGrantsChange(w.graph, v.graph, w.gateway.name, HTTPSNames(w.gateway), HTTPSNames(v.gateway), pending);
  }

  lemma {:induction false} GrantTLSKeeps(naming: Naming, w: World, ingress: Ingress, n: nat)
    requires n <= |ingress.tls| && Safe(naming, w, {})
    ensures Safe(naming, GrantTLS(w, ingress, n), {}) && GrantTLS(w, ingress, n).gateway == w.gateway
  {
    hide Safe;
    if n > 0 {
      GrantTLSKeeps(naming, w, ingress, n - 1);
      if ingress.name.namespace != w.gateway.name.namespace {
        OneGrantKeeps(naming, GrantTLS(w, ingress, n - 1), ingress.name.namespace, {});
      }
    }
  }

  lemma OneGrantKeeps(naming: Naming, w: World, namespace: string, pending: set<NamespacedName>)
    requires Safe(naming, w, pending) && namespace != w.gateway.name.namespace
    ensures Safe(naming, w.(graph := WithGrant(w.graph, w.gateway.name.namespace, namespace)), pending)
  {
    hide ListenerOk;
    hide PoliciesOk;
    hide RoutesOk;
    hide Granted;
    hide WithGrant;
    var ns := w.gateway.name.namespace;
    var h := WithGrant(w.graph, ns, namespace);
    GrantIsStored(w.graph, ns, namespace);
    forall k | k in w.gateway.httpsListeners
      ensures SecretsGranted(ns, w.gateway.httpsListeners[k].secrets, h.referenceGrants)
    {
      MoreGrants(ns, w.gateway.httpsListeners[k].secrets, w.graph.referenceGrants, h.referenceGrants);
    }
    OnlyGrantsChange(w.graph, h, w.gateway.name, HTTPSNames(w.gateway), HTTPSNames(w.gateway), pending);
  }

  // ---------- Routes under construction ----------

  /** A world with a route about to reach its graph. */
  ghost predicate SafeWith(naming: Naming, w: World, route: HTTPRoute) {
    Safe(naming, w, {route.name}) && ParentsOk(w.gateway, route)
  }

  lemma RouteWithListenerKeeps(
    naming: Naming, w: World, route: HTTPRoute, sections: set<string>, hostname: string, secret: NamespacedName)
    requires SafeWith(naming, w, route)
    ensures var (v, r) := RouteWithListener(naming, w, route, sections, hostname, secret);
            SafeWith(naming, v, r) && Grows(w.gateway, v.gateway)
  {
    hide Safe;
    hide Grows;
    EnsureHTTPSKeeps(naming, w, hostname, secret, {route.name});
    var v := EnsureHTTPS(naming, w, hostname, secret);
    GrowthKeepsNames(w.gateway, v.gateway);
    assert HTTPSNames(v.gateway) <= ListenerNames(v.gateway);
    assert v.gateway.name == w.gateway.name;
  }

  lemma {:induction false} ExtendListenersKeeps(
    naming: Naming, ingress: Ingress, sections: set<string>, w: World, route: HTTPRoute, hosts: seq<string>)
    requires SafeWith(naming, w, route)
    ensures var (v, r) := ExtendListeners(naming, ingress, sections, w, route, hosts);
            SafeWith(naming, v, r) && Grows(w.gateway, v.gateway)
  {
    hide SafeWith;
    hide Grows;
    hide RouteWithListener;
    if hosts == [] {
      StillGrows(w.gateway);
    } else {
      var init, host := hosts[..|hosts| - 1], hosts[|hosts| - 1];
      ExtendListenersKeeps(naming, ingress, sections, w, route, init);
      var (w1, route1) := ExtendListeners(naming, ingress, sections, w, route, init);
      match HostSecret(ingress.tls, host) {
        case None =>
        case Some(secretName) =>
          var secret := NamespacedName(ingress.name.namespace, secretName);
          RouteWithListenerKeeps(naming, w1, route1, sections, host, secret);
          GrowsTransitively(w.gateway, w1.gateway,
                            RouteWithListener(naming, w1, route1, sections, host, secret).0.gateway);
      }
    }
  }

  lemma StillGrows(g: GatewayState)
    ensures Grows(g, g)
  {
  }

  /** Only policies change, and the new ones are sound. */
  lemma PoliciesChange(naming: Naming, w: World, g: Graph, pending: set<NamespacedName>)
    requires Safe(naming, w, pending)
    requires g.httpRoutes == w.graph.httpRoutes && g.referenceGrants == w.graph.referenceGrants
    requires PoliciesOk(g, w.gateway.name) && TargetsOk(g, HTTPSNames(w.gateway), pending)
    ensures Safe(naming, w.(graph := g), pending)
  {
    hide GatewayOk;
    hide RoutesOk;
    hide GrantsOk;
  }

  lemma RoutePolicyKeeps(naming: Naming, w: World, route: HTTPRoute, config: RoutePolicyConfig -> RoutePolicyConfig)
    requires Safe(naming, w, {route.name})
    ensures Safe(naming, w.(graph := WithRoutePolicy(w.graph, route.name, config)), {route.name})
  {
    hide GatewayOk;
    hide RoutesOk;
    hide GrantsOk;
    hide ServicePoliciesOk;
    hide WAFPoliciesOk;
    hide FrontendPoliciesOk;
    hide SectionsIn;
    var g := WithRoutePolicy(w.graph, route.name, config);
    var k := PolicyName(route.name);
    assert TargetName(NewRoutePolicy(route.name).target) == route.name;
    if k in w.graph.routePolicies {
      PolicyNameInjective(TargetName(w.graph.routePolicies[k].target), route.name);
    }
    PoliciesChange(naming, w, g, {route.name});
  }

  lemma RouteWAFKeeps(naming: Naming, w: World, route: HTTPRoute, a: Annotation)
    requires Safe(naming, w, {route.name})
    ensures Safe(naming, HandleWAFPolicyForPath(w, route, a).world, {route.name})
  {
    hide GatewayOk;
    hide RoutesOk;
    hide GrantsOk;
    hide ServicePoliciesOk;
    hide RoutePoliciesOk;
    hide FrontendPoliciesOk;
    hide SectionsIn;
    var initial := NewRouteWAFPolicy(route.name);
    var k := initial.name;
    assert TargetName(initial.target) == route.name;
    WAFPolicyKindsDistinct(w.gateway.name, route.name);
    if k in w.graph.wafPolicies {
      WAFPolicyNameInjective("httproute", KIND_HTTP_ROUTE, TargetName(w.graph.wafPolicies[k].target), route.name);
    }
    PoliciesChange(naming, w, HandleWAFPolicyForPath(w, route, a).world.graph, {route.name});
  }

  // Health checks and backend TLS

  lemma ServicePolicyKeeps<S>(m: map<NamespacedName, Policy<S>>, initial: Policy<S>, service: NamespacedName, spec: S)
    requires ServicePoliciesOk(m) && initial.name == PolicyName(service) && initial.target == ServiceTarget(service)
    ensures ServicePoliciesOk(Inserted(m, initial)[initial.name := Inserted(m, initial)[initial.name].(spec := spec)])
  {
    assert TargetName(initial.target) == service;
  }

  lemma {:induction false} ApplyProbeKeeps(
    g: HealthChecks, a: Annotation, field: ProbeField, v: ProbeValue, order: seq<NamespacedName>)
    requires Fits(field, v) && ServicePoliciesOk(g)
    ensures ServicePoliciesOk(ApplyProbe(g, a, field, v, order).policies)
  {
    hide ServicePoliciesOk;
    hide Written;
    if order != [] {
      var init, service := order[..|order| - 1], order[|order| - 1];
      ApplyProbeKeeps(g, a, field, v, init);
      var before := ApplyProbe(g, a, field, v, init).policies;
      var initial := NewHealthCheckPolicy(service);
      ServicePolicyKeeps(before, initial, service, Written(Inserted(before, initial)[initial.name].spec, field, v));
    }
  }

  lemma {:induction false} ApplyPortsKeeps(r: TLSRun, route: HTTPRoute, order: seq<NamespacedName>)
    requires ServicePoliciesOk(r.policies)
    ensures ServicePoliciesOk(ApplyPorts(r, route, order).policies)
  {
    hide ServicePoliciesOk;
    if order != [] {
      var init, service := order[..|order| - 1], order[|order| - 1];
      ApplyPortsKeeps(r, route, init);
      var before := ApplyPorts(r, route, init).policies;
      var initial := NewBackendTLSPolicy(service);
      ServicePolicyKeeps(before, initial, service,
                         Ascending(SetOf(Inserted(before, initial)[initial.name].spec)
                                   + PortSet(RoutePort(route, service))));
    }
  }

  lemma ProbeKeeps(
    naming: Naming, w: World, a: Annotation, field: ProbeField, order: seq<NamespacedName>,
    pending: set<NamespacedName>)
    requires Safe(naming, w, pending)
    ensures var policies := HandleProbe(w.graph.healthCheckPolicies, a, field, order).policies;
            Safe(naming, w.(graph := w.graph.(healthCheckPolicies := policies)), pending)
  {
    hide GatewayOk;
    hide RoutesOk;
    hide GrantsOk;
    hide Decode;
    hide ApplyProbe;
    DecodeFits(field, a.value);
    hide ServicePoliciesOk;
    hide RoutePoliciesOk;
    hide WAFPoliciesOk;
    hide FrontendPoliciesOk;
    hide SectionsIn;
    if Decode(field, a.value).Some? {
      ApplyProbeKeeps(w.graph.healthCheckPolicies, a, field, Decode(field, a.value).value, order);
    }
    var policies := HandleProbe(w.graph.healthCheckPolicies, a, field, order).policies;
    PoliciesChange(naming, w, w.graph.(healthCheckPolicies := policies), pending);
  }

  lemma ProtocolKeeps(
    naming: Naming, w: World, a: Annotation, route: HTTPRoute, order: seq<NamespacedName>, pending: set<NamespacedName>)
    requires Safe(naming, w, pending)
    ensures var policies := HandleProtocol(w.graph.backendTLSPolicies, a, route, order).policies;
            Safe(naming, w.(graph := w.graph.(backendTLSPolicies := policies)), pending)
  {
    hide GatewayOk;
    hide RoutesOk;
    hide GrantsOk;
    hide ApplyPorts;
    hide ToLower;
    hide ServicePoliciesOk;
    hide RoutePoliciesOk;
    hide WAFPoliciesOk;
    hide FrontendPoliciesOk;
    hide SectionsIn;
    ApplyPortsKeeps(TLSRun(w.graph.backendTLSPolicies, a), route, order);
    var policies := HandleProtocol(w.graph.backendTLSPolicies, a, route, order).policies;
    PoliciesChange(naming, w, w.graph.(backendTLSPolicies := policies), pending);
  }

  // Frontend TLS

  ghost predicate SectionsIn(m: map<NamespacedName, Policy<Option<string>>>, names: set<string>) {
    forall k | k in m :: forall n | n in m[k].target.sectionNames :: n in names
  }

  lemma {:induction false} ApplyProfileKeeps(
    r: ProfileRun, gateway: NamespacedName, profile: string, names: seq<string>, all: set<string>)
    requires FrontendPoliciesOk(r.policies, gateway) && SectionsIn(r.policies, all) && forall n | n in names :: n in all
    ensures FrontendPoliciesOk(ApplyProfile(r, gateway, profile, names).policies, gateway)
    ensures SectionsIn(ApplyProfile(r, gateway, profile, names).policies, all)
  {
    if names != [] {
      ApplyProfileKeeps(r, gateway, profile, names[..|names| - 1], all);
      var last := names[|names| - 1];
      assert NewFrontendTLSPolicy(gateway, last).target.sectionNames == [last];
    }
  }

  lemma SSLProfileKeeps(
    naming: Naming, w: World, route: HTTPRoute, a: Annotation, order: seq<ListenerKey>, pending: set<NamespacedName>)
    requires Safe(naming, w, pending)
    ensures Safe(naming, HandleSSLProfile(w, route, a, order).world, pending)
  {
    hide GatewayOk;
    hide RoutesOk;
    hide GrantsOk;
    hide ApplyProfile;
    hide ParentHTTPSListenerNames;
    hide ServicePoliciesOk;
    hide RoutePoliciesOk;
    hide WAFPoliciesOk;
    hide FrontendPoliciesOk;
    hide SectionsIn;
    var names := ParentHTTPSListenerNames(w.gateway, route, order);
    if names != [] {
      ApplyProfileKeeps(ProfileRun(w.graph.frontendTLSPolicies, a, false), w.gateway.name, ProfileFor(a.value), names,
                        HTTPSNames(w.gateway));
      PoliciesChange(naming, w, HandleSSLProfile(w, route, a, order).world.graph, pending);
    }
  }

  lemma SSLRedirectKeeps(naming: Naming, w: World, route: HTTPRoute, a: Annotation, pending: set<NamespacedName>)
    requires Safe(naming, w, pending)
    ensures Safe(naming, HandleSSLRedirect(w, route, a).world, pending)
    ensures Grows(w.gateway, HandleSSLRedirect(w, route, a).world.gateway)
  {
    hide GatewayOk;
    hide GrantsOk;
    hide PoliciesOk;
    if w.gateway.hasHTTPSRedirect {
      StillGrows(w.gateway);
    } else {
      EnsureHTTPKeeps(naming, w, pending);
      var v := w.(gateway := EnsureHTTP(w.gateway));
      FlagKeeps(naming, v, pending);
      var u := v.(gateway := v.gateway.(hasHTTPSRedirect := true));
      var redirect := RedirectRoute(u.gateway.name, HTTP_LISTENER_NAME);
      assert ListenerNames(u.gateway) == ListenerNames(v.gateway);
      assert ParentsOk(u.gateway, redirect);
      CommitKeeps(naming, u, redirect, pending);
    }
  }

  lemma FlagKeeps(naming: Naming, w: World, pending: set<NamespacedName>)
    requires Safe(naming, w, pending)
    ensures Safe(naming, w.(gateway := w.gateway.(hasHTTPSRedirect := true)), pending)
  {
    hide GrantsOk;
    hide PoliciesOk;
    hide ListenerOk;
    var g := w.gateway.(hasHTTPSRedirect := true);
    assert Grows(w.gateway, g) && HTTPSNames(g) == HTTPSNames(w.gateway);
    GrowthKeepsNames(w.gateway, g);
  }

  /** Storing a route whose parents resolve. */
  lemma CommitKeeps(naming: Naming, w: World, route: HTTPRoute, pending: set<NamespacedName>)
    requires Safe(naming, w, pending) && ParentsOk(w.gateway, route)
    ensures Safe(naming, w.(graph := w.graph.(httpRoutes := w.graph.httpRoutes[route.name := route])), pending)
    ensures Safe(naming, w.(graph := w.graph.(httpRoutes := w.graph.httpRoutes[route.name := route])),
                 pending - {route.name})
  {
    hide GatewayOk;
    hide GrantsOk;
    hide ParentsOk;
    var g := w.graph.(httpRoutes := w.graph.httpRoutes[route.name := route]);
    assert PoliciesOk(g, w.gateway.name);
    assert w.graph.httpRoutes.Keys + pending <= g.httpRoutes.Keys + (pending - {route.name});
    hide PoliciesOk;
  }

  // ---------- One annotation ----------

  /** Every handler of the provider keeps the invariant, and listeners only grow. */
  lemma VisitKeeps(
    env: Env, ingress: Ingress, sections: set<string>, w: World, route: HTTPRoute, key: string, a: Annotation,
    orders: Orders)
    requires SafeWith(env.naming, w, route)
    ensures var o := Visit(env, ingress, sections, w, route, key, a, orders);
            && SafeWith(env.naming, o.world, o.route) && o.route.name == route.name
            && Grows(w.gateway, o.world.gateway)
  {
    hide Safe;
    hide Grows;
    hide HandlerFor;
    hide ApplyOp;
    hide ParseInt;
    hide HandleProbe;
    hide HandleProtocol;
    hide HandleRuleSet;
    hide HandleSSLProfile;
    hide HandleSSLRedirect;
    hide HandleWAFPolicyForPath;
    hide WithRoutePolicy;
    hide ParentsOk;
    var naming, pending := env.naming, {route.name};
    StillGrows(w.gateway);
    SameParents(w.gateway);
    VisitKeepsRouting(env, ingress, sections, w, route, key, a, orders);
    if key != LAST_APPLIED && HandlerFor(key).Some? {
      match HandlerFor(key).value {
        case RequestTimeout =>
          var n := ParseInt(a.value, TWO_TO_THE_63);
          if n.Some? {
            var timeout := WrapInt64(n.value * NANOSECONDS_PER_SECOND);
            RoutePolicyKeeps(naming, w, route, (c: RoutePolicyConfig) => c.(routeTimeout := Some(timeout)));
          }
        case CookieBasedAffinity =>
          RoutePolicyKeeps(naming, w, route, (c: RoutePolicyConfig) => c.(managedCookie := true));
        case Probe(field) => ProbeKeeps(naming, w, a, field, orders.services, pending);
        case HostnameExtension =>
          ExtendListenersKeeps(naming, ingress, sections, w, route, HostNames(Split(a.value, ',')));
          SameParents(ExtendListeners(naming, ingress, sections, w, route, HostNames(Split(a.value, ','))).0.gateway);
        case WAFPolicyForPath => RouteWAFKeeps(naming, w, route, a); WAFKeepsGateway(w, route, a);
        case SSLRedirect =>
          SSLRedirectKeeps(naming, w, route, a, pending);
          GrowthKeepsNames(w.gateway, HandleSSLRedirect(w, route, a).world.gateway);
          RedirectKeepsRoute(w, route, a);
        case BackendProtocol => ProtocolKeeps(naming, w, a, route, orders.services, pending);
        case SSLProfile =>
          SSLProfileKeeps(naming, w, route, a, orders.listeners, pending);
          ProfileKeepsGateway(w, route, a, orders.listeners);
        case _ =>
      }
    }
  }

  lemma WAFKeepsGateway(w: World, route: HTTPRoute, a: Annotation)
    ensures HandleWAFPolicyForPath(w, route, a).world.gateway == w.gateway
    ensures HandleWAFPolicyForPath(w, route, a).route == route
  {
  }

  lemma RedirectKeepsRoute(w: World, route: HTTPRoute, a: Annotation)
    ensures HandleSSLRedirect(w, route, a).route == route
  {
  }

  lemma ProfileKeepsGateway(w: World, route: HTTPRoute, a: Annotation, order: seq<ListenerKey>)
    ensures HandleSSLProfile(w, route, a, order).world.gateway == w.gateway
    ensures HandleSSLProfile(w, route, a, order).route == route
  {
  }

  /** Whether the parents resolve depends on the name and the parent references alone. */
  lemma SameParents(g: GatewayState)
    ensures forall a: HTTPRoute, b: HTTPRoute | ParentsOk(g, a) && b.name == a.name && b.parentRefs == a.parentRefs ::
              ParentsOk(g, b)
  {
  }

  lemma {:induction false} VisitAllKeeps(
    env: Env, ingress: Ingress, sections: set<string>, schedule: Schedule, i: nat, p: Pass, order: seq<string>)
    requires SafeWith(env.naming, p.world, p.route) && forall k | k in order :: k in p.annotations
    ensures var r := VisitAll(env, ingress, sections, schedule, i, p, order);
            && SafeWith(env.naming, r.world, r.route) && r.route.name == p.route.name
            && Grows(p.world.gateway, r.world.gateway)
  {
    hide SafeWith;
    hide Grows;
    hide Visit;
    if order == [] {
      StillGrows(p.world.gateway);
    } else {
      var init, last := order[..|order| - 1], order[|order| - 1];
      assert order == init + [last];
      VisitAllKeeps(env, ingress, sections, schedule, i, p, init);
      var q := VisitAll(env, ingress, sections, schedule, i, p, init);
      VisitKeeps(env, ingress, sections, q.world, q.route, last, q.annotations[last],
                 OrdersAt(schedule, i, last, q.world, q.route));
      GrowsTransitively(p.world.gateway, q.world.gateway,
                        VisitAll(env, ingress, sections, schedule, i, p, order).world.gateway);
    }
  }

  // ---------- Rules, ingresses, runs ----------

  /** Between rules: the world is safe and the routes at hand resolve. */
  ghost predicate RunSafe(naming: Naming, s: IngressRun) {
    Safe(naming, s.world, {}) && forall h | h in s.routes :: ParentsOk(s.world.gateway, s.routes[h])
  }

  lemma MorePending(naming: Naming, w: World, pending: set<NamespacedName>)
    requires Safe(naming, w, {})
    ensures Safe(naming, w, pending)
  {
    hide GatewayOk;
    hide GrantsOk;
    hide PoliciesOk;
    hide RoutesOk;
  }

  lemma NewRouteKeeps(naming: Naming, w: World, ingress: Ingress, host: string)
    requires Safe(naming, w, {})
    ensures var (v, route) := NewRoute(naming, w, ingress, host);
            Safe(naming, v, {}) && ParentsOk(v.gateway, route) && Grows(w.gateway, v.gateway)
  {
    hide Safe;
    hide Grows;
    hide EnsureHTTPS;
    hide EnsureHTTP;
    hide ListenerFor;
    hide ChosenSecret;
    StillGrows(w.gateway);
    if ingress.tls != [] {
      var secret := ChosenSecret(ingress.tls, ingress.name.namespace, host);
      if secret != NO_SECRET {
        EnsureHTTPSKeeps(naming, w, host, secret, {});
        var v := EnsureHTTPS(naming, w, host, secret);
        assert HTTPSNames(v.gateway) <= ListenerNames(v.gateway);
        assert v.gateway.name == w.gateway.name by { GrowthKeepsName(w.gateway, v.gateway); }
      }
    } else {
      EnsureHTTPKeeps(naming, w, {});
      GrowthKeepsName(w.gateway, EnsureHTTP(w.gateway));
    }
  }

  lemma GrowthKeepsName(g: GatewayState, h: GatewayState)
    requires Grows(g, h)
    ensures h.name == g.name
  {
  }

  lemma RuleKeeps(env: Env, ingress: Ingress, schedule: Schedule, s: IngressRun, i: nat)
    requires i < |ingress.rules| && ValidSchedule(schedule, s.annotations.Keys) && RunSafe(env.naming, s)
    ensures var r := HandleRule(env, ingress, schedule, s, i);
            RunSafe(env.naming, r) && Grows(s.world.gateway, r.world.gateway)
  {
    hide Safe;
    hide Grows;
    hide ParentsOk;
    hide NewRoute;
    hide VisitAll;
    hide TranslatePaths;
    var naming, host := env.naming, ingress.rules[i].host;
    var (w, route) := RouteFor(naming, ingress, s, host);
    NewRouteKeeps(naming, s.world, ingress, host);
    StillGrows(s.world.gateway);
    assert Grows(s.world.gateway, w.gateway);
    GrowthKeepsNames(s.world.gateway, w.gateway);
    if ingress.rules[i].http.Some? {
      var start, order := PassStart(naming, ingress, s, i), schedule.annotations(i);
      MorePending(naming, w, {route.name});
      SameParents(w.gateway);
      assert ParentsOk(w.gateway, start.route);
      VisitAllKeeps(env, ingress, SectionsOf(start.route.parentRefs), schedule, i, start, order);
      var p := PassEnd(env, ingress, schedule, s, i);
      GrowsTransitively(s.world.gateway, w.gateway, p.world.gateway);
      GrowthKeepsNames(s.world.gateway, p.world.gateway);
      CommitKeeps(naming, p.world, p.route, {p.route.name});
      assert {p.route.name} - {p.route.name} == {};
    }
  }

  lemma {:induction false} RulesKeep(env: Env, ingress: Ingress, schedule: Schedule, s: IngressRun, n: nat)
    requires n <= |ingress.rules| && ValidSchedule(schedule, s.annotations.Keys) && RunSafe(env.naming, s)
    ensures var r := HandleRules(env, ingress, schedule, s, n);
            RunSafe(env.naming, r) && Grows(s.world.gateway, r.world.gateway)
  {
    hide HandleRule;
    hide RunSafe;
    hide Grows;
    hide ValidSchedule;
    if n == 0 {
      StillGrows(s.world.gateway);
    } else {
      RulesKeep(env, ingress, schedule, s, n - 1);
      var r := HandleRules(env, ingress, schedule, s, n - 1);
      RuleKeeps(env, ingress, schedule, r, n - 1);
      GrowsTransitively(s.world.gateway, r.world.gateway, HandleRule(env, ingress, schedule, r, n - 1).world.gateway);
    }
  }

  lemma IngressKeeps(env: Env, ingress: Ingress, schedule: Schedule, w: World, annotations: map<string, Annotation>)
    requires ValidSchedule(schedule, annotations.Keys) && Safe(env.naming, w, {})
    ensures var r := HandleIngress(env, ingress, schedule, w, annotations);
            Safe(env.naming, r.world, {}) && Grows(w.gateway, r.world.gateway)
  {
    hide Safe;
    hide Grows;
    hide HandleRules;
    GrantTLSKeeps(env.naming, w, ingress, |ingress.tls|);
    RulesKeep(env, ingress, schedule, IngressStart(w, ingress, annotations), |ingress.rules|);
  }

  lemma {:induction false} IngressesKeep(
    env: Env, inputs: map<NamespacedName, Input>, schedules: NamespacedName -> Schedule, w: World,
    order: seq<NamespacedName>)
    requires ValidInput(inputs, schedules) && (forall k | k in order :: k in inputs) && Safe(env.naming, w, {})
    ensures var r := HandleIngresses(env, inputs, schedules, w, order);
            Safe(env.naming, r.world, {}) && Grows(w.gateway, r.world.gateway)
  {
    hide Safe;
    hide Grows;
    hide HandleIngress;
    if order == [] {
      StillGrows(w.gateway);
    } else {
      var init, last := order[..|order| - 1], order[|order| - 1];
      assert last in order;
      IngressesKeep(env, inputs, schedules, w, init);
      var before := HandleIngresses(env, inputs, schedules, w, init).world;
      IngressKeeps(env, inputs[last].ingress, schedules(last), before, inputs[last].annotations);
      GrowsTransitively(w.gateway, before.gateway, HandleIngresses(env, inputs, schedules, w, order).world.gateway);
    }
  }

  lemma StartIsSafe(naming: Naming, options: Options, scrapedWAFID: string, sorted: seq<NamespacedName>)
    ensures Safe(naming, StartWorld(options, scrapedWAFID, sorted), {})
  {
  }

  /** After a whole conversion, whatever the map orders, the world is safe. */
  lemma ConvertIsSafe(
    env: Env, options: Options, scrapedWAFID: string,
    inputs: map<NamespacedName, Input>, schedules: NamespacedName -> Schedule, listing: seq<NamespacedName>)
    requires ValidInput(inputs, schedules) && Lists(listing, inputs.Keys)
    ensures Safe(env.naming, Convert(env, options, scrapedWAFID, inputs, schedules, listing).world, {})
  {
    hide Safe;
    hide HandleIngresses;
    hide ValidInput;
    hide NameLess;
    NameLessIsStrictOrder();
    SortOfListing(listing, listing, inputs.Keys, NameLess);
    var sorted := Sort(listing, NameLess);
    StartIsSafe(env.naming, options, scrapedWAFID, sorted);
    IngressesKeep(env, inputs, schedules, StartWorld(options, scrapedWAFID, sorted), sorted);
  }

  // ---------- The output ----------

  function Names(listeners: seq<Listener>): set<string> {
    set l | l in listeners :: l.name
  }

  /** The policy of a service or route: in its namespace, under its name with a suffix. */
  predicate TargetsOne<S>(k: NamespacedName, p: Policy<S>, group: string, kind: string) {
    && p.name == k && k.name == p.target.name + "-policy"
    && p.target == TargetRef(group, kind, p.target.name, Some(k.namespace), [])
  }

  /** A WAF policy is the gateway's or a route's, and is named after its target. */
  predicate WAFTarget(k: NamespacedName, p: Policy<string>, gateway: NamespacedName) {
    && p.name == k
    && ((p.target == TargetRef("gateway.networking.k8s.io", "Gateway", gateway.name, Some(gateway.namespace), [])
         && k == NamespacedName(gateway.namespace, "gateway-" + gateway.namespace + "-" + gateway.name + "-policy"))
        || (p.target == TargetRef("gateway.networking.k8s.io", "HTTPRoute", p.target.name, Some(k.namespace), [])
            && k.name == "httproute-" + k.namespace + "-" + p.target.name + "-policy"))
  }

  /** A frontend policy targets one listener of the gateway. */
  predicate ListenerTarget(k: NamespacedName, p: Policy<Option<string>>, gateway: NamespacedName) {
    && p.name == k && |p.target.sectionNames| == 1
    && p.target == TargetRef("gateway.networking.k8s.io", "Gateway", gateway.name, None, p.target.sectionNames)
    && k == NamespacedName(gateway.namespace, gateway.name + "-" + p.target.sectionNames[0] + "-policy")
  }

  ghost predicate PoliciesByField(g: Graph, gateway: NamespacedName) {
    && (forall k | k in g.healthCheckPolicies :: TargetsOne(k, g.healthCheckPolicies[k], "", "Service"))
    && (forall k | k in g.backendTLSPolicies :: TargetsOne(k, g.backendTLSPolicies[k], "", "Service"))
    && (forall k | k in g.routePolicies ::
          TargetsOne(k, g.routePolicies[k], "gateway.networking.k8s.io", "HTTPRoute"))
    && (forall k | k in g.wafPolicies :: WAFTarget(k, g.wafPolicies[k], gateway))
    && (forall k | k in g.frontendTLSPolicies :: ListenerTarget(k, g.frontendTLSPolicies[k], gateway))
  }

  /** The invariant spelled out on names and targets. */
  lemma PolicyFields(g: Graph, gateway: NamespacedName)
    requires PoliciesOk(g, gateway)
    ensures PoliciesByField(g, gateway)
  {
    forall k | k in g.wafPolicies ensures WAFTarget(k, g.wafPolicies[k], gateway) {
      WAFFields(k, g.wafPolicies[k], gateway);
    }
  }

  lemma WAFFields(k: NamespacedName, p: Policy<string>, gateway: NamespacedName)
    requires PolicyFor(k, p, NewGatewayWAFPolicy(gateway)) || PolicyFor(k, p, NewRouteWAFPolicy(TargetName(p.target)))
    ensures WAFTarget(k, p, gateway)
  {
    assert "gateway" + "-" == "gateway-" && "httproute" + "-" == "httproute-";
    if PolicyFor(k, p, NewGatewayWAFPolicy(gateway)) {
      assert k.name == "gateway" + "-" + gateway.namespace + "-" + gateway.name + "-policy";
    } else {
      assert k.name == "httproute" + "-" + k.namespace + "-" + p.target.name + "-policy";
    }
  }

  /** Everything the output refers to is in the output: parent references name listeners of the output gateway, policies
      target routes and listeners of the output, and each foreign secret is granted to the gateway. */
  lemma OutputIsClosed(
    env: Env, options: Options, scrapedWAFID: string,
    inputs: map<NamespacedName, Input>, schedules: NamespacedName -> Schedule, listing: seq<NamespacedName>,
    order: seq<ListenerKey>)
    requires ValidInput(inputs, schedules) && Lists(listing, inputs.Keys)
    requires Lists(order,
                   Convert(env, options, scrapedWAFID, inputs, schedules, listing).world.gateway.httpsListeners.Keys)
    ensures var w := Convert(env, options, scrapedWAFID, inputs, schedules, listing).world;
            var g, listeners := w.graph, Built(w.gateway, order);
            && (forall k | k in g.httpRoutes :: forall r | r in g.httpRoutes[k].parentRefs ::
                  && r.group.GetOr("gateway.networking.k8s.io") == "gateway.networking.k8s.io"
                  && r.kind.GetOr("Gateway") == "Gateway"
                  && r.sectionName.Some? && r.sectionName.value in Names(listeners)
                  && r.name == w.gateway.name.name
                  && r.namespace.GetOr(g.httpRoutes[k].name.namespace) == w.gateway.name.namespace)
            && (forall k | k in g.frontendTLSPolicies ::
                  forall n | n in g.frontendTLSPolicies[k].target.sectionNames :: n in Names(listeners))
            && (forall k | k in g.routePolicies :: TargetName(g.routePolicies[k].target) in g.httpRoutes)
            && (forall k | k in g.wafPolicies && g.wafPolicies[k].target.kind == KIND_HTTP_ROUTE ::
                  TargetName(g.wafPolicies[k].target) in g.httpRoutes)
            && PoliciesByField(g, w.gateway.name)
            && (forall l | l in listeners :: forall s | s in Resolved(w.gateway.name.namespace, l.certificateRefs) ::
                  s.namespace != w.gateway.name.namespace ==>
                    Granted(w.gateway.name.namespace, s.namespace, g.referenceGrants))
  {
    hide Convert;
    hide ValidInput;
    hide Granted;
    hide PoliciesOk;
    hide PoliciesByField;
    ConvertIsSafe(env, options, scrapedWAFID, inputs, schedules, listing);
    var w := Convert(env, options, scrapedWAFID, inputs, schedules, listing).world;
    OutputOfSafe(env.naming, w, order);
    PolicyFields(w.graph, w.gateway.name);
  }

  lemma OutputOfSafe(naming: Naming, w: World, order: seq<ListenerKey>)
    requires Safe(naming, w, {}) && Lists(order, w.gateway.httpsListeners.Keys)
    ensures Names(Built(w.gateway, order)) == ListenerNames(w.gateway)
    ensures HTTPSNames(w.gateway) <= ListenerNames(w.gateway)
    ensures forall l | l in Built(w.gateway, order) ::
              forall s | s in Resolved(w.gateway.name.namespace, l.certificateRefs) ::
                s.namespace != w.gateway.name.namespace ==>
                  Granted(w.gateway.name.namespace, s.namespace, w.graph.referenceGrants)
  {
    hide Granted;
    hide PoliciesOk;
    hide RoutesOk;
    hide TargetsOk;
    hide KeyLess;
    hide Sort;
    hide StrictlySorted;
    var listeners := Built(w.gateway, order);
    forall n ensures n in Names(listeners) <==> n in ListenerNames(w.gateway) {
      BuiltNames(w.gateway, order, n);
    }
    forall l | l in listeners
      ensures l == HTTP_LISTENER
              || exists k :: k in w.gateway.httpsListeners && w.gateway.httpsListeners[k].listener == l
    {
      BuiltListener(w.gateway, order, l);
    }
    assert Resolved(w.gateway.name.namespace, HTTP_LISTENER.certificateRefs) == [];
  }

  /** The policy handed out for a request: the one stored under its name, or the new one. */
  function HandedOut<S>(m: map<NamespacedName, Policy<S>>, requested: Policy<S>): Policy<S> {
    Inserted(m, requested)[requested.name]
  }

  /** The policy handed out has the name and the target of the request. */
  ghost predicate AnswersFor<S>(m: map<NamespacedName, Policy<S>>, requested: Policy<S>) {
    PolicyFor(requested.name, HandedOut(m, requested), requested)
  }

  /** A policy handed out, at any point of a run, is the one of the resource it was requested for, for all kinds. */
  lemma FetchedPolicyIsOwn(g: Graph, gateway: NamespacedName, resource: NamespacedName, listener: string)
    requires PoliciesOk(g, gateway)
    ensures AnswersFor(g.healthCheckPolicies, NewHealthCheckPolicy(resource))
    ensures AnswersFor(g.backendTLSPolicies, NewBackendTLSPolicy(resource))
    ensures AnswersFor(g.routePolicies, NewRoutePolicy(resource))
    ensures AnswersFor(g.wafPolicies, NewRouteWAFPolicy(resource))
    ensures AnswersFor(g.wafPolicies, NewGatewayWAFPolicy(gateway))
    ensures AnswersFor(g.frontendTLSPolicies, NewFrontendTLSPolicy(gateway, listener))
  {
    var k := PolicyName(resource);
    if k in g.healthCheckPolicies {
      PolicyNameInjective(TargetName(g.healthCheckPolicies[k].target), resource);
    }
    if k in g.backendTLSPolicies {
      PolicyNameInjective(TargetName(g.backendTLSPolicies[k].target), resource);
    }
    if k in g.routePolicies {
      PolicyNameInjective(TargetName(g.routePolicies[k].target), resource);
    }
    FetchedWAFPolicyIsOwn(g.wafPolicies, gateway, resource);
    FetchedFrontendPolicyIsOwn(g.frontendTLSPolicies, gateway, listener);
  }

  lemma FetchedWAFPolicyIsOwn(m: map<NamespacedName, Policy<string>>, gateway: NamespacedName, route: NamespacedName)
    requires WAFPoliciesOk(m, gateway)
    ensures AnswersFor(m, NewRouteWAFPolicy(route))
    ensures AnswersFor(m, NewGatewayWAFPolicy(gateway))
  {
    hide NewWAFPolicy;
    var r, g := NewRouteWAFPolicy(route).name, NewGatewayWAFPolicy(gateway).name;
    WAFPolicyKindsDistinct(gateway, route);
    if r in m {
      var target := TargetName(m[r].target);
      WAFPolicyKindsDistinct(gateway, target);
      if NewRouteWAFPolicy(target).name == r {
        WAFPolicyNameInjective("httproute", KIND_HTTP_ROUTE, target, route);
      }
    }
    if g in m {
      WAFPolicyKindsDistinct(gateway, TargetName(m[g].target));
    }
  }

  lemma FetchedFrontendPolicyIsOwn(
    m: map<NamespacedName, Policy<Option<string>>>, gateway: NamespacedName, listener: string)
    requires FrontendPoliciesOk(m, gateway)
    ensures AnswersFor(m, NewFrontendTLSPolicy(gateway, listener))
  {
    var k := NewFrontendTLSPolicy(gateway, listener).name;
    if k in m {
      FrontendTLSPolicyNameInjective(gateway, m[k].target.sectionNames[0], listener);
    }
  }

  /** Two different requests of one kind are never answered with the same policy, and neither are a gateway's and a
      route's request for a WAF policy. */
  lemma RequestsDoNotAlias(gateway: NamespacedName, a: NamespacedName, b: NamespacedName, l: string, m: string)
    ensures NewHealthCheckPolicy(a).name == NewHealthCheckPolicy(b).name <==> a == b
    ensures NewBackendTLSPolicy(a).name == NewBackendTLSPolicy(b).name <==> a == b
    ensures NewRoutePolicy(a).name == NewRoutePolicy(b).name <==> a == b
    ensures NewRouteWAFPolicy(a).name == NewRouteWAFPolicy(b).name <==> a == b
    ensures NewGatewayWAFPolicy(gateway).name != NewRouteWAFPolicy(a).name
    ensures NewFrontendTLSPolicy(gateway, l).name == NewFrontendTLSPolicy(gateway, m).name <==> l == m
  {
    if PolicyName(a) == PolicyName(b) {
      PolicyNameInjective(a, b);
    }
    if NewRouteWAFPolicy(a).name == NewRouteWAFPolicy(b).name {
      WAFPolicyNameInjective("httproute", KIND_HTTP_ROUTE, a, b);
    }
    WAFPolicyKindsDistinct(gateway, a);
    if NewFrontendTLSPolicy(gateway, l).name == NewFrontendTLSPolicy(gateway, m).name {
      FrontendTLSPolicyNameInjective(gateway, l, m);
    }
  }

  /** No target has two policies: of the policies of one kind, two with the same target are one. */
  lemma PoliciesDoNotAlias(g: Graph, gateway: NamespacedName)
    requires PoliciesOk(g, gateway)
    ensures forall a, b | a in g.healthCheckPolicies && b in g.healthCheckPolicies ::
              a == b <==> g.healthCheckPolicies[a].target == g.healthCheckPolicies[b].target
    ensures forall a, b | a in g.backendTLSPolicies && b in g.backendTLSPolicies ::
              a == b <==> g.backendTLSPolicies[a].target == g.backendTLSPolicies[b].target
    ensures forall a, b | a in g.routePolicies && b in g.routePolicies ::
              a == b <==> g.routePolicies[a].target == g.routePolicies[b].target
    ensures forall a, b | a in g.wafPolicies && b in g.wafPolicies ::
              a == b <==> g.wafPolicies[a].target == g.wafPolicies[b].target
    ensures forall a, b | a in g.frontendTLSPolicies && b in g.frontendTLSPolicies ::
              a == b <==> g.frontendTLSPolicies[a].target == g.frontendTLSPolicies[b].target
  {
  }
}
