/** What is created stays: the grants for every secret, and every resource an annotation is reported to have become. */
module Destinations {
  import opened Text
  import opened Ordering
  import opened Annotations
  import opened Resources
  import opened Gateways
  import opened Filters
  import opened RuleSets
  import opened Probes
  import opened BackendTLS
  import opened Handlers
  import opened Ingresses
  import opened Integrity

  // ---------- The graph only grows ----------

  /** Nothing is ever removed from the graph, and a grant is never changed. */
  ghost predicate GraphGrows(g: Graph, h: Graph) {
    && g.httpRoutes.Keys <= h.httpRoutes.Keys
    && g.backendTLSPolicies.Keys <= h.backendTLSPolicies.Keys
    && g.frontendTLSPolicies.Keys <= h.frontendTLSPolicies.Keys
    && g.healthCheckPolicies.Keys <= h.healthCheckPolicies.Keys
    && g.routePolicies.Keys <= h.routePolicies.Keys && g.wafPolicies.Keys <= h.wafPolicies.Keys
    && forall k | k in g.referenceGrants :: k in h.referenceGrants && h.referenceGrants[k] == g.referenceGrants[k]
  }

  /** The resource is in the graph, in the map of its kind. */
  predicate Exists(g: Graph, r: ResourceID) {
    if r.apiVersion == "gateway.networking.k8s.io/v1" then r.kind == "HTTPRoute" && r.name in g.httpRoutes
    else
      && r.apiVersion == "alb.networking.azure.io/v1"
      && ((r.kind == "RoutePolicy" && r.name in g.routePolicies)
          || (r.kind == "HealthCheckPolicy" && r.name in g.healthCheckPolicies)
          || (r.kind == "WebApplicationFirewallPolicy" && r.name in g.wafPolicies)
          || (r.kind == "BackendTLSPolicy" && r.name in g.backendTLSPolicies)
          || (r.kind == "FrontendTLSPolicy" && r.name in g.frontendTLSPolicies))
  }

  /** Every destination is one the annotation had, or is there. */
  ghost predicate NewOnesExist(before: set<ResourceID>, after: set<ResourceID>, g: Graph) {
    forall r | r in after && r !in before :: Exists(g, r)
  }

  lemma {:induction false} ProbeDestinations(
    g: HealthChecks, a: Annotation, field: ProbeField, v: ProbeValue, order: seq<NamespacedName>)
    requires Fits(field, v)
    ensures var r := ApplyProbe(g, a, field, v, order);
            && g.Keys <= r.policies.Keys
            && forall d | d in r.annotation.destinations && d !in a.destinations ::
                 d.apiVersion == "alb.networking.azure.io/v1" && d.kind == "HealthCheckPolicy" && d.name in r.policies
  {
    hide Fits;
    hide Written;
    hide Conflicts;
    hide Next;
    if order != [] {
      ProbeDestinations(g, a, field, v, order[..|order| - 1]);
    }
  }

  lemma {:induction false} PortDestinations(r: TLSRun, route: HTTPRoute, order: seq<NamespacedName>)
    ensures var s := ApplyPorts(r, route, order);
            && r.policies.Keys <= s.policies.Keys
            && forall d | d in s.annotation.destinations && d !in r.annotation.destinations ::
                 d.apiVersion == "alb.networking.azure.io/v1" && d.kind == "BackendTLSPolicy" && d.name in s.policies
  {
    hide Ascending;
    hide Next;
    if order != [] {
      PortDestinations(r, route, order[..|order| - 1]);
    }
  }

  lemma {:induction false} ProfileDestinations(
    r: ProfileRun, gateway: NamespacedName, profile: string, names: seq<string>)
    ensures var s := ApplyProfile(r, gateway, profile, names);
            && r.policies.Keys <= s.policies.Keys
            && forall d | d in s.annotation.destinations && d !in r.annotation.destinations ::
                 d.apiVersion == "alb.networking.azure.io/v1" && d.kind == "FrontendTLSPolicy" && d.name in s.policies
  {
    hide Next;
    hide Level;
    if names != [] {
      ProfileDestinations(r, gateway, profile, names[..|names| - 1]);
    }
  }

  lemma {:induction false} RuleSetDestinations(r: FilterRun, actions: seq<Action>)
    ensures PerformAll(r, actions).annotation.destinations == r.annotation.destinations
  {
    hide ApplyOp;
    hide Next;
    hide Level;
    if actions != [] {
      RuleSetDestinations(r, actions[..|actions| - 1]);
    }
  }

  lemma GrantGrows(g: Graph, gatewayNamespace: string, namespace: string)
    ensures GraphGrows(g, WithGrant(g, gatewayNamespace, namespace))
  {
    hide ReferenceGrantForGatewayToKind;
  }

  /** The TLS section of an ingress of another namespace adds a grant exactly when it names a secret. */
  lemma {:induction false} GrantTLSExactly(w: World, ingress: Ingress, n: nat)
    requires n <= |ingress.tls|
    ensures var grants, here := GrantTLS(w, ingress, n).graph.referenceGrants, w.gateway.name.namespace;
            forall k :: k in grants <==>
              || k in w.graph.referenceGrants
              || (&& k == NamespacedName(ingress.name.namespace, "gateway-in-" + here + "-Secret-grant")
                  && ingress.name.namespace != here && exists i | 0 <= i < n :: ingress.tls[i].secretName != "")
  {
    if n > 0 {
      GrantTLSExactly(w, ingress, n - 1);
      GrantsOnly(w, ingress, n - 1);
      hide GrantTLS;
      var here := w.gateway.name.namespace;
      assert "-" + "Secret" + "-grant" == "-Secret-grant";
      assert "gateway-in-" + here + "-" + "Secret" + "-grant" == "gateway-in-" + here + "-Secret-grant";
    }
  }

  lemma GrowsOn(f: Graph, g: Graph, h: Graph)
    requires GraphGrows(f, g) && GraphGrows(g, h)
    ensures GraphGrows(f, h)
  {
  }

  lemma {:induction false} ExtendGrows(
    naming: Naming, ingress: Ingress, sections: set<string>, w: World, route: HTTPRoute, hosts: seq<string>)
    ensures GraphGrows(w.graph, ExtendListeners(naming, ingress, sections, w, route, hosts).0.graph)
  {
    hide GraphGrows;
    hide WithGrant;
    hide ListenerFor;
    hide HostSecret;
    GrowsByItself(w.graph);
    if hosts != [] {
      var init := hosts[..|hosts| - 1];
      ExtendGrows(naming, ingress, sections, w, route, init);
      var (w1, route1) := ExtendListeners(naming, ingress, sections, w, route, init);
      GrowsByItself(w1.graph);
      GrantGrows(w1.graph, w1.gateway.name.namespace, ingress.name.namespace);
      var v := ExtendListener(naming, ingress, sections, w1, route1, hosts[|hosts| - 1]).0;
      GrowsOn(w.graph, w1.graph, v.graph);
    }
  }

  lemma GrowsByItself(g: Graph)
    ensures GraphGrows(g, g)
  {
  }

  lemma ProbeVisitDestinations(g: HealthChecks, a: Annotation, field: ProbeField, order: seq<NamespacedName>)
    ensures var r := HandleProbe(g, a, field, order);
            && g.Keys <= r.policies.Keys
            && forall d | d in r.annotation.destinations && d !in a.destinations ::
                 d.apiVersion == "alb.networking.azure.io/v1" && d.kind == "HealthCheckPolicy" && d.name in r.policies
  {
    hide Decode;
    hide ApplyProbe;
    hide Next;
    hide Level;
    DecodeFits(field, a.value);
    if Decode(field, a.value).Some? {
      ProbeDestinations(g, a, field, Decode(field, a.value).value, order);
    }
  }

  lemma PolicyDestinations(
    env: Env, ingress: Ingress, sections: set<string>, w: World, route: HTTPRoute, a: Annotation, h: Handler,
    orders: Orders)
    requires h.Probe? || h.BackendProtocol? || h.SSLProfile?
    ensures var o := Handle(env, ingress, sections, w, route, a, h, orders);
            && GraphGrows(w.graph, o.world.graph)
            && NewOnesExist(a.destinations, o.annotation.destinations, o.world.graph)
  {
    hide HandleProbe;
    hide ToLower;
    hide ApplyPorts;
    hide ApplyProfile;
    hide Next;
    hide Level;
    match h {
      case Probe(field) => ProbeVisitDestinations(w.graph.healthCheckPolicies, a, field, orders.services);
      case BackendProtocol => PortDestinations(TLSRun(w.graph.backendTLSPolicies, a), route, orders.services);
      case SSLProfile =>
        ProfileDestinations(ProfileRun(w.graph.frontendTLSPolicies, a, false), w.gateway.name, ProfileFor(a.value),
                            ParentHTTPSListenerNames(w.gateway, route, orders.listeners));
    }
  }

  lemma RouteDestinations(
    env: Env, ingress: Ingress, sections: set<string>, w: World, route: HTTPRoute, a: Annotation, h: Handler,
    orders: Orders)
    requires h.RequestTimeout? || h.CookieBasedAffinity? || h.WAFPolicyForPath? || h.SSLRedirect?
    ensures var o := Handle(env, ingress, sections, w, route, a, h, orders);
            && GraphGrows(w.graph, o.world.graph)
            && NewOnesExist(a.destinations, o.annotation.destinations, o.world.graph)
  {
    hide ParseInt;
    hide ParseBool;
    hide NewWAFPolicy;
    hide Next;
    hide Level;
  }

  lemma NoDestinations(
    env: Env, ingress: Ingress, sections: set<string>, w: World, route: HTTPRoute, a: Annotation, h: Handler,
    orders: Orders)
    requires h.HostnameExtension? || h.BackendHostname? || h.BackendPathPrefix? || h.TrustedRootCertificate?
             || h.RewriteRuleSetCustomResource?
    ensures var o := Handle(env, ingress, sections, w, route, a, h, orders);
            && GraphGrows(w.graph, o.world.graph)
            && NewOnesExist(a.destinations, o.annotation.destinations, o.world.graph)
  {
    hide PerformAll;
    hide RuleSetActions;
    hide HostNames;
    hide Split;
    hide ExtendListeners;
    hide ApplyOp;
    hide GraphGrows;
    hide Next;
    hide Level;
    GrowsByItself(w.graph);
    match h {
      case HostnameExtension => ExtendGrows(env.naming, ingress, sections, w, route, HostNames(Split(a.value, ',')));
      case RewriteRuleSetCustomResource =>
        var ruleSet := RuleSetOf(env, ingress, a);
        if ruleSet.Some? {
          RuleSetDestinations(FilterRun(route.rules, a, false), RuleSetActions(ruleSet.value, |ruleSet.value|));
        }
      case _ =>
    }
  }

  /** A visit removes nothing, and what it reports is there. */
  lemma VisitDestinations(
    env: Env, ingress: Ingress, sections: set<string>, w: World, route: HTTPRoute, key: string, a: Annotation,
    orders: Orders)
    ensures var o := Visit(env, ingress, sections, w, route, key, a, orders);
            && GraphGrows(w.graph, o.world.graph)
            && NewOnesExist(a.destinations, o.annotation.destinations, o.world.graph)
  {
    hide HandlerFor;
    hide Handle;
    hide GraphGrows;
    hide Next;
    hide Level;
    GrowsByItself(w.graph);
    if key != LAST_APPLIED && HandlerFor(key).Some? {
      var h := HandlerFor(key).value;
      match h {
        case Probe(_) | BackendProtocol | SSLProfile =>
          PolicyDestinations(env, ingress, sections, w, route, a, h, orders);
        case RequestTimeout | CookieBasedAffinity | WAFPolicyForPath | SSLRedirect =>
          RouteDestinations(env, ingress, sections, w, route, a, h, orders);
        case HostnameExtension | BackendHostname | BackendPathPrefix | TrustedRootCertificate
          | RewriteRuleSetCustomResource =>
          NoDestinations(env, ingress, sections, w, route, a, h, orders);
      }
    }
  }

  // ---------- One ingress ----------

  ghost predicate AllExist(annotations: map<string, Annotation>, g: Graph) {
    forall k, r | k in annotations && r in annotations[k].destinations :: Exists(g, r)
  }

  lemma StillExist(annotations: map<string, Annotation>, g: Graph, h: Graph)
    requires AllExist(annotations, g) && GraphGrows(g, h)
    ensures AllExist(annotations, h)
  {
    forall k, r | k in annotations && r in annotations[k].destinations ensures Exists(h, r) {
      assert Exists(g, r);
    }
  }

  lemma {:induction false} PassDestinations(
    env: Env, ingress: Ingress, sections: set<string>, schedule: Schedule, i: nat, p: Pass, order: seq<string>)
    requires (forall k | k in order :: k in p.annotations) && AllExist(p.annotations, p.world.graph)
    ensures var r := VisitAll(env, ingress, sections, schedule, i, p, order);
            GraphGrows(p.world.graph, r.world.graph) && AllExist(r.annotations, r.world.graph)
  {
    hide Visit;
    hide GraphGrows;
    hide Exists;
    GrowsByItself(p.world.graph);
    if order != [] {
      var init, last := order[..|order| - 1], order[|order| - 1];
      assert order == init + [last];
      PassDestinations(env, ingress, sections, schedule, i, p, init);
      var q := VisitAll(env, ingress, sections, schedule, i, p, init);
      var orders := OrdersAt(schedule, i, last, q.world, q.route);
      VisitDestinations(env, ingress, sections, q.world, q.route, last, q.annotations[last], orders);
      var h := Visit(env, ingress, sections, q.world, q.route, last, q.annotations[last], orders).world.graph;
      GrowsOn(p.world.graph, q.world.graph, h);
      StillExist(q.annotations, q.world.graph, h);
    }
  }

  lemma NewRouteGrows(naming: Naming, w: World, ingress: Ingress, host: string)
    ensures GraphGrows(w.graph, NewRoute(naming, w, ingress, host).0.graph)
  {
    hide GraphGrows;
    hide WithGrant;
    hide ChosenSecret;
    hide ListenerFor;
    GrowsByItself(w.graph);
    GrantGrows(w.graph, w.gateway.name.namespace,
               ChosenSecret(ingress.tls, ingress.name.namespace, host).namespace);
  }

  lemma CommitGrows(w: World, route: HTTPRoute)
    ensures GraphGrows(w.graph, Commit(w, route).graph)
  {
  }

  lemma RuleDestinations(env: Env, ingress: Ingress, schedule: Schedule, s: IngressRun, i: nat)
    requires i < |ingress.rules| && ValidSchedule(schedule, s.annotations.Keys)
    requires AllExist(s.annotations, s.world.graph)
    ensures var r := HandleRule(env, ingress, schedule, s, i);
            GraphGrows(s.world.graph, r.world.graph) && AllExist(r.annotations, r.world.graph)
  {
    hide NewRoute;
    hide VisitAll;
    hide TranslatePaths;
    hide GraphGrows;
    hide AllExist;
    hide Commit;
    var host := ingress.rules[i].host;
    GrowsByItself(s.world.graph);
    NewRouteGrows(env.naming, s.world, ingress, host);
    var (w, route) := RouteFor(env.naming, ingress, s, host);
    StillExist(s.annotations, s.world.graph, w.graph);
    if ingress.rules[i].http.Some? {
      var start, order := PassStart(env.naming, ingress, s, i), schedule.annotations(i);
      assert Lists(order, s.annotations.Keys);
      PassDestinations(env, ingress, SectionsOf(start.route.parentRefs), schedule, i, start, order);
      var p := PassEnd(env, ingress, schedule, s, i);
      CommitGrows(p.world, p.route);
      GrowsOn(s.world.graph, w.graph, p.world.graph);
      GrowsOn(s.world.graph, p.world.graph, Commit(p.world, p.route).graph);
      StillExist(p.annotations, p.world.graph, Commit(p.world, p.route).graph);
    }
  }

  lemma {:induction false} RulesDestinations(env: Env, ingress: Ingress, schedule: Schedule, s: IngressRun, n: nat)
    requires n <= |ingress.rules| && ValidSchedule(schedule, s.annotations.Keys)
    requires AllExist(s.annotations, s.world.graph)
    ensures var r := HandleRules(env, ingress, schedule, s, n);
            GraphGrows(s.world.graph, r.world.graph) && AllExist(r.annotations, r.world.graph)
  {
    hide HandleRule;
    hide ValidSchedule;
    hide GraphGrows;
    hide AllExist;
    GrowsByItself(s.world.graph);
    if n > 0 {
      RulesDestinations(env, ingress, schedule, s, n - 1);
      var r := HandleRules(env, ingress, schedule, s, n - 1);
      RuleDestinations(env, ingress, schedule, r, n - 1);
      GrowsOn(s.world.graph, r.world.graph, HandleRule(env, ingress, schedule, r, n - 1).world.graph);
    }
  }

  lemma {:induction false} TLSGrants(w: World, ingress: Ingress, n: nat)
    requires n <= |ingress.tls| && GrantsOk(w.gateway.name.namespace, w.graph.referenceGrants)
    ensures var v := GrantTLS(w, ingress, n);
            && GraphGrows(w.graph, v.graph) && v.gateway == w.gateway
            && GrantsOk(w.gateway.name.namespace, v.graph.referenceGrants)
            && (ingress.name.namespace != w.gateway.name.namespace
                && (exists i | 0 <= i < n :: ingress.tls[i].secretName != "") ==>
                  Granted(w.gateway.name.namespace, ingress.name.namespace, v.graph.referenceGrants))
  {
    hide GraphGrows;
    hide WithGrant;
    hide GrantsOk;
    hide Granted;
    GrowsByItself(w.graph);
    if n > 0 {
      TLSGrants(w, ingress, n - 1);
      var before := GrantTLS(w, ingress, n - 1).graph;
      if ingress.name.namespace != w.gateway.name.namespace {
        GrantIsStored(before, w.gateway.name.namespace, ingress.name.namespace);
        GrantGrows(before, w.gateway.name.namespace, ingress.name.namespace);
        GrowsOn(w.graph, before, WithGrant(before, w.gateway.name.namespace, ingress.name.namespace));
      }
    }
  }

  lemma GrantStays(gatewayNamespace: string, namespace: string, g: Graph, h: Graph)
    requires Granted(gatewayNamespace, namespace, g.referenceGrants) && GraphGrows(g, h)
    ensures Granted(gatewayNamespace, namespace, h.referenceGrants)
  {
  }

  /** The ingress is outside the gateway's namespace and names a secret. */
  predicate NeedsGrant(ingress: Ingress, gatewayNamespace: string) {
    ingress.name.namespace != gatewayNamespace && exists i | 0 <= i < |ingress.tls| :: ingress.tls[i].secretName != ""
  }

  /** After an ingress its secrets are permitted, whether or not a listener uses them, and every resource its
      annotations are reported to have become is in the graph. */
  lemma IngressDestinations(
    env: Env, ingress: Ingress, schedule: Schedule, w: World, annotations: map<string, Annotation>)
    requires ValidSchedule(schedule, annotations.Keys) && Safe(env.naming, w, {})
    requires AllExist(annotations, w.graph)
    ensures var r := HandleIngress(env, ingress, schedule, w, annotations);
            && GraphGrows(w.graph, r.world.graph)
            && AllExist(r.annotations, r.world.graph)
            && (NeedsGrant(ingress, w.gateway.name.namespace) ==>
                  Granted(w.gateway.name.namespace, ingress.name.namespace, r.world.graph.referenceGrants))
  {
    hide HandleRules;
    hide GraphGrows;
    hide AllExist;
    hide Granted;
    hide GatewayOk;
    hide GrantsOk;
    hide PoliciesOk;
    hide TargetsOk;
    hide RoutesOk;
    hide GrantTLS;
    hide ValidSchedule;
    var start := IngressStart(w, ingress, annotations);
    TLSGrants(w, ingress, |ingress.tls|);
    StillExist(annotations, w.graph, start.world.graph);
    RulesDestinations(env, ingress, schedule, start, |ingress.rules|);
    var h := HandleIngress(env, ingress, schedule, w, annotations).world.graph;
    GrowsOn(w.graph, start.world.graph, h);
    if NeedsGrant(ingress, w.gateway.name.namespace) {
      GrantStays(w.gateway.name.namespace, ingress.name.namespace, start.world.graph, h);
    }
  }

  // ---------- A whole run ----------

  /** What holds of one ingress, at the end of a run. */
  ghost predicate Kept(input: Input, results: map<NamespacedName, IngressRun>, w: World) {
    && input.ingress.name in results
    && AllExist(results[input.ingress.name].annotations, w.graph)
    && (NeedsGrant(input.ingress, w.gateway.name.namespace) ==>
          Granted(w.gateway.name.namespace, input.ingress.name.namespace, w.graph.referenceGrants))
  }

  ghost predicate Fresh(annotations: map<string, Annotation>) {
    forall k | k in annotations :: annotations[k].destinations == {}
  }

  lemma {:induction false} RunDestinations(
    env: Env, inputs: map<NamespacedName, Input>, schedules: NamespacedName -> Schedule, w: World,
    order: seq<NamespacedName>)
    requires ValidInput(inputs, schedules) && (forall k | k in order :: k in inputs) && NoDuplicates(order)
    requires Safe(env.naming, w, {}) && forall k | k in order :: Fresh(inputs[k].annotations)
    ensures var run := HandleIngresses(env, inputs, schedules, w, order);
            && run.world.gateway.name == w.gateway.name
            && forall k | k in order :: Kept(inputs[k], run.results, run.world)
  {
    hide HandleIngress;
    hide GraphGrows;
    hide AllExist;
    hide Granted;
    hide NeedsGrant;
    hide Safe;
    hide Grows;
    hide ValidSchedule;
    if order != [] {
      var init, last := order[..|order| - 1], order[|order| - 1];
      assert order == init + [last] && last in order;
      RunDestinations(env, inputs, schedules, w, init);
      IngressesKeep(env, inputs, schedules, w, init);
      var before, input := HandleIngresses(env, inputs, schedules, w, init), inputs[last];
      NothingToExist(input.annotations, before.world.graph);
      IngressDestinations(env, input.ingress, schedules(last), before.world, input.annotations);
      IngressKeeps(env, input.ingress, schedules(last), before.world, input.annotations);
      var run := HandleIngresses(env, inputs, schedules, w, order);
      GrowthKeepsName(before.world.gateway, run.world.gateway);
      forall k | k in init ensures Kept(inputs[k], run.results, run.world) {
        StillKept(inputs[k], before.results, before.world, run.results, run.world);
      }
    }
  }

  lemma NothingToExist(annotations: map<string, Annotation>, g: Graph)
    requires Fresh(annotations)
    ensures AllExist(annotations, g)
  {
  }

  lemma StillKept(
    input: Input, before: map<NamespacedName, IngressRun>, w: World, after: map<NamespacedName, IngressRun>, v: World)
    requires Kept(input, before, w) && GraphGrows(w.graph, v.graph) && v.gateway.name == w.gateway.name
    requires input.ingress.name in after && after[input.ingress.name] == before[input.ingress.name]
    ensures Kept(input, after, v)
  {
    hide GraphGrows;
    hide AllExist;
    hide Granted;
    StillExist(before[input.ingress.name].annotations, w.graph, v.graph);
    if NeedsGrant(input.ingress, v.gateway.name.namespace) {
      GrantStays(v.gateway.name.namespace, input.ingress.name.namespace, w.graph, v.graph);
    }
  }

  /** After a conversion every resource an annotation is reported to have become is in the output, and the gateway is
      permitted the secrets of every ingress outside its namespace that names one. */
  lemma ConvertReportsWhatExists(
    env: Env, options: Options, scrapedWAFID: string,
    inputs: map<NamespacedName, Input>, schedules: NamespacedName -> Schedule, listing: seq<NamespacedName>,
    k: NamespacedName)
    requires ValidInput(inputs, schedules) && Lists(listing, inputs.Keys) && k in inputs
    requires forall l | l in inputs :: Fresh(inputs[l].annotations)
    ensures var run := Convert(env, options, scrapedWAFID, inputs, schedules, listing);
            && k in run.results
            && (forall a, r | a in run.results[k].annotations && r in run.results[k].annotations[a].destinations ::
                  Exists(run.world.graph, r))
            && (k.namespace != run.world.gateway.name.namespace
                && (exists t | t in inputs[k].ingress.tls :: t.secretName != "") ==>
                  Granted(run.world.gateway.name.namespace, k.namespace, run.world.graph.referenceGrants))
  {
    hide HandleIngresses;
    hide Fresh;
    hide Exists;
    hide Granted;
    hide NameLess;
    hide Sort;
    hide Safe;
    hide ValidSchedule;
    NameLessIsStrictOrder();
    SortOfListing(listing, listing, inputs.Keys, NameLess);
    var sorted := Sort(listing, NameLess);
    ListedOnce(sorted, inputs.Keys);
    var start := StartWorld(options, scrapedWAFID, sorted);
    StartIsSafe(env.naming, options, scrapedWAFID, sorted);
    RunDestinations(env, inputs, schedules, start, sorted);
    assert Kept(inputs[k], HandleIngresses(env, inputs, schedules, start, sorted).results,
                HandleIngresses(env, inputs, schedules, start, sorted).world);
  }
}
