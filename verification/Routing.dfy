/** What the annotation handlers leave alone: the matches and backends of every route, and other routes' entries. */
module Routing {
  import opened Text
  import opened Ordering
  import opened Annotations
  import opened Resources
  import opened Gateways
  import opened BackendGroups
  import opened Filters
  import opened RuleSets
  import opened Probes
  import opened BackendTLS
  import opened Handlers
  import opened Ingresses

  /** The matches and backends of a list of rules. */
  function Bare(rules: seq<RouteRule>): (r: seq<RouteRule>)
    ensures |r| == |rules|
    ensures forall i | 0 <= i < |rules| :: r[i] == rules[i].(filters := [])
  {
    seq(|rules|, i requires 0 <= i < |rules| => rules[i].(filters := []))
  }

  lemma BareOfConcat(a: seq<RouteRule>, b: seq<RouteRule>)
    ensures Bare(a + b) == Bare(a) + Bare(b)
  {
  }

  lemma {:induction false} RefsOfBare(rules: seq<RouteRule>)
    ensures Refs(rules) == Refs(Bare(rules))
  {
    if rules != [] {
      RefsOfBare(rules[..|rules| - 1]);
      assert Bare(rules)[..|rules| - 1] == Bare(rules[..|rules| - 1]);
    }
  }

  lemma {:induction false} RefsOfConcat(a: seq<RouteRule>, b: seq<RouteRule>)
    ensures Refs(a + b) == Refs(a) + Refs(b)
  {
    if b == [] {
      assert a + b == a;
    } else {
      var init, last := b[..|b| - 1], b[|b| - 1];
      RefsOfConcat(a, init);
      assert (a + b)[..|a + b| - 1] == a + init && (a + b)[|a + b| - 1] == last;
      assert Refs(a + b) == Refs(a + init) + last.backendRefs;
      assert Refs(b) == Refs(init) + last.backendRefs;
    }
  }

  lemma {:induction false} TranslatedIsBare(paths: seq<IngressPath>)
    ensures Bare(TranslatePaths(paths)) == TranslatePaths(paths)
  {
    if paths != [] {
      var init, last := paths[..|paths| - 1], paths[|paths| - 1];
      TranslatedIsBare(init);
      assert forall r | r in TranslatePaths(paths) :: r.filters == [] by {
        assert forall r | r in TranslatePaths(init) :: r.filters == [] by {
          forall r | r in TranslatePaths(init) ensures r.filters == [] {
            var i :| 0 <= i < |TranslatePaths(init)| && TranslatePaths(init)[i] == r;
            assert Bare(TranslatePaths(init))[i] == r.(filters := []);
          }
        }
      }
      var all := TranslatePaths(paths);
      assert forall i | 0 <= i < |all| :: all[i] in all;
    }
  }

  // ---------- One annotation ----------

  /** Same name, matches and backends. */
  predicate SameRouting(a: HTTPRoute, b: HTTPRoute) {
    a.name == b.name && Bare(a.rules) == Bare(b.rules)
  }

  lemma {:induction false} PerformKeepsRouting(r: FilterRun, actions: seq<Action>)
    ensures Bare(PerformAll(r, actions).rules) == Bare(r.rules)
  {
    hide Upsert;
    if actions != [] {
      PerformKeepsRouting(r, actions[..|actions| - 1]);
    }
  }

  lemma RuleSetKeepsRouting(rules: seq<RouteRule>, a: Annotation, ruleSet: Option<seq<RewriteRule>>)
    ensures Bare(HandleRuleSet(rules, a, ruleSet).rules) == Bare(rules)
  {
    if ruleSet.Some? {
      PerformKeepsRouting(FilterRun(rules, a, false), RuleSetActions(ruleSet.value, |ruleSet.value|));
    }
  }

  lemma {:induction false} ExtendKeepsRouting(
    naming: Naming, ingress: Ingress, sections: set<string>, w: World, route: HTTPRoute, hosts: seq<string>)
    ensures var (w1, route1) := ExtendListeners(naming, ingress, sections, w, route, hosts);
            && route1.name == route.name && route1.rules == route.rules && route1.hostnames == route.hostnames
            && w1.gateway.name == w.gateway.name && w1.gateway.httpListener == w.gateway.httpListener
            && w1.gateway.hasHTTPSRedirect == w.gateway.hasHTTPSRedirect
            && w1.graph == w.graph.(referenceGrants := w1.graph.referenceGrants)
  {
    if hosts != [] {
      ExtendKeepsRouting(naming, ingress, sections, w, route, hosts[..|hosts| - 1]);
    }
  }

  predicate IsRedirect(key: string) {
    key != LAST_APPLIED && HandlerFor(key) == Some(SSLRedirect)
  }

  /** No handler of the provider touches a match or a backend; only the redirect handler writes a route entry. */
  lemma VisitKeepsRouting(
    env: Env, ingress: Ingress, sections: set<string>, w: World, route: HTTPRoute, key: string, a: Annotation,
    orders: Orders)
    ensures var o := Visit(env, ingress, sections, w, route, key, a, orders);
            && SameRouting(o.route, route)
            && o.world.gateway.name == w.gateway.name
            && (w.gateway.hasHTTPSRedirect ==> o.world.gateway.hasHTTPSRedirect)
            && (IsRedirect(key) ==> o.world.gateway.hasHTTPSRedirect)
            && (!IsRedirect(key) || w.gateway.hasHTTPSRedirect ==> o.world.graph.httpRoutes == w.graph.httpRoutes)
            && (forall k | k != RedirectName(w.gateway.name.namespace) ::
                  (k in o.world.graph.httpRoutes <==> k in w.graph.httpRoutes)
                  && (k in w.graph.httpRoutes ==> o.world.graph.httpRoutes[k] == w.graph.httpRoutes[k]))
  {
    hide HandlerFor;
    hide Upsert;
    hide ParseInt;
    hide HandleRuleSet;
    hide HandleProbe;
    hide HandleProtocol;
    hide HostNames;
    hide Split;
    hide ApplyProfile;
    if key != LAST_APPLIED && HandlerFor(key).Some? {
      match HandlerFor(key).value {
        case HostnameExtension =>
          ExtendKeepsRouting(env.naming, ingress, sections, w, route, HostNames(Split(a.value, ',')));
        case RewriteRuleSetCustomResource =>
          RuleSetKeepsRouting(route.rules, a, RuleSetOf(env, ingress, a));
        case _ =>
      }
    }
  }

  lemma {:induction false} ApplyProbeKeepsValue(
    g: HealthChecks, a: Annotation, field: ProbeField, v: ProbeValue, order: seq<NamespacedName>)
    requires Fits(field, v)
    ensures ApplyProbe(g, a, field, v, order).annotation.value == a.value
  {
    if order != [] { ApplyProbeKeepsValue(g, a, field, v, order[..|order| - 1]); }
  }

  lemma {:induction false} ApplyPortsKeepsValue(r: TLSRun, route: HTTPRoute, order: seq<NamespacedName>)
    ensures ApplyPorts(r, route, order).annotation.value == r.annotation.value
  {
    if order != [] { ApplyPortsKeepsValue(r, route, order[..|order| - 1]); }
  }

  lemma {:induction false} ApplyProfileKeepsValue(
    r: ProfileRun, gateway: NamespacedName, profile: string, names: seq<string>)
    ensures ApplyProfile(r, gateway, profile, names).annotation.value == r.annotation.value
  {
    if names != [] { ApplyProfileKeepsValue(r, gateway, profile, names[..|names| - 1]); }
  }

  lemma {:induction false} PerformAllKeepsValue(r: FilterRun, actions: seq<Action>)
    ensures PerformAll(r, actions).annotation.value == r.annotation.value
  {
    if actions != [] { PerformAllKeepsValue(r, actions[..|actions| - 1]); }
  }

  /** The same annotations with the same values. */
  ghost predicate SameValues(a: map<string, Annotation>, b: map<string, Annotation>) {
    a.Keys == b.Keys && forall k | k in a :: a[k].value == b[k].value
  }

  /** A visit never changes what the annotation says. */
  lemma VisitKeepsValue(
    env: Env, ingress: Ingress, sections: set<string>, w: World, route: HTTPRoute, key: string, a: Annotation,
    orders: Orders)
    ensures Visit(env, ingress, sections, w, route, key, a, orders).annotation.value == a.value
  {
    hide HandlerFor;
    hide ApplyOp;
    hide ParseInt;
    hide ExtendListeners;
    hide ApplyProbe;
    hide ApplyPorts;
    hide ApplyProfile;
    hide PerformAll;
    hide Decode;
    hide Inserted;
    hide ToLower;
    if key != LAST_APPLIED && HandlerFor(key).Some? {
      match HandlerFor(key).value {
        case Probe(field) =>
          DecodeFits(field, a.value);
          if Decode(field, a.value).Some? {
            ApplyProbeKeepsValue(w.graph.healthCheckPolicies, a, field, Decode(field, a.value).value, orders.services);
          }
        case BackendProtocol => ApplyPortsKeepsValue(TLSRun(w.graph.backendTLSPolicies, a), route, orders.services);
        case SSLProfile =>
          ApplyProfileKeepsValue(
            ProfileRun(w.graph.frontendTLSPolicies, a, false), w.gateway.name, ProfileFor(a.value),
            ParentHTTPSListenerNames(w.gateway, route, orders.listeners));
        case RewriteRuleSetCustomResource =>
          var ruleSet := RuleSetOf(env, ingress, a);
          if ruleSet.Some? {
            PerformAllKeepsValue(FilterRun(route.rules, a, false), RuleSetActions(ruleSet.value, |ruleSet.value|));
          }
        case _ =>
      }
    }
  }

  /** The same over the whole annotation loop. */
  lemma {:induction false} VisitAllKeepsRouting(
    env: Env, ingress: Ingress, sections: set<string>, schedule: Schedule, i: nat, p: Pass, order: seq<string>)
    requires forall k | k in order :: k in p.annotations
    ensures var r := VisitAll(env, ingress, sections, schedule, i, p, order);
            && SameRouting(r.route, p.route)
            && r.world.gateway.name == p.world.gateway.name
            && (p.world.gateway.hasHTTPSRedirect || (exists k | k in order :: IsRedirect(k)) ==>
                  r.world.gateway.hasHTTPSRedirect)
            && (p.world.gateway.hasHTTPSRedirect || (forall k | k in order :: !IsRedirect(k)) ==>
                  r.world.graph.httpRoutes == p.world.graph.httpRoutes)
            && (forall k | k != RedirectName(p.world.gateway.name.namespace) ::
                  (k in r.world.graph.httpRoutes <==> k in p.world.graph.httpRoutes)
                  && (k in p.world.graph.httpRoutes ==> r.world.graph.httpRoutes[k] == p.world.graph.httpRoutes[k]))
  {
    hide Visit;
    hide IsRedirect;
    if order != [] {
      var init, last := order[..|order| - 1], order[|order| - 1];
      assert order == init + [last];
      VisitAllKeepsRouting(env, ingress, sections, schedule, i, p, init);
      var q := VisitAll(env, ingress, sections, schedule, i, p, init);
      VisitKeepsRouting(env, ingress, sections, q.world, q.route, last, q.annotations[last],
                        OrdersAt(schedule, i, last, q.world, q.route));
    }
  }

  // ---------- The rule loop ----------

  /** A path no rule is made for: its backend is a resource, or a service whose port is given by name alone. */
  predicate Dropped(p: IngressPath) {
    p.backend.ResourceBackend? || (p.backend.portName != "" && p.backend.portNumber == 0)
  }

  /** The rule of a path: one match on the path, by prefix or exact, and one backend, by name and number. */
  function RuleOf(p: IngressPath): RouteRule
    requires !Dropped(p)
  {
    var pathType := if p.pathType == Some(PrefixPath) then PathPrefix else Exact;
    RouteRule(
      [HTTPRouteMatch(Some(HTTPPathMatch(Some(pathType), Some(p.path))))], [],
      [BackendRef(None, None, p.backend.name, Some(p.backend.portNumber))])
  }

  /** Each path gets its rule behind those of the paths before it, unless it is dropped. */
  lemma OneMorePath(paths: seq<IngressPath>, p: IngressPath)
    ensures TranslatePaths([]) == []
    ensures !Dropped(p) ==> TranslatePaths(paths + [p]) == TranslatePaths(paths) + [RuleOf(p)]
    ensures TranslatePaths(paths + [p]) == TranslatePaths(paths) <==> Dropped(p)
  {
    assert (paths + [p])[..|paths|] == paths;
    assert TranslatePaths(paths + [p]) == TranslatePaths(paths) + if Supported(p) then [TranslatePath(p)] else [];
  }

  /** The translated paths of the first `n` rules of a host. */
  function HostRules(ingress: Ingress, host: string, n: nat): seq<RouteRule>
    requires n <= |ingress.rules|
  {
    if n == 0 then []
    else
      var rule := ingress.rules[n - 1];
      HostRules(ingress, host, n - 1)
      + if rule.host == host && rule.http.Some? then TranslatePaths(rule.http.value) else []
  }

  /** Some rule before `n` has paths, so the annotations are visited. */
  predicate HasPaths(ingress: Ingress, n: nat)
    requires n <= |ingress.rules|
  {
    n > 0 && (HasPaths(ingress, n - 1) || ingress.rules[n - 1].http.Some?)
  }

  lemma {:induction false} SomeRuleHasPaths(ingress: Ingress, n: nat)
    requires n <= |ingress.rules|
    ensures HasPaths(ingress, n) <==> exists i | 0 <= i < n :: ingress.rules[i].http.Some?
  {
    if n > 0 {
      SomeRuleHasPaths(ingress, n - 1);
    }
  }

  /** Some rule of the host before `n` has paths, so its route has reached the graph. */
  predicate Committed(ingress: Ingress, host: string, n: nat)
    requires n <= |ingress.rules|
  {
    exists i | 0 <= i < n :: ingress.rules[i].host == host && ingress.rules[i].http.Some?
  }

  predicate Seen(ingress: Ingress, host: string, n: nat)
    requires n <= |ingress.rules|
  {
    exists i | 0 <= i < n :: ingress.rules[i].host == host
  }

  /** How many rules of a host with paths there are among the first `n`. */
  function Passes(ingress: Ingress, host: string, n: nat): nat
    requires n <= |ingress.rules|
  {
    if n == 0 then 0
    else
      Passes(ingress, host, n - 1)
      + if ingress.rules[n - 1].host == host && ingress.rules[n - 1].http.Some? then 1 else 0
  }

  lemma {:induction false} NoPassesBefore(ingress: Ingress, host: string, n: nat)
    requires n <= |ingress.rules| && !Seen(ingress, host, n)
    ensures Passes(ingress, host, n) == 0
  {
    if n > 0 {
      assert ingress.rules[n - 1].host != host;
      NoPassesBefore(ingress, host, n - 1);
    }
  }

  lemma {:induction false} CommittedHasPasses(ingress: Ingress, host: string, n: nat)
    requires n <= |ingress.rules| && Committed(ingress, host, n)
    ensures Passes(ingress, host, n) > 0
  {
    if !(ingress.rules[n - 1].host == host && ingress.rules[n - 1].http.Some?) {
      CommittedHasPasses(ingress, host, n - 1);
    }
  }

  lemma NewRouteIsEmpty(naming: Naming, w: World, ingress: Ingress, host: string)
    ensures var (w1, route) := NewRoute(naming, w, ingress, host);
            && route.name == RouteNameFor(naming, ingress, host) && route.rules == []
            && route.hostnames == (if host != "" then [host] else [])
            && w1.gateway.name == w.gateway.name && w1.gateway.hasHTTPSRedirect == w.gateway.hasHTTPSRedirect
            && w1.graph == w.graph.(referenceGrants := w1.graph.referenceGrants)
  {
  }

  /** Each host's route holds exactly the in-order concatenation of the supported paths of its rules. */
  ghost predicate RoutesAreTranslations(env: Env, ingress: Ingress, s: IngressRun, n: nat)
    requires n <= |ingress.rules|
  {
    && (forall h :: h in s.routes <==> Seen(ingress, h, n))
    && (forall h | h in s.routes ::
          s.routes[h].name == RouteNameFor(env.naming, ingress, h)
          && Bare(s.routes[h].rules) == HostRules(ingress, h, n))
  }

  /** The route at the end of a pass, and the graph around it. */
  lemma PassRouting(env: Env, ingress: Ingress, schedule: Schedule, s: IngressRun, i: nat)
    requires i < |ingress.rules| && ingress.rules[i].http.Some? && ValidSchedule(schedule, s.annotations.Keys)
    ensures var (w, route) := RouteFor(env.naming, ingress, s, ingress.rules[i].host);
            var p := PassEnd(env, ingress, schedule, s, i);
            && p.route.name == route.name
            && Bare(p.route.rules) == Bare(route.rules) + TranslatePaths(ingress.rules[i].http.value)
            && p.world.gateway.name == w.gateway.name
            && (w.gateway.hasHTTPSRedirect || (exists k | k in s.annotations :: IsRedirect(k)) ==>
                  p.world.gateway.hasHTTPSRedirect)
            && (w.gateway.hasHTTPSRedirect || (forall k | k in s.annotations :: !IsRedirect(k)) ==>
                  p.world.graph.httpRoutes == w.graph.httpRoutes)
            && (forall k | k != RedirectName(w.gateway.name.namespace) ::
                  (k in p.world.graph.httpRoutes <==> k in w.graph.httpRoutes)
                  && (k in w.graph.httpRoutes ==> p.world.graph.httpRoutes[k] == w.graph.httpRoutes[k]))
  {
    hide VisitAll;
    hide RouteFor;
    hide IsRedirect;
    hide TranslatePaths;
    var (w, route) := RouteFor(env.naming, ingress, s, ingress.rules[i].host);
    var paths := ingress.rules[i].http.value;
    BareOfConcat(route.rules, TranslatePaths(paths));
    TranslatedIsBare(paths);
    var start, order := PassStart(env.naming, ingress, s, i), schedule.annotations(i);
    assert forall k :: k in order <==> k in s.annotations;
    VisitAllKeepsRouting(env, ingress, SectionsOf(start.route.parentRefs), schedule, i, start, order);
  }

  lemma RouteForHost(env: Env, ingress: Ingress, s: IngressRun, i: nat)
    requires i < |ingress.rules| && RoutesAreTranslations(env, ingress, s, i)
    ensures var (w, route) := RouteFor(env.naming, ingress, s, ingress.rules[i].host);
            && route.name == RouteNameFor(env.naming, ingress, ingress.rules[i].host)
            && Bare(route.rules) == HostRules(ingress, ingress.rules[i].host, i)
            && (ingress.rules[i].host in s.routes ==> route == s.routes[ingress.rules[i].host])
            && w.gateway.name == s.world.gateway.name && w.gateway.hasHTTPSRedirect == s.world.gateway.hasHTTPSRedirect
            && w.graph == s.world.graph.(referenceGrants := w.graph.referenceGrants)
  {
    hide NewRoute;
    var host := ingress.rules[i].host;
    NewRouteIsEmpty(env.naming, s.world, ingress, host);
    if host !in s.routes {
      NoRulesBefore(ingress, host, i);
    }
  }

  lemma RuleKeepsTranslations(env: Env, ingress: Ingress, schedule: Schedule, s: IngressRun, i: nat)
    requires i < |ingress.rules| && ValidSchedule(schedule, s.annotations.Keys)
    requires RoutesAreTranslations(env, ingress, s, i)
    ensures RoutesAreTranslations(env, ingress, HandleRule(env, ingress, schedule, s, i), i + 1)
  {
    hide PassEnd;
    hide RouteFor;
    hide TranslatePaths;
    hide IsRedirect;
    RouteForHost(env, ingress, s, i);
    if ingress.rules[i].http.Some? {
      PassRouting(env, ingress, schedule, s, i);
    }
  }

  lemma {:induction false} NoRulesBefore(ingress: Ingress, host: string, n: nat)
    requires n <= |ingress.rules| && !Seen(ingress, host, n)
    ensures HostRules(ingress, host, n) == []
  {
    if n > 0 {
      assert ingress.rules[n - 1].host != host;
      NoRulesBefore(ingress, host, n - 1);
    }
  }

  lemma NoRoutesYet(env: Env, ingress: Ingress, s: IngressRun)
    requires s.routes == map[]
    ensures RoutesAreTranslations(env, ingress, s, 0)
  {
  }

  lemma {:induction false} TranslationsHold(env: Env, ingress: Ingress, schedule: Schedule, s: IngressRun, n: nat)
    requires n <= |ingress.rules| && ValidSchedule(schedule, s.annotations.Keys) && s.routes == map[]
    ensures RoutesAreTranslations(env, ingress, HandleRules(env, ingress, schedule, s, n), n)
  {
    hide HandleRule;
    hide RoutesAreTranslations;
    hide ValidSchedule;
    if n == 0 {
      NoRoutesYet(env, ingress, s);
    } else {
      TranslationsHold(env, ingress, schedule, s, n - 1);
      RuleKeepsTranslations(env, ingress, schedule, HandleRules(env, ingress, schedule, s, n - 1), n - 1);
    }
  }

  // ---------- The graph entries ----------

  /** Different hosts of the ingress get different route names. */
  ghost predicate DistinctRouteNames(naming: Naming, ingress: Ingress) {
    forall i, j
      | 0 <= i < |ingress.rules| && 0 <= j < |ingress.rules| && ingress.rules[i].host != ingress.rules[j].host ::
      RouteNameFor(naming, ingress, ingress.rules[i].host) != RouteNameFor(naming, ingress, ingress.rules[j].host)
  }

  /** The graph holds the current route of every host that has paths, and the redirect is made once there is one. */
  ghost predicate RoutesInGraph(env: Env, ingress: Ingress, s: IngressRun, n: nat)
    requires n <= |ingress.rules|
  {
    && (forall h | Committed(ingress, h, n) ::
          && h in s.routes && RouteNameFor(env.naming, ingress, h) in s.world.graph.httpRoutes
          && s.world.graph.httpRoutes[RouteNameFor(env.naming, ingress, h)] == s.routes[h])
    && ((exists i | 0 <= i < n :: ingress.rules[i].http.Some?) && (exists k | k in s.annotations :: IsRedirect(k)) ==>
          s.world.gateway.hasHTTPSRedirect)
  }

  lemma RuleKeepsGraphEntries(env: Env, ingress: Ingress, schedule: Schedule, s: IngressRun, i: nat)
    requires i < |ingress.rules| && ValidSchedule(schedule, s.annotations.Keys)
    requires DistinctRouteNames(env.naming, ingress)
    requires RoutesAreTranslations(env, ingress, s, i) && RoutesInGraph(env, ingress, s, i)
    ensures RoutesInGraph(env, ingress, HandleRule(env, ingress, schedule, s, i), i + 1)
  {
    hide PassEnd;
    hide RouteFor;
    hide IsRedirect;
    hide HostRules;
    hide TranslatePaths;
    var rule := ingress.rules[i];
    RouteForHost(env, ingress, s, i);
    hide RoutesAreTranslations;
    hide DistinctRouteNames;
    var next := HandleRule(env, ingress, schedule, s, i);
    if rule.http.Some? {
      PassRouting(env, ingress, schedule, s, i);
    }
    forall h | Committed(ingress, h, i + 1)
      ensures h in next.routes && RouteNameFor(env.naming, ingress, h) in next.world.graph.httpRoutes
      ensures next.world.graph.httpRoutes[RouteNameFor(env.naming, ingress, h)] == next.routes[h]
    {
      assert Committed(ingress, h, i) || (h == rule.host && rule.http.Some?);
      if h != rule.host {
        HostNamesDiffer(env, ingress, h, i);
      }
    }
  }

  lemma HostNamesDiffer(env: Env, ingress: Ingress, host: string, i: nat)
    requires i < |ingress.rules| && DistinctRouteNames(env.naming, ingress)
    requires host != ingress.rules[i].host && Committed(ingress, host, i + 1)
    ensures RouteNameFor(env.naming, ingress, host) != RouteNameFor(env.naming, ingress, ingress.rules[i].host)
  {
  }

  lemma NoEntriesYet(env: Env, ingress: Ingress, s: IngressRun)
    ensures RoutesInGraph(env, ingress, s, 0)
  {
  }

  lemma {:induction false} GraphEntriesHold(env: Env, ingress: Ingress, schedule: Schedule, s: IngressRun, n: nat)
    requires n <= |ingress.rules| && ValidSchedule(schedule, s.annotations.Keys) && s.routes == map[]
    requires DistinctRouteNames(env.naming, ingress)
    ensures RoutesInGraph(env, ingress, HandleRules(env, ingress, schedule, s, n), n)
  {
    hide HandleRule;
    hide RoutesInGraph;
    hide RoutesAreTranslations;
    hide DistinctRouteNames;
    hide ValidSchedule;
    if n == 0 {
      NoEntriesYet(env, ingress, s);
    } else {
      GraphEntriesHold(env, ingress, schedule, s, n - 1);
      TranslationsHold(env, ingress, schedule, s, n - 1);
      RuleKeepsGraphEntries(env, ingress, schedule, HandleRules(env, ingress, schedule, s, n - 1), n - 1);
    }
  }
}
