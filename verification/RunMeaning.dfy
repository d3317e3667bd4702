/** The routes of a whole run: no ingress touches another's, so what each host means survives to the end. */
module RunMeaning {
  import opened Ordering
  import opened Annotations
  import opened Resources
  import opened Gateways
  import opened Handlers
  import opened Ingresses
  import opened Routing
  import opened Matching

  /** The entry under a name is as it was. */
  ghost predicate SameEntry(g: Graph, h: Graph, name: NamespacedName) {
    (name in h.httpRoutes <==> name in g.httpRoutes)
    && (name in g.httpRoutes ==> h.httpRoutes[name] == g.httpRoutes[name])
  }

  /** A rule leaves every other route's entry alone, but for the redirect's. */
  lemma RuleKeepsForeign(env: Env, ingress: Ingress, schedule: Schedule, s: IngressRun, i: nat, name: NamespacedName)
    requires i < |ingress.rules| && ValidSchedule(schedule, s.annotations.Keys)
    requires RoutesAreTranslations(env, ingress, s, i)
    ensures var w := HandleRule(env, ingress, schedule, s, i).world;
            && w.gateway.name == s.world.gateway.name
            && (name != RedirectName(w.gateway.name.namespace)
                && (ingress.rules[i].http.Some? ==>
                      name != RouteNameFor(env.naming, ingress, ingress.rules[i].host)) ==>
                  SameEntry(s.world.graph, w.graph, name))
  {
    hide PassEnd;
    hide RouteFor;
    hide IsRedirect;
    hide TranslatePaths;
    hide ValidSchedule;
    RouteForHost(env, ingress, s, i);
    hide RoutesAreTranslations;
    if ingress.rules[i].http.Some? {
      PassRouting(env, ingress, schedule, s, i);
    }
  }

  lemma {:induction false} RulesKeepForeign(
    env: Env, ingress: Ingress, schedule: Schedule, s: IngressRun, n: nat, name: NamespacedName)
    requires n <= |ingress.rules| && ValidSchedule(schedule, s.annotations.Keys) && s.routes == map[]
    ensures var w := HandleRules(env, ingress, schedule, s, n).world;
            && w.gateway.name == s.world.gateway.name
            && (name != RedirectName(w.gateway.name.namespace)
                && (forall i | 0 <= i < n && ingress.rules[i].http.Some? ::
                      name != RouteNameFor(env.naming, ingress, ingress.rules[i].host)) ==>
                  SameEntry(s.world.graph, w.graph, name))
  {
    hide HandleRule;
    hide ValidSchedule;
    hide RoutesAreTranslations;
    if n > 0 {
      RulesKeepForeign(env, ingress, schedule, s, n - 1, name);
      TranslationsHold(env, ingress, schedule, s, n - 1);
      RuleKeepsForeign(env, ingress, schedule, HandleRules(env, ingress, schedule, s, n - 1), n - 1, name);
    }
  }

  /** An ingress leaves the routes of other ingresses alone. */
  lemma IngressKeepsForeign(
    env: Env, ingress: Ingress, schedule: Schedule, w: World, annotations: map<string, Annotation>,
    name: NamespacedName)
    requires ValidSchedule(schedule, annotations.Keys)
    ensures var v := HandleIngress(env, ingress, schedule, w, annotations).world;
            && v.gateway.name == w.gateway.name
            && (name != RedirectName(w.gateway.name.namespace)
                && (forall i | 0 <= i < |ingress.rules| && ingress.rules[i].http.Some? ::
                      name != RouteNameFor(env.naming, ingress, ingress.rules[i].host)) ==>
                  SameEntry(w.graph, v.graph, name))
  {
    hide HandleRules;
    GrantsOnly(w, ingress, |ingress.tls|);
    RulesKeepForeign(env, ingress, schedule, IngressStart(w, ingress, annotations), |ingress.rules|, name);
  }

  /** The report names a route for every rule, but only the routes of hosts with paths reach the graph: under the name
      of another host of the ingress the graph holds what it held before. */
  lemma RecordedWithoutRoute(
    env: Env, ingress: Ingress, schedule: Schedule, w: World, annotations: map<string, Annotation>, host: string)
    requires ValidSchedule(schedule, annotations.Keys) && DistinctRouteNames(env.naming, ingress)
    requires Seen(ingress, host, |ingress.rules|) && !Committed(ingress, host, |ingress.rules|)
    requires RouteNameFor(env.naming, ingress, host) != RedirectName(w.gateway.name.namespace)
    ensures RouteNameFor(env.naming, ingress, host) in HandleIngress(env, ingress, schedule, w, annotations).recorded
    ensures SameEntry(w.graph, HandleIngress(env, ingress, schedule, w, annotations).world.graph,
                      RouteNameFor(env.naming, ingress, host))
  {
    hide HandleRules;
    hide SameEntry;
    hide ValidSchedule;
    IngressKeepsForeign(env, ingress, schedule, w, annotations, RouteNameFor(env.naming, ingress, host));
    EveryRuleIsRecorded(env, ingress, schedule, IngressStart(w, ingress, annotations), |ingress.rules|);
    var i :| 0 <= i < |ingress.rules| && ingress.rules[i].host == host;
    assert HandleIngress(env, ingress, schedule, w, annotations).recorded[i] == RouteNameFor(env.naming, ingress, host);
  }

  /** So every host's route is recorded, and reaches the graph if and only if the host has a rule with paths. */
  lemma RouteReachesGraphIff(
    env: Env, ingress: Ingress, schedule: Schedule, w: World, annotations: map<string, Annotation>, host: string)
    requires ValidSchedule(schedule, annotations.Keys) && DistinctRouteNames(env.naming, ingress)
    requires Seen(ingress, host, |ingress.rules|)
    requires RouteNameFor(env.naming, ingress, host) != RedirectName(w.gateway.name.namespace)
    requires RouteNameFor(env.naming, ingress, host) !in w.graph.httpRoutes
    ensures var r := HandleIngress(env, ingress, schedule, w, annotations);
            && RouteNameFor(env.naming, ingress, host) in r.recorded
            && (RouteNameFor(env.naming, ingress, host) in r.world.graph.httpRoutes <==>
                Committed(ingress, host, |ingress.rules|))
  {
    hide HandleRules;
    hide ValidSchedule;
    hide RoutesAreTranslations;
    hide DistinctRouteNames;
    var n, start := |ingress.rules|, IngressStart(w, ingress, annotations);
    EveryRuleIsRecorded(env, ingress, schedule, start, n);
    var i :| 0 <= i < n && ingress.rules[i].host == host;
    assert HandleIngress(env, ingress, schedule, w, annotations).recorded[i] == RouteNameFor(env.naming, ingress, host);
    if Committed(ingress, host, n) {
      GraphEntriesHold(env, ingress, schedule, start, n);
    } else {
      RecordedWithoutRoute(env, ingress, schedule, w, annotations, host);
    }
  }

  lemma RuleIsRecorded(env: Env, ingress: Ingress, schedule: Schedule, s: IngressRun, i: nat)
    requires i < |ingress.rules| && ValidSchedule(schedule, s.annotations.Keys)
    requires RoutesAreTranslations(env, ingress, s, i)
    ensures HandleRule(env, ingress, schedule, s, i).recorded
         == s.recorded + [RouteNameFor(env.naming, ingress, ingress.rules[i].host)]
  {
    hide PassEnd;
    hide RouteFor;
    RouteForHost(env, ingress, s, i);
  }

  lemma {:induction false} EveryRuleIsRecorded(env: Env, ingress: Ingress, schedule: Schedule, s: IngressRun, n: nat)
    requires n <= |ingress.rules| && ValidSchedule(schedule, s.annotations.Keys) && s.routes == map[]
    requires s.recorded == []
    ensures var r := HandleRules(env, ingress, schedule, s, n).recorded;
            |r| == n && forall i | 0 <= i < n :: r[i] == RouteNameFor(env.naming, ingress, ingress.rules[i].host)
  {
    hide HandleRule;
    hide ValidSchedule;
    hide RoutesAreTranslations;
    if n > 0 {
      EveryRuleIsRecorded(env, ingress, schedule, s, n - 1);
      TranslationsHold(env, ingress, schedule, s, n - 1);
      RuleIsRecorded(env, ingress, schedule, HandleRules(env, ingress, schedule, s, n - 1), n - 1);
    }
  }

  /** Different hosts, of one ingress or of two, get different route names, and none is the redirect's. */
  ghost predicate NamesApart(naming: Naming, inputs: map<NamespacedName, Input>, gatewayNamespace: string) {
    && (forall k | k in inputs :: DistinctRouteNames(naming, inputs[k].ingress))
    && (forall k, l | k in inputs && l in inputs && k != l ::
          NamesDisjoint(naming, inputs[k].ingress, inputs[l].ingress))
    && (forall k | k in inputs :: forall i | 0 <= i < |inputs[k].ingress.rules| ::
          RouteNameFor(naming, inputs[k].ingress, inputs[k].ingress.rules[i].host) != RedirectName(gatewayNamespace))
  }

  ghost predicate NamesDisjoint(naming: Naming, a: Ingress, b: Ingress) {
    forall i, j | 0 <= i < |a.rules| && 0 <= j < |b.rules| ::
      RouteNameFor(naming, a, a.rules[i].host) != RouteNameFor(naming, b, b.rules[j].host)
  }

  lemma {:induction false} RunKeepsName(
    env: Env, inputs: map<NamespacedName, Input>, schedules: NamespacedName -> Schedule, w: World,
    order: seq<NamespacedName>)
    requires ValidInput(inputs, schedules) && forall l | l in order :: l in inputs
    ensures HandleIngresses(env, inputs, schedules, w, order).world.gateway.name == w.gateway.name
  {
    hide HandleIngress;
    if order != [] {
      var init, last := order[..|order| - 1], order[|order| - 1];
      assert last in order;
      RunKeepsName(env, inputs, schedules, w, init);
      IngressKeepsForeign(env, inputs[last].ingress, schedules(last),
                          HandleIngresses(env, inputs, schedules, w, init).world,
                          inputs[last].annotations, w.gateway.name);
    }
  }

  lemma SameEntryMeansSame(naming: Naming, ingress: Ingress, g: Graph, h: Graph, host: string, request: string)
    requires SameEntry(g, h, RouteNameFor(naming, ingress, host))
    ensures SameBackend(naming, ingress, g, host, request) ==> SameBackend(naming, ingress, h, host, request)
  {
    hide PathRule;
    hide IngressMatches;
    hide GatewayChoice;
    hide HostPaths;
  }

  /** At the end of a run every host of every ingress still has the meaning it had. */
  lemma {:induction false} RunPreservesMeaning(
    env: Env, inputs: map<NamespacedName, Input>, schedules: NamespacedName -> Schedule, w: World,
    order: seq<NamespacedName>,
    k: NamespacedName, host: string, request: string)
    requires ValidInput(inputs, schedules) && (forall l | l in order :: l in inputs) && NoDuplicates(order)
    requires NamesApart(env.naming, inputs, w.gateway.name.namespace)
    requires k in order && Committed(inputs[k].ingress, host, |inputs[k].ingress.rules|)
    ensures SameBackend(env.naming, inputs[k].ingress, HandleIngresses(env, inputs, schedules, w, order).world.graph,
                        host, request)
  {
    hide HandleIngress;
    hide SameBackend;
    hide SameEntry;
    hide DistinctRouteNames;
    hide ValidSchedule;
    var init, last := order[..|order| - 1], order[|order| - 1];
    assert order == init + [last];
    var before, input := HandleIngresses(env, inputs, schedules, w, init).world, inputs[last];
    if k == last {
      MeaningPreserved(env, input.ingress, schedules(k), before, input.annotations, host, request);
    } else {
      RunPreservesMeaning(env, inputs, schedules, w, init, k, host, request);
      RunKeepsName(env, inputs, schedules, w, init);
      var name := RouteNameFor(env.naming, inputs[k].ingress, host);
      assert NamesDisjoint(env.naming, inputs[k].ingress, input.ingress);
      var i :| 0 <= i < |inputs[k].ingress.rules| && inputs[k].ingress.rules[i].host == host;
      IngressKeepsForeign(env, input.ingress, schedules(last), before, input.annotations, name);
      SameEntryMeansSame(env.naming, inputs[k].ingress, before.graph,
                         HandleIngress(env, input.ingress, schedules(last), before, input.annotations).world.graph,
                         host, request);
    }
  }

  /** The conversion keeps the meaning of every host of every ingress, whatever the map orders. */
  lemma ConvertPreservesMeaning(
    env: Env, options: Options, scrapedWAFID: string,
    inputs: map<NamespacedName, Input>, schedules: NamespacedName -> Schedule, listing: seq<NamespacedName>,
    k: NamespacedName, host: string, request: string)
    requires ValidInput(inputs, schedules) && Lists(listing, inputs.Keys)
    requires NamesApart(env.naming, inputs, GatewayNamespace(options, Sort(listing, NameLess)))
    requires k in inputs && Committed(inputs[k].ingress, host, |inputs[k].ingress.rules|)
    ensures SameBackend(env.naming, inputs[k].ingress,
                        Convert(env, options, scrapedWAFID, inputs, schedules, listing).world.graph, host, request)
  {
    hide HandleIngresses;
    hide SameBackend;
    hide NamesApart;
    hide ValidInput;
    hide Committed;
    hide NameLess;
    hide Sort;
    hide GatewayNamespace;
    NameLessIsStrictOrder();
    SortOfListing(listing, listing, inputs.Keys, NameLess);
    var sorted := Sort(listing, NameLess);
    RunPreservesMeaning(env, inputs, schedules, StartWorld(options, scrapedWAFID, sorted), sorted, k, host, request);
  }

  /** Where every path of a host has a service for a backend, with a port number or without a port name, the conversion
      keeps the meaning of all of them: the route of the host has one rule for each, and sends every request where the
      Ingress sends it. */
  lemma ConvertKeepsEveryPath(
    env: Env, options: Options, scrapedWAFID: string,
    inputs: map<NamespacedName, Input>, schedules: NamespacedName -> Schedule, listing: seq<NamespacedName>,
    k: NamespacedName, host: string, request: string)
    requires ValidInput(inputs, schedules) && Lists(listing, inputs.Keys)
    requires NamesApart(env.naming, inputs, GatewayNamespace(options, Sort(listing, NameLess)))
    requires k in inputs && Committed(inputs[k].ingress, host, |inputs[k].ingress.rules|)
    requires forall p | p in AllPaths(inputs[k].ingress, host, |inputs[k].ingress.rules|) ::
               p.backend.ServiceBackend? && (p.backend.portName == "" || p.backend.portNumber != 0)
    ensures var routes := Convert(env, options, scrapedWAFID, inputs, schedules, listing).world.graph.httpRoutes;
            var name := NamespacedName(k.namespace, env.naming.routeName(k.name, host));
            && name in routes
            && RoutesAs(routes[name].rules, AllPaths(inputs[k].ingress, host, |inputs[k].ingress.rules|), request)
  {
    hide Convert;
    hide NamesApart;
    hide Committed;
    hide RoutesAs;
    hide AllPaths;
    hide HostPaths;
    hide Sort;
    hide NameLess;
    hide GatewayNamespace;
    var ingress := inputs[k].ingress;
    ConvertPreservesMeaning(env, options, scrapedWAFID, inputs, schedules, listing, k, host, request);
    assert forall p | p in AllPaths(ingress, host, |ingress.rules|) :: !Dropped(p);
    NothingDropped(ingress, host, |ingress.rules|);
  }
}
