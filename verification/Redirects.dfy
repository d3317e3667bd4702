/** The redirect to HTTPS: made once in a run, for whatever value of the annotation. */
module Redirects {
  import opened Text
  import opened Ordering
  import opened Annotations
  import opened Resources
  import opened Gateways
  import opened Filters
  import opened RuleSets
  import opened Probes
  import opened BackendTLS
  import opened Handlers
  import opened Ingresses
  import opened Routing

  // ---------- One call ----------

  /** The handler never reads the value: the world it leaves is the same for all values, and a new one exactly when no
      redirect had been made. */
  lemma RedirectIgnoresValue(w: World, route: HTTPRoute, a: Annotation, b: Annotation)
    ensures HandleSSLRedirect(w, route, a).world == HandleSSLRedirect(w, route, b).world
    ensures HandleSSLRedirect(w, route, a).world == w <==> w.gateway.hasHTTPSRedirect
    ensures HandleSSLRedirect(w, route, a).world.gateway.hasHTTPSRedirect
  {
  }

  /** So the value "false" makes the redirect as well, and is reported as migrated. */
  lemma RedirectAtFalse(w: World, route: HTTPRoute)
    requires !w.gateway.hasHTTPSRedirect
    ensures var o := HandleSSLRedirect(w, route, NewAnnotation(RedirectKey(), "false"));
            var name := NamespacedName(w.gateway.name.namespace, "https-redirect");
            && name in o.world.graph.httpRoutes
            && o.world.graph.httpRoutes[name].rules[0].filters[0].requestRedirect
              == Some(RequestRedirect(Some("https")))
            && o.annotation.status == Completed && !o.failed
  {
  }

  // ---------- A whole run ----------

  function RedirectKey(): string {
    KeyOf(SSLRedirect)
  }

  lemma RedirectKeyIs(key: string)
    ensures IsRedirect(key) <==> key == RedirectKey()
  {
    hide HandlerFor;
    hide KeyOf;
    Dispatch(key, SSLRedirect);
  }

  /** The flag says whether the redirect route is in the graph, and that route hangs on the HTTP listener. */
  ghost predicate RedirectState(w: World) {
    var name := RedirectName(w.gateway.name.namespace);
    && (w.gateway.httpListener.Some? ==> w.gateway.httpListener.value == HTTP_LISTENER)
    && (w.gateway.hasHTTPSRedirect <==> name in w.graph.httpRoutes)
    && (w.gateway.hasHTTPSRedirect ==>
          w.gateway.httpListener.Some? && w.graph.httpRoutes[name] == RedirectRoute(w.gateway.name, HTTP_LISTENER_NAME))
  }

  /** A step that makes the redirect, or leaves it as it was. */
  ghost predicate RedirectStep(w: World, v: World, made: bool) {
    && v.gateway.name == w.gateway.name
    && v.gateway.hasHTTPSRedirect == (w.gateway.hasHTTPSRedirect || made)
  }

  lemma VisitRedirect(
    env: Env, ingress: Ingress, sections: set<string>, w: World, route: HTTPRoute, key: string, a: Annotation,
    orders: Orders)
    ensures var v := Visit(env, ingress, sections, w, route, key, a, orders).world;
            RedirectStep(w, v, key == RedirectKey()) && (RedirectState(w) ==> RedirectState(v))
  {
    hide HandlerFor;
    hide ParseInt;
    hide HandleRuleSet;
    hide HandleProbe;
    hide HandleProtocol;
    hide HostNames;
    hide Split;
    hide ApplyProfile;
    hide ApplyOp;
    hide KeyOf;
    RedirectKeyIs(key);
    if key != LAST_APPLIED && HandlerFor(key).Some? {
      match HandlerFor(key).value {
        case HostnameExtension =>
          ExtendKeepsRouting(env.naming, ingress, sections, w, route, HostNames(Split(a.value, ',')));
        case _ =>
      }
    }
  }

  lemma {:induction false} VisitAllRedirect(
    env: Env, ingress: Ingress, sections: set<string>, schedule: Schedule, i: nat, p: Pass, order: seq<string>)
    requires forall k | k in order :: k in p.annotations
    ensures var v := VisitAll(env, ingress, sections, schedule, i, p, order).world;
            RedirectStep(p.world, v, RedirectKey() in order) && (RedirectState(p.world) ==> RedirectState(v))
  {
    hide Visit;
    hide RedirectState;
    hide RedirectKey;
    if order != [] {
      var init, last := order[..|order| - 1], order[|order| - 1];
      assert order == init + [last];
      VisitAllRedirect(env, ingress, sections, schedule, i, p, init);
      var q := VisitAll(env, ingress, sections, schedule, i, p, init);
      VisitRedirect(env, ingress, sections, q.world, q.route, last, q.annotations[last],
                    OrdersAt(schedule, i, last, q.world, q.route));
    }
  }

  lemma NewRouteKeepsRedirect(naming: Naming, w: World, ingress: Ingress, host: string)
    ensures var v := NewRoute(naming, w, ingress, host).0;
            RedirectStep(w, v, false) && (RedirectState(w) ==> RedirectState(v))
  {
    hide ChosenSecret;
    hide ListenerFor;
    hide WithGrant;
    NewRouteIsEmpty(naming, w, ingress, host);
  }

  /** A rule with paths makes the redirect if the annotation is there. */
  lemma RuleRedirect(env: Env, ingress: Ingress, schedule: Schedule, s: IngressRun, i: nat)
    requires i < |ingress.rules| && ValidSchedule(schedule, s.annotations.Keys)
    requires RoutesAreTranslations(env, ingress, s, i)
    ensures var v := HandleRule(env, ingress, schedule, s, i).world;
            && RedirectStep(s.world, v, ingress.rules[i].http.Some? && RedirectKey() in s.annotations)
            && (RedirectState(s.world)
                && RouteNameFor(env.naming, ingress, ingress.rules[i].host)
                   != RedirectName(s.world.gateway.name.namespace) ==>
                  RedirectState(v))
  {
    hide NewRoute;
    hide VisitAll;
    hide TranslatePaths;
    hide RedirectKey;
    RouteForHost(env, ingress, s, i);
    hide RoutesAreTranslations;
    NewRouteKeepsRedirect(env.naming, s.world, ingress, ingress.rules[i].host);
    if ingress.rules[i].http.Some? {
      var start, order := PassStart(env.naming, ingress, s, i), schedule.annotations(i);
      assert Lists(order, s.annotations.Keys);
      VisitAllRedirect(env, ingress, SectionsOf(start.route.parentRefs), schedule, i, start, order);
      VisitAllKeepsRouting(env, ingress, SectionsOf(start.route.parentRefs), schedule, i, start, order);
    }
  }

  /** No route of the ingress has the name of the redirect. */
  ghost predicate NoRouteIsRedirect(naming: Naming, ingress: Ingress, gatewayNamespace: string) {
    forall i | 0 <= i < |ingress.rules| ::
      RouteNameFor(naming, ingress, ingress.rules[i].host) != NamespacedName(gatewayNamespace, "https-redirect")
  }

  lemma {:induction false} RulesRedirect(env: Env, ingress: Ingress, schedule: Schedule, s: IngressRun, n: nat)
    requires n <= |ingress.rules| && ValidSchedule(schedule, s.annotations.Keys) && s.routes == map[]
    ensures var v := HandleRules(env, ingress, schedule, s, n).world;
            && RedirectStep(s.world, v, HasPaths(ingress, n) && RedirectKey() in s.annotations)
            && (RedirectState(s.world) && NoRouteIsRedirect(env.naming, ingress, s.world.gateway.name.namespace) ==>
                  RedirectState(v))
  {
    hide HandleRule;
    hide ValidSchedule;
    hide RoutesAreTranslations;
    hide RedirectState;
    hide RedirectKey;
    if n > 0 {
      RulesRedirect(env, ingress, schedule, s, n - 1);
      TranslationsHold(env, ingress, schedule, s, n - 1);
      RuleRedirect(env, ingress, schedule, HandleRules(env, ingress, schedule, s, n - 1), n - 1);
      assert HasPaths(ingress, n) <==> HasPaths(ingress, n - 1) || ingress.rules[n - 1].http.Some?;
    }
  }

  /** An ingress asks for the redirect: it carries the annotation, and a rule with paths on which it is visited. */
  ghost predicate AsksRedirect(input: Input) {
    && AppGW("ssl-redirect") in input.annotations
    && exists i | 0 <= i < |input.ingress.rules| :: input.ingress.rules[i].http.Some?
  }

  /** The route that sends every plain request to HTTPS: on the HTTP listener, for all hosts and all paths. */
  function HTTPSRedirect(gateway: NamespacedName): HTTPRoute {
    HTTPRoute(
      NamespacedName(gateway.namespace, "https-redirect"), [],
      [ParentReference(
         Some("gateway.networking.k8s.io"), Some("Gateway"), gateway.name, Some(gateway.namespace), Some("http"))],
      [RouteRule(
         [HTTPRouteMatch(Some(HTTPPathMatch(Some(PathPrefix), Some("/"))))],
         [Filter(RequestRedirectType, None, None, None, Some(RequestRedirect(Some("https"))))], [])])
  }

  lemma IngressRedirect(env: Env, input: Input, schedule: Schedule, w: World)
    requires ValidSchedule(schedule, input.annotations.Keys)
    ensures var v := HandleIngress(env, input.ingress, schedule, w, input.annotations).world;
            && RedirectStep(w, v, AsksRedirect(input))
            && (RedirectState(w) && NoRouteIsRedirect(env.naming, input.ingress, w.gateway.name.namespace) ==>
                  RedirectState(v))
  {
    hide HandleRules;
    hide HasPaths;
    hide AppGW;
    hide KeyOf;
    Keys();
    SomeRuleHasPaths(input.ingress, |input.ingress.rules|);
    GrantsOnly(w, input.ingress, |input.ingress.tls|);
    RulesRedirect(env, input.ingress, schedule, IngressStart(w, input.ingress, input.annotations),
                  |input.ingress.rules|);
  }

  lemma {:induction false} RunRedirect(
    env: Env, inputs: map<NamespacedName, Input>, schedules: NamespacedName -> Schedule, w: World,
    order: seq<NamespacedName>)
    requires ValidInput(inputs, schedules) && forall k | k in order :: k in inputs
    ensures var v := HandleIngresses(env, inputs, schedules, w, order).world;
            && RedirectStep(w, v, exists k | k in order :: AsksRedirect(inputs[k]))
            && (RedirectState(w)
                && (forall k | k in order ::
                      NoRouteIsRedirect(env.naming, inputs[k].ingress, w.gateway.name.namespace)) ==>
                  RedirectState(v))
  {
    hide HandleIngress;
    hide RedirectState;
    hide AsksRedirect;
    hide NoRouteIsRedirect;
    hide ValidSchedule;
    if order != [] {
      var init, last := order[..|order| - 1], order[|order| - 1];
      assert order == init + [last] && last in order;
      RunRedirect(env, inputs, schedules, w, init);
      IngressRedirect(env, inputs[last], schedules(last), HandleIngresses(env, inputs, schedules, w, init).world);
    }
  }

  /** After a conversion the redirect is made if and only if some ingress with paths carries the annotation, whatever
      its value. Unless an ingress has a route of that name itself, the redirect route is then in the graph, and only
      then. */
  lemma RedirectMadeIff(
    env: Env, options: Options, scrapedWAFID: string,
    inputs: map<NamespacedName, Input>, schedules: NamespacedName -> Schedule, listing: seq<NamespacedName>)
    requires ValidInput(inputs, schedules) && Lists(listing, inputs.Keys)
    ensures var w := Convert(env, options, scrapedWAFID, inputs, schedules, listing).world;
            var asked := exists k | k in inputs :: AsksRedirect(inputs[k]);
            var name := NamespacedName(w.gateway.name.namespace, "https-redirect");
            && (w.gateway.hasHTTPSRedirect <==> asked)
            && ((forall k | k in inputs ::
                   NoRouteIsRedirect(env.naming, inputs[k].ingress, w.gateway.name.namespace)) ==>
                  && (name in w.graph.httpRoutes <==> asked)
                  && (asked ==> w.graph.httpRoutes[name] == HTTPSRedirect(w.gateway.name)))
  {
    hide HandleIngresses;
    hide AsksRedirect;
    hide NoRouteIsRedirect;
    hide NameLess;
    hide ValidSchedule;
    hide Sort;
    NameLessIsStrictOrder();
    SortOfListing(listing, listing, inputs.Keys, NameLess);
    var sorted := Sort(listing, NameLess);
    ListedIn(sorted, inputs.Keys);
    RunRedirect(env, inputs, schedules, StartWorld(options, scrapedWAFID, sorted), sorted);
  }
}
