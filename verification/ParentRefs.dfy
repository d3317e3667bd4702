/** The parent references of a finished route: those it must have, and no others. */
module ParentRefs {
  import opened Text
  import opened Ordering
  import opened Annotations
  import opened Resources
  import opened Gateways
  import opened Filters
  import opened RuleSets
  import opened Probes
  import opened BackendTLS
  import opened Handlers
  import opened Ingresses
  import opened Routing
  import opened Integrity
  import opened Hostnames
  import opened RunMeaning

  /** The parent references a route is made with. */
  function OwnRefs(naming: Naming, gateway: NamespacedName, ingress: Ingress, host: string): seq<ParentReference> {
    var namespace := ingress.name.namespace;
    if ingress.tls == [] then [OwnParentRef(gateway, namespace, HTTP_LISTENER_NAME)]
    else if ChosenSecret(ingress.tls, namespace, host) == NO_SECRET then []
    else [OwnParentRef(gateway, namespace, HTTPSListenerName(naming, host))]
  }

  /** The host has a listener that knows the secret. */
  ghost predicate HasListener(g: GatewayState, host: string, secret: NamespacedName) {
    HTTPSKey(host) in g.httpsListeners && secret in g.httpsListeners[HTTPSKey(host)].secrets
  }

  /** The listener of the route's own host is there, with the chosen secret. */
  ghost predicate HasOwnListener(g: GatewayState, ingress: Ingress, host: string) {
    var secret := ChosenSecret(ingress.tls, ingress.name.namespace, host);
    if ingress.tls == [] then g.httpListener == Some(HTTP_LISTENER)
    else secret != NO_SECRET ==> HasListener(g, host, secret)
  }

  /** The reference is to the listener of a host of the extension for which a TLS entry names a secret. */
  ghost predicate IsExtensionRef(
    naming: Naming, gateway: NamespacedName, ingress: Ingress, extension: seq<string>, r: ParentReference)
  {
    exists e :: e in extension && HostSecret(ingress.tls, e).Some? &&
                r == HostParentRef(gateway, HTTPSListenerName(naming, e))
  }

  /** References are only added, and only to listeners of the extension. */
  ghost predicate Added(
    naming: Naming, gateway: NamespacedName, ingress: Ingress, extension: seq<string>,
    before: seq<ParentReference>, after: seq<ParentReference>)
  {
    && before <= after
    && forall r | r in after[|before|..] :: IsExtensionRef(naming, gateway, ingress, extension, r)
  }

  /** Every host of the extension with a secret is referred to, and its listener knows the secret. */
  ghost predicate Covered(
    naming: Naming, ingress: Ingress, extension: seq<string>, g: GatewayState, refs: seq<ParentReference>)
  {
    forall e | e in extension && HostSecret(ingress.tls, e).Some? ::
      && HTTPSListenerName(naming, e) in SectionsOf(refs)
      && HasListener(g, e, NamespacedName(ingress.name.namespace, HostSecret(ingress.tls, e).value))
  }

  /** Listeners have the names of their hosts. */
  ghost predicate Named(naming: Naming, g: GatewayState) {
    && (g.httpListener.Some? ==> g.httpListener.value == HTTP_LISTENER)
    && (forall k | k in g.httpsListeners :: g.httpsListeners[k].listener.name == HTTPSListenerName(naming, k.hostname))
  }

  lemma NamedIfSafe(naming: Naming, w: World, pending: set<NamespacedName>)
    requires Safe(naming, w, pending)
    ensures Named(naming, w.gateway)
  {
    hide PoliciesOk;
    hide TargetsOk;
    hide RoutesOk;
  }

  lemma MoreSections(a: seq<ParentReference>, b: seq<ParentReference>)
    requires a <= b
    ensures SectionsOf(a) <= SectionsOf(b)
  {
    assert forall r | r in a :: r in b;
  }

  lemma CoveredStays(
    naming: Naming, ingress: Ingress, extension: seq<string>, g: GatewayState, h: GatewayState,
    a: seq<ParentReference>, b: seq<ParentReference>)
    requires Covered(naming, ingress, extension, g, a) && Grows(g, h) && a <= b
    ensures Covered(naming, ingress, extension, h, b)
  {
    hide HostSecret;
    MoreSections(a, b);
    hide SectionsOf;
  }

  lemma AddedTransitively(
    naming: Naming, gateway: NamespacedName, ingress: Ingress, extension: seq<string>,
    a: seq<ParentReference>, b: seq<ParentReference>, c: seq<ParentReference>)
    requires Added(naming, gateway, ingress, extension, a, b) && Added(naming, gateway, ingress, extension, b, c)
    ensures Added(naming, gateway, ingress, extension, a, c)
  {
    hide IsExtensionRef;
    assert c[|a|..] == b[|a|..] + c[|b|..];
  }

  // ---------- The hostname extension ----------

  lemma EnsuredListener(naming: Naming, w: World, host: string, secret: NamespacedName)
    requires Named(naming, w.gateway)
    ensures var v := EnsureHTTPS(naming, w, host, secret);
            && Named(naming, v.gateway) && v.gateway.name == w.gateway.name && Grows(w.gateway, v.gateway)
            && HasListener(v.gateway, host, secret)
            && ListenerFor(naming, w.gateway, host, secret).listener.name == HTTPSListenerName(naming, host)
  {
    EnsureHTTPSGrows(naming, w, host, secret);
  }

  /** One host of the extension. */
  lemma ExtendOneRefs(naming: Naming, ingress: Ingress, sections: set<string>, w: World, route: HTTPRoute, host: string)
    requires Named(naming, w.gateway) && sections <= SectionsOf(route.parentRefs)
    ensures var (v, r) := ExtendListener(naming, ingress, sections, w, route, host);
            && Named(naming, v.gateway) && v.gateway.name == w.gateway.name && Grows(w.gateway, v.gateway)
            && Added(naming, w.gateway.name, ingress, [host], route.parentRefs, r.parentRefs)
            && Covered(naming, ingress, [host], v.gateway, r.parentRefs)
  {
    hide ListenerFor;
    hide EnsureHTTPS;
    hide Grows;
    hide Named;
    hide HasListener;
    hide HostSecret;
    StillGrows(w.gateway);
    if HostSecret(ingress.tls, host).Some? {
      var secret := NamespacedName(ingress.name.namespace, HostSecret(ingress.tls, host).value);
      EnsuredListener(naming, w, host, secret);
      var ref := HostParentRef(w.gateway.name, HTTPSListenerName(naming, host));
      SectionsSnoc(route.parentRefs, ref);
      assert (route.parentRefs + [ref])[|route.parentRefs|..] == [ref];
      assert host in [host] && IsExtensionRef(naming, w.gateway.name, ingress, [host], ref);
    }
  }

  lemma AddedForMore(
    naming: Naming, gateway: NamespacedName, ingress: Ingress, some: seq<string>, more: seq<string>,
    before: seq<ParentReference>, after: seq<ParentReference>)
    requires Added(naming, gateway, ingress, some, before, after) && forall e | e in some :: e in more
    ensures Added(naming, gateway, ingress, more, before, after)
  {
    hide HostSecret;
    forall r | r in after[|before|..] ensures IsExtensionRef(naming, gateway, ingress, more, r) {
      assert IsExtensionRef(naming, gateway, ingress, some, r);
    }
  }

  lemma {:induction false} ExtendRefs(
    naming: Naming, ingress: Ingress, sections: set<string>, w: World, route: HTTPRoute, hosts: seq<string>)
    requires Named(naming, w.gateway) && sections <= SectionsOf(route.parentRefs)
    ensures var (v, r) := ExtendListeners(naming, ingress, sections, w, route, hosts);
            && Named(naming, v.gateway) && v.gateway.name == w.gateway.name && Grows(w.gateway, v.gateway)
            && Added(naming, w.gateway.name, ingress, hosts, route.parentRefs, r.parentRefs)
            && Covered(naming, ingress, hosts, v.gateway, r.parentRefs)
  {
    hide Named;
    hide Grows;
    hide ExtendListener;
    hide HostSecret;
    hide HasListener;
    hide SectionsOf;
    if hosts == [] {
      StillGrows(w.gateway);
    } else {
      var init, last := hosts[..|hosts| - 1], hosts[|hosts| - 1];
      assert hosts == init + [last];
      ExtendRefs(naming, ingress, sections, w, route, init);
      var (w1, route1) := ExtendListeners(naming, ingress, sections, w, route, init);
      MoreSections(route.parentRefs, route1.parentRefs);
      ExtendOneRefs(naming, ingress, sections, w1, route1, last);
      var (v, r) := ExtendListener(naming, ingress, sections, w1, route1, last);
      AddedForMore(naming, w.gateway.name, ingress, init, hosts, route.parentRefs, route1.parentRefs);
      AddedForMore(naming, w.gateway.name, ingress, [last], hosts, route1.parentRefs, r.parentRefs);
      hide Added;
      AddedTransitively(naming, w.gateway.name, ingress, hosts, route.parentRefs, route1.parentRefs, r.parentRefs);
      GrowsTransitively(w.gateway, w1.gateway, v.gateway);
      assert route1.parentRefs <= r.parentRefs by {
        AddedIsPrefix(naming, w.gateway.name, ingress, [last], route1.parentRefs, r.parentRefs);
      }
      CoveredStays(naming, ingress, init, w1.gateway, v.gateway, route1.parentRefs, r.parentRefs);
    }
  }

  lemma AddedIsPrefix(
    naming: Naming, gateway: NamespacedName, ingress: Ingress, extension: seq<string>,
    before: seq<ParentReference>, after: seq<ParentReference>)
    requires Added(naming, gateway, ingress, extension, before, after)
    ensures before <= after
  {
  }

  // ---------- One annotation ----------

  /** What a pass knows of its route: the references grow by the extension alone, and all of it once it was visited. */
  ghost predicate RefsAfter(
    naming: Naming, ingress: Ingress, extension: seq<string>, visited: bool, gateway: NamespacedName,
    before: seq<ParentReference>, g: GatewayState, after: seq<ParentReference>)
  {
    && Added(naming, gateway, ingress, extension, before, after)
    && (visited ==> Covered(naming, ingress, extension, g, after))
  }

  /** Only the hostname-extension handler touches the references. */
  lemma VisitRefs(
    env: Env, ingress: Ingress, sections: set<string>, w: World, route: HTTPRoute, key: string, a: Annotation,
    orders: Orders)
    requires Named(env.naming, w.gateway) && sections <= SectionsOf(route.parentRefs)
    ensures var o := Visit(env, ingress, sections, w, route, key, a, orders);
            && (key != ExtensionKey() ==> o.route.parentRefs == route.parentRefs)
            && (key == ExtensionKey() ==>
                  RefsAfter(env.naming, ingress, HostNames(Split(a.value, ',')), true, w.gateway.name, route.parentRefs,
                            o.world.gateway, o.route.parentRefs))
  {
    hide HandlerFor;
    hide KeyOf;
    hide ApplyOp;
    hide ParseInt;
    hide HandleRuleSet;
    hide HandleProbe;
    hide HandleProtocol;
    hide HostNames;
    hide Split;
    hide ApplyProfile;
    hide ExtendListeners;
    hide Added;
    hide Covered;
    hide Named;
    hide SectionsOf;
    hide Grows;
    Dispatch(key, HostnameExtension);
    if key != LAST_APPLIED && HandlerFor(key).Some? {
      match HandlerFor(key).value {
        case HostnameExtension => ExtendRefs(env.naming, ingress, sections, w, route, HostNames(Split(a.value, ',')));
        case _ =>
      }
    }
  }

  lemma {:induction false} VisitAllRefs(
    env: Env, ingress: Ingress, sections: set<string>, schedule: Schedule, i: nat, p: Pass, order: seq<string>)
    requires SafeWith(env.naming, p.world, p.route) && sections <= SectionsOf(p.route.parentRefs)
    requires NoDuplicates(order) && forall k | k in order :: k in p.annotations
    ensures var r := VisitAll(env, ingress, sections, schedule, i, p, order);
            && RefsAfter(env.naming, ingress, Extension(p.annotations), ExtensionKey() in order, p.world.gateway.name,
                         p.route.parentRefs, r.world.gateway, r.route.parentRefs)
  {
    hide Visit;
    hide ExtensionKey;
    hide HostNames;
    hide Split;
    hide SafeWith;
    hide Grows;
    hide Added;
    hide Covered;
    hide Named;
    hide SectionsOf;
    if order == [] {
      AddedNothing(env.naming, p.world.gateway.name, ingress, Extension(p.annotations), p.route.parentRefs);
    } else {
      var init, last := order[..|order| - 1], order[|order| - 1];
      assert order == init + [last];
      var q := VisitAll(env, ingress, sections, schedule, i, p, init);
      VisitAllRefs(env, ingress, sections, schedule, i, p, init);
      VisitAllHostnames(env, ingress, sections, schedule, i, p, init);
      VisitAllKeeps(env, ingress, sections, schedule, i, p, init);
      GrowthKeepsName(p.world.gateway, q.world.gateway);
      RefsOfOneMore(env, ingress, sections, schedule, i, p, q, last, ExtensionKey() in init);
    }
  }

  lemma AddedNothing(
    naming: Naming, gateway: NamespacedName, ingress: Ingress, extension: seq<string>, refs: seq<ParentReference>)
    ensures Added(naming, gateway, ingress, extension, refs, refs)
  {
  }

  /** One more annotation after some. */
  lemma RefsOfOneMore(
    env: Env, ingress: Ingress, sections: set<string>, schedule: Schedule, i: nat, p: Pass, q: Pass, key: string,
    visited: bool)
    requires key in p.annotations && key in q.annotations && q.annotations[key].value == p.annotations[key].value
    requires SafeWith(env.naming, q.world, q.route) && q.world.gateway.name == p.world.gateway.name
    requires sections <= SectionsOf(p.route.parentRefs)
    requires RefsAfter(env.naming, ingress, Extension(p.annotations), visited, p.world.gateway.name,
                       p.route.parentRefs, q.world.gateway, q.route.parentRefs)
    ensures var r := VisitOne(env, ingress, sections, schedule, i, q, key);
            RefsAfter(env.naming, ingress, Extension(p.annotations),
                      visited || key == ExtensionKey(), p.world.gateway.name,
                      p.route.parentRefs, r.world.gateway, r.route.parentRefs)
  {
    hide Visit;
    hide ExtensionKey;
    hide HostNames;
    hide Split;
    hide Grows;
    hide Added;
    hide Covered;
    hide Named;
    hide SectionsOf;
    hide Safe;
    var naming, gateway, extension := env.naming, p.world.gateway.name, Extension(p.annotations);
    var orders := OrdersAt(schedule, i, key, q.world, q.route);
    var o := Visit(env, ingress, sections, q.world, q.route, key, q.annotations[key], orders);
    AddedIsPrefix(naming, gateway, ingress, extension, p.route.parentRefs, q.route.parentRefs);
    MoreSections(p.route.parentRefs, q.route.parentRefs);
    NamedIfSafe(naming, q.world, {q.route.name});
    VisitRefs(env, ingress, sections, q.world, q.route, key, q.annotations[key], orders);
    VisitKeeps(env, ingress, sections, q.world, q.route, key, q.annotations[key], orders);
    if key == ExtensionKey() {
      AddedTransitively(naming, gateway, ingress, extension, p.route.parentRefs, q.route.parentRefs,
                        o.route.parentRefs);
    } else if visited {
      CoveredStays(naming, ingress, extension, q.world.gateway, o.world.gateway, q.route.parentRefs,
                   o.route.parentRefs);
    }
  }

  // ---------- One ingress ----------

  /** The references of a route: its own, then some to listeners of the extension; all of them after a pass. */
  ghost predicate RefsOk(
    naming: Naming, ingress: Ingress, extension: seq<string>, g: GatewayState, host: string, passed: bool,
    refs: seq<ParentReference>)
  {
    && HasOwnListener(g, ingress, host)
    && RefsAfter(naming, ingress, extension, passed, g.name, OwnRefs(naming, g.name, ingress, host), g, refs)
  }

  lemma RefsStayOk(
    naming: Naming, ingress: Ingress, extension: seq<string>, g: GatewayState, h: GatewayState, host: string,
    passed: bool,
    refs: seq<ParentReference>)
    requires RefsOk(naming, ingress, extension, g, host, passed, refs) && Grows(g, h)
    ensures RefsOk(naming, ingress, extension, h, host, passed, refs)
  {
    hide Added;
    hide Covered;
    hide OwnRefs;
    hide ChosenSecret;
    if passed {
      CoveredStays(naming, ingress, extension, g, h, refs, refs);
    }
  }

  lemma NewRouteRefs(naming: Naming, w: World, ingress: Ingress, host: string, extension: seq<string>)
    requires Named(naming, w.gateway)
    ensures var (v, route) := NewRoute(naming, w, ingress, host);
            && RefsOk(naming, ingress, extension, v.gateway, host, false, route.parentRefs)
            && Grows(w.gateway, v.gateway)
  {
    hide ListenerFor;
    hide EnsureHTTPS;
    hide Grows;
    hide HasListener;
    hide ChosenSecret;
    hide Added;
    var (v, route) := NewRoute(naming, w, ingress, host);
    var secret := ChosenSecret(ingress.tls, ingress.name.namespace, host);
    StillGrows(w.gateway);
    EnsuredListener(naming, w, host, secret);
    EnsureHTTPGrows(w.gateway);
    AddedNothing(naming, v.gateway.name, ingress, extension, route.parentRefs);
  }

  lemma EnsureHTTPGrows(g: GatewayState)
    ensures Grows(g, EnsureHTTP(g))
  {
  }

  ghost predicate RefsSoFar(naming: Naming, ingress: Ingress, extension: seq<string>, s: IngressRun, n: nat)
    requires n <= |ingress.rules|
  {
    forall h | h in s.routes ::
      RefsOk(naming, ingress, extension, s.world.gateway, h, Committed(ingress, h, n), s.routes[h].parentRefs)
  }

  /** The route of a rule's host at the start of the rule. */
  lemma RouteRefs(env: Env, ingress: Ingress, extension: seq<string>, s: IngressRun, i: nat)
    requires i < |ingress.rules| && RunSafe(env.naming, s) && RefsSoFar(env.naming, ingress, extension, s, i)
    ensures var host := ingress.rules[i].host;
            var (w, route) := RouteFor(env.naming, ingress, s, host);
            && RefsOk(env.naming, ingress, extension, w.gateway, host,
                      host in s.routes && Committed(ingress, host, i), route.parentRefs)
            && Grows(s.world.gateway, w.gateway)
            && Safe(env.naming, w, {}) && ParentsOk(w.gateway, route)
  {
    hide NewRoute;
    hide RefsOk;
    hide Committed;
    hide ParentsOk;
    hide Safe;
    hide Grows;
    hide Named;
    var host := ingress.rules[i].host;
    NamedIfSafe(env.naming, s.world, {});
    StillGrows(s.world.gateway);
    NewRouteRefs(env.naming, s.world, ingress, host, extension);
    NewRouteKeeps(env.naming, s.world, ingress, host);
  }

  /** The route at the end of a pass. */
  lemma PassRefs(env: Env, ingress: Ingress, schedule: Schedule, s: IngressRun, i: nat)
    requires i < |ingress.rules| && ingress.rules[i].http.Some? && ValidSchedule(schedule, s.annotations.Keys)
    requires var (w, route) := RouteFor(env.naming, ingress, s, ingress.rules[i].host);
             Safe(env.naming, w, {}) && ParentsOk(w.gateway, route)
    ensures var (w, route) := RouteFor(env.naming, ingress, s, ingress.rules[i].host);
            var p := PassEnd(env, ingress, schedule, s, i);
            && RefsAfter(env.naming, ingress, Extension(s.annotations), true, w.gateway.name, route.parentRefs,
                         p.world.gateway, p.route.parentRefs)
            && Grows(w.gateway, p.world.gateway)
            && SameValues(s.annotations, p.annotations)
  {
    hide VisitAll;
    hide RouteFor;
    hide TranslatePaths;
    hide ExtensionKey;
    hide Safe;
    hide Grows;
    hide Added;
    hide Covered;
    hide ParentsOk;
    var (w, route) := RouteFor(env.naming, ingress, s, ingress.rules[i].host);
    var start, order := PassStart(env.naming, ingress, s, i), schedule.annotations(i);
    assert Lists(order, s.annotations.Keys);
    MorePending(env.naming, w, {route.name});
    SameParents(w.gateway);
    var sections := SectionsOf(start.route.parentRefs);
    VisitAllKeeps(env, ingress, sections, schedule, i, start, order);
    VisitAllHostnames(env, ingress, sections, schedule, i, start, order);
    VisitAllRefs(env, ingress, sections, schedule, i, start, order);
    if ExtensionKey() !in order {
      NothingToCover(env.naming, ingress, PassEnd(env, ingress, schedule, s, i).world.gateway,
                     PassEnd(env, ingress, schedule, s, i).route.parentRefs);
    }
  }

  lemma NothingToCover(naming: Naming, ingress: Ingress, g: GatewayState, refs: seq<ParentReference>)
    ensures Covered(naming, ingress, [], g, refs)
  {
  }

  /** The pass completes the references of its own route. */
  lemma PassCompletes(
    naming: Naming, ingress: Ingress, extension: seq<string>, g: GatewayState, h: GatewayState, host: string,
    passed: bool,
    before: seq<ParentReference>, after: seq<ParentReference>)
    requires RefsOk(naming, ingress, extension, g, host, passed, before) && Grows(g, h)
    requires RefsAfter(naming, ingress, extension, true, g.name, before, h, after)
    ensures RefsOk(naming, ingress, extension, h, host, true, after)
  {
    hide Added;
    hide Covered;
    hide OwnRefs;
    hide ChosenSecret;
    AddedTransitively(naming, g.name, ingress, extension, OwnRefs(naming, g.name, ingress, host), before, after);
  }

  lemma RuleRefs(env: Env, ingress: Ingress, schedule: Schedule, extension: seq<string>, s: IngressRun, i: nat)
    requires i < |ingress.rules| && ValidSchedule(schedule, s.annotations.Keys) && RunSafe(env.naming, s)
    requires RoutesAreTranslations(env, ingress, s, i)
    requires Extension(s.annotations) == extension && RefsSoFar(env.naming, ingress, extension, s, i)
    ensures var r := HandleRule(env, ingress, schedule, s, i);
            RefsSoFar(env.naming, ingress, extension, r, i + 1) && Extension(r.annotations) == extension
  {
    hide PassEnd;
    hide RouteFor;
    hide HandleRule;
    hide RefsOk;
    hide RefsAfter;
    hide RunSafe;
    hide Safe;
    hide ParentsOk;
    hide Grows;
    hide ExtensionKey;
    hide HostNames;
    hide Split;
    hide ValidSchedule;
    var host := ingress.rules[i].host;
    var (w, route) := RouteFor(env.naming, ingress, s, host);
    var r := HandleRule(env, ingress, schedule, s, i);
    RouteRefs(env, ingress, extension, s, i);
    RouteForHost(env, ingress, s, i);
    SeenBeforeCommitted(ingress, i);
    hide RoutesAreTranslations;
    RuleKeeps(env, ingress, schedule, s, i);
    if ingress.rules[i].http.Some? {
      MigratedRule(env, ingress, schedule, s, i, w, route);
      PassRefs(env, ingress, schedule, s, i);
      var p := PassEnd(env, ingress, schedule, s, i);
      PassCompletes(env.naming, ingress, extension, w.gateway, p.world.gateway, host,
                    host in s.routes && Committed(ingress, host, i), route.parentRefs, p.route.parentRefs);
    } else {
      PathlessRule(env, ingress, schedule, s, i, w, route);
    }
    forall h | h in s.routes && h != host
      ensures RefsOk(env.naming, ingress, extension, r.world.gateway, h, Committed(ingress, h, i + 1),
                     s.routes[h].parentRefs)
    {
      RefsStayOk(env.naming, ingress, extension, s.world.gateway, r.world.gateway, h, Committed(ingress, h, i),
                 s.routes[h].parentRefs);
    }
  }

  lemma SeenBeforeCommitted(ingress: Ingress, i: nat)
    requires i < |ingress.rules|
    ensures forall h :: Committed(ingress, h, i) ==> Seen(ingress, h, i)
    ensures forall h :: Committed(ingress, h, i + 1) <==>
                        Committed(ingress, h, i) || (h == ingress.rules[i].host && ingress.rules[i].http.Some?)
  {
    forall h | Committed(ingress, h, i + 1)
      ensures Committed(ingress, h, i) || (h == ingress.rules[i].host && ingress.rules[i].http.Some?)
    {
      var j :| 0 <= j < i + 1 && ingress.rules[j].host == h && ingress.rules[j].http.Some?;
    }
    if ingress.rules[i].http.Some? {
      assert Committed(ingress, ingress.rules[i].host, i + 1);
    }
    forall h | Committed(ingress, h, i) ensures Committed(ingress, h, i + 1) {
      var j :| 0 <= j < i && ingress.rules[j].host == h && ingress.rules[j].http.Some?;
    }
  }

  lemma {:induction false} RulesRefs(env: Env, ingress: Ingress, schedule: Schedule, s: IngressRun, n: nat)
    requires n <= |ingress.rules| && ValidSchedule(schedule, s.annotations.Keys) && RunSafe(env.naming, s)
    requires s.routes == map[]
    ensures var r := HandleRules(env, ingress, schedule, s, n);
            && RefsSoFar(env.naming, ingress, Extension(s.annotations), r, n)
            && Extension(r.annotations) == Extension(s.annotations)
  {
    hide HandleRule;
    hide RunSafe;
    hide Grows;
    hide RefsOk;
    hide Extension;
    hide ValidSchedule;
    hide RoutesAreTranslations;
    if n > 0 {
      RulesRefs(env, ingress, schedule, s, n - 1);
      RulesKeep(env, ingress, schedule, s, n - 1);
      TranslationsHold(env, ingress, schedule, s, n - 1);
      RuleRefs(env, ingress, schedule, Extension(s.annotations), HandleRules(env, ingress, schedule, s, n - 1), n - 1);
    }
  }

  /** The route of a host in the graph has all its parent references: its own first, to the HTTP listener without TLS
      and else to the listener of its host with the chosen secret, if there is one; then only references to listeners of
      extended hosts with a secret, and one at least for each of them. */
  ghost predicate ParentsComplete(
    naming: Naming, ingress: Ingress, extension: seq<string>, w: World, host: string)
  {
    var name := RouteNameFor(naming, ingress, host);
    && name in w.graph.httpRoutes
    && RefsOk(naming, ingress, extension, w.gateway, host, true, w.graph.httpRoutes[name].parentRefs)
  }

  lemma IngressCompletesParents(
    env: Env, ingress: Ingress, schedule: Schedule, w: World, annotations: map<string, Annotation>, host: string)
    requires ValidSchedule(schedule, annotations.Keys) && Safe(env.naming, w, {})
    requires DistinctRouteNames(env.naming, ingress) && Committed(ingress, host, |ingress.rules|)
    ensures ParentsComplete(env.naming, ingress, Extension(annotations),
                            HandleIngress(env, ingress, schedule, w, annotations).world, host)
  {
    hide HandleRules;
    hide RefsOk;
    hide Safe;
    hide DistinctRouteNames;
    hide ValidSchedule;
    hide Committed;
    hide RoutesAreTranslations;
    hide Extension;
    var n, start := |ingress.rules|, IngressStart(w, ingress, annotations);
    GrantTLSKeeps(env.naming, w, ingress, |ingress.tls|);
    assert RunSafe(env.naming, start);
    GraphEntriesHold(env, ingress, schedule, start, n);
    RulesRefs(env, ingress, schedule, start, n);
  }

  lemma ParentsStayComplete(naming: Naming, ingress: Ingress, extension: seq<string>, w: World, v: World, host: string)
    requires ParentsComplete(naming, ingress, extension, w, host) && Grows(w.gateway, v.gateway)
    requires SameEntry(w.graph, v.graph, RouteNameFor(naming, ingress, host))
    ensures ParentsComplete(naming, ingress, extension, v, host)
  {
    hide RefsOk;
    hide Grows;
    RefsStayOk(naming, ingress, extension, w.gateway, v.gateway, host, true,
               w.graph.httpRoutes[RouteNameFor(naming, ingress, host)].parentRefs);
  }

  lemma {:induction false} RunCompletesParents(
    env: Env, inputs: map<NamespacedName, Input>, schedules: NamespacedName -> Schedule, w: World,
    order: seq<NamespacedName>,
    k: NamespacedName, host: string)
    requires ValidInput(inputs, schedules) && (forall l | l in order :: l in inputs) && NoDuplicates(order)
    requires NamesApart(env.naming, inputs, w.gateway.name.namespace) && Safe(env.naming, w, {})
    requires k in order && Committed(inputs[k].ingress, host, |inputs[k].ingress.rules|)
    ensures ParentsComplete(env.naming, inputs[k].ingress, Extension(inputs[k].annotations),
                            HandleIngresses(env, inputs, schedules, w, order).world, host)
  {
    hide HandleIngress;
    hide ParentsComplete;
    hide SameEntry;
    hide DistinctRouteNames;
    hide ValidSchedule;
    hide Safe;
    hide Grows;
    hide Extension;
    var init, last := order[..|order| - 1], order[|order| - 1];
    assert order == init + [last];
    var before, input := HandleIngresses(env, inputs, schedules, w, init).world, inputs[last];
    IngressesKeep(env, inputs, schedules, w, init);
    if k == last {
      IngressCompletesParents(env, input.ingress, schedules(k), before, input.annotations, host);
    } else {
      RunCompletesParents(env, inputs, schedules, w, init, k, host);
      RunKeepsName(env, inputs, schedules, w, init);
      assert NamesDisjoint(env.naming, inputs[k].ingress, input.ingress);
      var i :| 0 <= i < |inputs[k].ingress.rules| && inputs[k].ingress.rules[i].host == host;
      IngressKeepsForeign(env, input.ingress, schedules(last), before, input.annotations,
                          RouteNameFor(env.naming, inputs[k].ingress, host));
      IngressKeeps(env, input.ingress, schedules(last), before, input.annotations);
      ParentsStayComplete(env.naming, inputs[k].ingress, Extension(inputs[k].annotations), before,
                          HandleIngress(env, input.ingress, schedules(last), before, input.annotations).world, host);
    }
  }

  /** After a conversion the route of every host with paths has all its parent references. */
  lemma ConvertCompletesParents(
    env: Env, options: Options, scrapedWAFID: string,
    inputs: map<NamespacedName, Input>, schedules: NamespacedName -> Schedule, listing: seq<NamespacedName>,
    k: NamespacedName, host: string)
    requires ValidInput(inputs, schedules) && Lists(listing, inputs.Keys)
    requires NamesApart(env.naming, inputs, GatewayNamespace(options, Sort(listing, NameLess)))
    requires k in inputs && Committed(inputs[k].ingress, host, |inputs[k].ingress.rules|)
    ensures ParentsComplete(env.naming, inputs[k].ingress, Extension(inputs[k].annotations),
                            Convert(env, options, scrapedWAFID, inputs, schedules, listing).world, host)
  {
    hide HandleIngresses;
    hide ParentsComplete;
    hide NamesApart;
    hide ValidInput;
    hide Committed;
    hide NameLess;
    hide Sort;
    hide GatewayNamespace;
    hide Safe;
    hide Extension;
    NameLessIsStrictOrder();
    SortOfListing(listing, listing, inputs.Keys, NameLess);
    var sorted := Sort(listing, NameLess);
    StartIsSafe(env.naming, options, scrapedWAFID, sorted);
    RunCompletesParents(env, inputs, schedules, StartWorld(options, scrapedWAFID, sorted), sorted, k, host);
  }

  /** A route is left without a parent exactly when the ingress has TLS entries, none of them covers its host, and none
      names a secret for a host of the extension. */
  lemma NoParentIff(naming: Naming, ingress: Ingress, extension: seq<string>, w: World, host: string)
    requires ParentsComplete(naming, ingress, extension, w, host)
    ensures var refs := w.graph.httpRoutes[RouteNameFor(naming, ingress, host)].parentRefs;
            refs == [] <==>
            && ingress.tls != [] && ChosenSecret(ingress.tls, ingress.name.namespace, host) == NO_SECRET
            && forall e | e in extension :: HostSecret(ingress.tls, e).None?
  {
    hide HostSecret;
    hide ChosenSecret;
    var refs := w.graph.httpRoutes[RouteNameFor(naming, ingress, host)].parentRefs;
    if refs == [] {
      assert SectionsOf(refs) == {};
    } else if OwnRefs(naming, w.gateway.name, ingress, host) == [] {
      assert refs[0] in refs[0..];
      assert IsExtensionRef(naming, w.gateway.name, ingress, extension, refs[0]);
    }
  }

  lemma ExtendTwice(naming: Naming, ingress: Ingress, w: World, route: HTTPRoute, host: string)
    requires Named(naming, w.gateway) && HostSecret(ingress.tls, host).Some?
    ensures var ref := HostParentRef(w.gateway.name, HTTPSListenerName(naming, host));
            ExtendListeners(naming, ingress, {}, w, route, [host, host]).1.parentRefs == route.parentRefs + [ref, ref]
  {
    hide EnsureHTTPS;
    hide ListenerFor;
    hide Named;
    hide Grows;
    hide HostSecret;
    hide HasListener;
    var secret := NamespacedName(ingress.name.namespace, HostSecret(ingress.tls, host).value);
    var v := EnsureHTTPS(naming, w, host, secret);
    EnsuredListener(naming, w, host, secret);
    EnsuredListener(naming, v, host, secret);
    assert [host, host][..1] == [host] && [host][..0] == [];
    var once := ExtendListeners(naming, ingress, {}, w, route, [host]);
    assert ExtendListeners(naming, ingress, {}, w, route, []) == (w, route);
    assert once == ExtendListener(naming, ingress, {}, w, route, host);
    assert once.0 == v;
  }

  /** A host named twice in the extension is referred to twice, though there is one listener: the sections named are
      those of the route at the start. */
  lemma SameHostTwice(naming: Naming, w: World, name: NamespacedName, route: HTTPRoute, a: Annotation)
    requires a.value == "a,a" && route.parentRefs == [] && Named(naming, w.gateway)
    ensures var ingress := Ingress(name, [IngressTLS(["a"], "certificate")], []);
            var ref := HostParentRef(w.gateway.name, HTTPSListenerName(naming, "a"));
            HandleHostnameExtension(naming, ingress, SectionsOf([]), w, route, a).route.parentRefs == [ref, ref]
  {
    hide Split;
    hide HostNames;
    hide ExtendListeners;
    hide Named;
    var ingress := Ingress(name, [IngressTLS(["a"], "certificate")], []);
    TwoHostNames();
    assert "a" in ingress.tls[0].hosts;
    assert SectionsOf([]) == {};
    ExtendTwice(naming, ingress, w, route, "a");
  }

  lemma TwoHostNames()
    ensures HostNames(Split("a,a", ',')) == ["a", "a"]
  {
    hide Split;
    hide TrimSpace;
    assert Split("a,a", ',') == ["a", "a"] by {
      assert "a" + [','] + "a" == "a,a";
      SplitAtSeparator("a", "a", ',');
      SplitWithoutSeparator("a", ',');
      assert ["a"] + ["a"] == ["a", "a"];
    }
    OneHostName();
    assert ["a", "a"][..1] == ["a"] && ["a"][..0] == [];
    assert HostNames([]) == [];
    assert HostNames(["a"]) == ["a"];
  }
}
