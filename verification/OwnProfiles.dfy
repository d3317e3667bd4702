/** The SSL profile of every covered host: as its ingress asks, unless the annotation is reported as failed. */
module OwnProfiles {
  import opened Text
  import opened Ordering
  import opened Annotations
  import opened Resources
  import opened Gateways
  import opened Handlers
  import opened Ingresses
  import opened Routing
  import opened Integrity
  import opened Hostnames
  import opened ParentRefs
  import opened Lifting
  import opened Profiles

  /** The listener of the host has the profile the value stands for. */
  predicate HasOwnProfile(naming: Naming, w: World, host: string, value: string) {
    ProfileOf(w.graph.frontendTLSPolicies, w.gateway.name, "https-" + naming.nameFromHost(host))
    == Some(ProfileName(value))
  }

  lemma {:induction false} OwnNameListed(g: GatewayState, route: HTTPRoute, order: seq<ListenerKey>, key: ListenerKey)
    requires key in order && key in g.httpsListeners
    requires g.httpsListeners[key].listener.name in SectionsOf(route.parentRefs)
    ensures g.httpsListeners[key].listener.name in ParentHTTPSListenerNames(g, route, order)
  {
    hide SectionsOf;
    var init, last := order[..|order| - 1], order[|order| - 1];
    assert order == init + [last];
    if key != last {
      OwnNameListed(g, route, init, key);
    }
  }

  /** A visit of the annotation on a route that hangs on the listener. */
  lemma VisitOwn(
    env: Env, ingress: Ingress, sections: set<string>, w: World, route: HTTPRoute, a: Annotation, orders: Orders,
    host: string)
    requires Named(env.naming, w.gateway) && HTTPSKey(host) in w.gateway.httpsListeners
    requires HTTPSListenerName(env.naming, host) in SectionsOf(route.parentRefs)
    requires Lists(orders.listeners, w.gateway.httpsListeners.Keys)
    ensures var o := Visit(env, ingress, sections, w, route, ProfileKey(), a, orders);
            o.failed || HasOwnProfile(env.naming, o.world, host, a.value)
  {
    hide Visit;
    hide ProfileKey;
    hide ProfileOf;
    hide SectionsOf;
    hide ListenerPolicy;
    OwnNameListed(w.gateway, route, orders.listeners, HTTPSKey(host));
    VisitSetsProfiles(env, ingress, sections, w, route, a, orders);
    VisitKeepsRouting(env, ingress, sections, w, route, ProfileKey(), a, orders);
    var names := ParentHTTPSListenerNames(w.gateway, route, orders.listeners);
    var i :| 0 <= i < |names| && names[i] == HTTPSListenerName(env.naming, host);
    if !Visit(env, ingress, sections, w, route, ProfileKey(), a, orders).failed {
      assert forall j | 0 <= j <= i :: names[j] in names;
    }
  }

  lemma OwnProfileStays(naming: Naming, asked: Option<string>, w: World, v: World, host: string, value: string)
    requires ProfileStep(asked, w.graph.frontendTLSPolicies, v.graph.frontendTLSPolicies)
    requires v.gateway.name == w.gateway.name && HasOwnProfile(naming, w, host, value)
    ensures HasOwnProfile(naming, v, host, value)
  {
  }

  // ---------- One pass ----------

  /** The annotations that have failed stay failed, and a pass sets the profile unless its annotation fails. */
  lemma {:induction false} PassOwn(
    env: Env, ingress: Ingress, sections: set<string>, schedule: Schedule, i: nat, p: Pass, order: seq<string>,
    host: string)
    requires SafeWith(env.naming, p.world, p.route) && sections <= SectionsOf(p.route.parentRefs)
    requires NoDuplicates(order) && forall k | k in order :: k in p.annotations
    requires ValidSchedule(schedule, p.annotations.Keys)
    requires HTTPSKey(host) in p.world.gateway.httpsListeners
    requires HTTPSListenerName(env.naming, host) in SectionsOf(p.route.parentRefs)
    ensures var r := VisitAll(env, ingress, sections, schedule, i, p, order);
            && p.failed <= r.failed && r.world.gateway.name == p.world.gateway.name
            && SameValues(p.annotations, r.annotations)
            && (ProfileKey() in order ==>
                  ProfileKey() in r.failed
                  || HasOwnProfile(env.naming, r.world, host, p.annotations[ProfileKey()].value))
  {
    hide Visit;
    hide ProfileKey;
    hide SafeWith;
    hide SectionsOf;
    hide Named;
    hide HasOwnProfile;
    hide ValidSchedule;
    if order != [] {
      var init, last := order[..|order| - 1], order[|order| - 1];
      assert order == init + [last];
      PassOwn(env, ingress, sections, schedule, i, p, init, host);
      PassKeepsListener(env, ingress, sections, schedule, i, p, init, host);
      var q := VisitAll(env, ingress, sections, schedule, i, p, init);
      OneMoreOwn(env, ingress, sections, schedule, i, q, last, host, p.annotations);
    }
  }

  lemma PassKeepsListener(
    env: Env, ingress: Ingress, sections: set<string>, schedule: Schedule, i: nat, p: Pass, order: seq<string>,
    host: string)
    requires SafeWith(env.naming, p.world, p.route) && sections <= SectionsOf(p.route.parentRefs)
    requires NoDuplicates(order) && forall k | k in order :: k in p.annotations
    requires HTTPSKey(host) in p.world.gateway.httpsListeners
    requires HTTPSListenerName(env.naming, host) in SectionsOf(p.route.parentRefs)
    ensures var r := VisitAll(env, ingress, sections, schedule, i, p, order);
            && Named(env.naming, r.world.gateway) && HTTPSKey(host) in r.world.gateway.httpsListeners
            && HTTPSListenerName(env.naming, host) in SectionsOf(r.route.parentRefs)
  {
    hide VisitAll;
    hide Safe;
    hide Named;
    hide Covered;
    hide SectionsOf;
    hide IsExtensionRef;
    hide ParentsOk;
    var r := VisitAll(env, ingress, sections, schedule, i, p, order);
    VisitAllKeeps(env, ingress, sections, schedule, i, p, order);
    VisitAllRefs(env, ingress, sections, schedule, i, p, order);
    NamedIfSafe(env.naming, r.world, {r.route.name});
    MoreSections(p.route.parentRefs, r.route.parentRefs);
  }

  lemma OneMoreOwn(
    env: Env, ingress: Ingress, sections: set<string>, schedule: Schedule, i: nat, q: Pass, key: string, host: string,
    values: map<string, Annotation>)
    requires key in q.annotations && SameValues(values, q.annotations) && ValidSchedule(schedule, q.annotations.Keys)
    requires Named(env.naming, q.world.gateway) && HTTPSKey(host) in q.world.gateway.httpsListeners
    requires HTTPSListenerName(env.naming, host) in SectionsOf(q.route.parentRefs)
    ensures var r := VisitOne(env, ingress, sections, schedule, i, q, key);
            && q.failed <= r.failed && r.world.gateway.name == q.world.gateway.name
            && SameValues(values, r.annotations)
            && (ProfileKey() in values
                && (key == ProfileKey() || ProfileKey() in q.failed
                    || HasOwnProfile(env.naming, q.world, host, values[ProfileKey()].value)) ==>
                  ProfileKey() in r.failed || HasOwnProfile(env.naming, r.world, host, values[ProfileKey()].value))
  {
    hide Visit;
    hide ProfileKey;
    hide SectionsOf;
    hide Named;
    hide HasOwnProfile;
    hide ProfileStep;
    var orders := OrdersAt(schedule, i, key, q.world, q.route);
    var a := q.annotations[key];
    VisitKeepsRouting(env, ingress, sections, q.world, q.route, key, a, orders);
    VisitKeepsValue(env, ingress, sections, q.world, q.route, key, a, orders);
    VisitProfiles(env, ingress, sections, q.world, q.route, key, a, orders, values);
    var o := Visit(env, ingress, sections, q.world, q.route, key, a, orders);
    if key == ProfileKey() {
      ScheduledOrders(schedule, q.annotations.Keys, i, q.world, q.route, key);
      VisitOwn(env, ingress, sections, q.world, q.route, a, orders, host);
    } else if ProfileKey() in values && HasOwnProfile(env.naming, q.world, host, values[ProfileKey()].value) {
      OwnProfileStays(env.naming, AskedProfile(values), q.world, o.world, host, values[ProfileKey()].value);
    }
  }

  // ---------- One ingress ----------

  /** The route of the host hangs on an HTTPS listener of its own. */
  predicate Covers(ingress: Ingress, host: string) {
    ingress.tls != [] && ChosenSecret(ingress.tls, ingress.name.namespace, host) != NO_SECRET
  }

  ghost predicate OwnProfilesSoFar(
    naming: Naming, ingress: Ingress, values: map<string, Annotation>, s: IngressRun, n: nat)
    requires n <= |ingress.rules|
  {
    ProfileKey() in values && ProfileKey() !in s.failed ==>
      forall h | Committed(ingress, h, n) && Covers(ingress, h) ::
        HasOwnProfile(naming, s.world, h, values[ProfileKey()].value)
  }

  lemma RuleOwn(
    env: Env, ingress: Ingress, schedule: Schedule, extension: seq<string>, s: IngressRun, i: nat)
    requires i < |ingress.rules| && ingress.rules[i].http.Some? && ValidSchedule(schedule, s.annotations.Keys)
    requires RunSafe(env.naming, s) && RefsSoFar(env.naming, ingress, extension, s, i)
    requires Covers(ingress, ingress.rules[i].host)
    ensures var p := PassEnd(env, ingress, schedule, s, i);
            ProfileKey() in s.annotations ==>
              ProfileKey() in p.failed
              || HasOwnProfile(env.naming, p.world, ingress.rules[i].host, s.annotations[ProfileKey()].value)
  {
    hide VisitAll;
    hide RouteFor;
    hide TranslatePaths;
    hide Safe;
    hide ParentsOk;
    hide Grows;
    hide Covered;
    hide SectionsOf;
    hide IsExtensionRef;
    hide ProfileKey;
    hide HasOwnProfile;
    hide ChosenSecret;
    var host := ingress.rules[i].host;
    RouteRefs(env, ingress, extension, s, i);
    var (w, route) := RouteFor(env.naming, ingress, s, host);
    var start, order := PassStart(env.naming, ingress, s, i), schedule.annotations(i);
    assert Lists(order, s.annotations.Keys);
    MorePending(env.naming, w, {route.name});
    SameParents(w.gateway);
    var own := OwnRefs(env.naming, w.gateway.name, ingress, host);
    MoreSections(own, route.parentRefs);
    OwnSection(env.naming, w.gateway.name, ingress, host);
    PassOwn(env, ingress, SectionsOf(start.route.parentRefs), schedule, i, start, order, host);
  }

  lemma OwnSection(naming: Naming, gateway: NamespacedName, ingress: Ingress, host: string)
    requires Covers(ingress, host)
    ensures HTTPSListenerName(naming, host) in SectionsOf(OwnRefs(naming, gateway, ingress, host))
  {
    var refs := OwnRefs(naming, gateway, ingress, host);
    assert refs[0] in refs;
  }

  lemma FailedStaysFailed(env: Env, ingress: Ingress, schedule: Schedule, s: IngressRun, i: nat)
    requires i < |ingress.rules| && ValidSchedule(schedule, s.annotations.Keys)
    ensures s.failed <= HandleRule(env, ingress, schedule, s, i).failed
  {
    hide RouteFor;
    hide VisitAll;
    hide ValidSchedule;
    hide TranslatePaths;
    if ingress.rules[i].http.Some? {
      var start := PassStart(env.naming, ingress, s, i);
      ScheduledOrders(schedule, s.annotations.Keys, i, start.world, start.route, "");
      FailuresStay(env, ingress, SectionsOf(start.route.parentRefs), schedule, i, start, schedule.annotations(i));
    }
  }

  lemma {:induction false} FailuresStay(
    env: Env, ingress: Ingress, sections: set<string>, schedule: Schedule, i: nat, p: Pass, order: seq<string>)
    requires forall k | k in order :: k in p.annotations
    ensures p.failed <= VisitAll(env, ingress, sections, schedule, i, p, order).failed
  {
    hide Visit;
    if order != [] {
      FailuresStay(env, ingress, sections, schedule, i, p, order[..|order| - 1]);
    }
  }

  lemma {:induction false} RulesOwn(env: Env, ingress: Ingress, schedule: Schedule, s: IngressRun, n: nat)
    requires n <= |ingress.rules| && ValidSchedule(schedule, s.annotations.Keys) && RunSafe(env.naming, s)
    requires s.routes == map[]
    ensures OwnProfilesSoFar(env.naming, ingress, s.annotations, HandleRules(env, ingress, schedule, s, n), n)
  {
    hide HandleRule;
    hide RunSafe;
    hide RefsSoFar;
    hide Grows;
    hide ValidSchedule;
    hide RoutesAreTranslations;
    hide VisitsAre;
    hide OthersAre;
    hide ProfileRelation;
    hide OwnProfilesSoFar;
    hide AskedProfile;
    hide Preorder;
    hide Extension;
    hide SameValues;
    hide Safe;
    if n == 0 {
      NoneCommitted(env.naming, ingress, s.annotations, s);
    } else {
      var r := HandleRules(env, ingress, schedule, s, n - 1);
      RulesOwn(env, ingress, schedule, s, n - 1);
      RulesRefs(env, ingress, schedule, s, n - 1);
      RulesKeep(env, ingress, schedule, s, n - 1);
      TranslationsHold(env, ingress, schedule, s, n - 1);
      ProfilesLift(env, ingress, s.annotations);
      SameByItself(s.annotations);
      RulesSteps(env, ingress, schedule, s, n - 1, s.annotations, ProfileRelation(AskedProfile(s.annotations)));
      OneMoreRuleOwn(env, ingress, schedule, s.annotations, r, n - 1);
    }
  }

  lemma SameByItself(values: map<string, Annotation>)
    ensures SameValues(values, values)
  {
  }

  lemma NoneCommitted(naming: Naming, ingress: Ingress, values: map<string, Annotation>, s: IngressRun)
    ensures OwnProfilesSoFar(naming, ingress, values, s, 0)
  {
  }

  lemma OneMoreRuleOwn(
    env: Env, ingress: Ingress, schedule: Schedule, values: map<string, Annotation>, s: IngressRun, i: nat)
    requires i < |ingress.rules| && ValidSchedule(schedule, s.annotations.Keys) && RunSafe(env.naming, s)
    requires RoutesAreTranslations(env, ingress, s, i) && SameValues(values, s.annotations)
    requires RefsSoFar(env.naming, ingress, Extension(s.annotations), s, i)
    requires Preorder(ProfileRelation(AskedProfile(values)))
    requires VisitsAre(env, ingress, values, ProfileRelation(AskedProfile(values)))
    requires OthersAre(env.naming, ingress, ProfileRelation(AskedProfile(values)))
    requires OwnProfilesSoFar(env.naming, ingress, values, s, i)
    ensures OwnProfilesSoFar(env.naming, ingress, values, HandleRule(env, ingress, schedule, s, i), i + 1)
  {
    hide HandleRule;
    hide RunSafe;
    hide RefsSoFar;
    hide Grows;
    hide ValidSchedule;
    hide RoutesAreTranslations;
    hide VisitsAre;
    hide OthersAre;
    hide PassEnd;
    hide RouteFor;
    hide ProfileKey;
    hide ProfileStep;
    hide HasOwnProfile;
    hide Covers;
    hide Committed;
    hide Extension;
    var t, host, asked := HandleRule(env, ingress, schedule, s, i), ingress.rules[i].host, AskedProfile(values);
    RuleSteps(env, ingress, schedule, s, i, values, ProfileRelation(asked));
    RuleKeeps(env, ingress, schedule, s, i);
    GrowthKeepsName(s.world.gateway, t.world.gateway);
    FailedStaysFailed(env, ingress, schedule, s, i);
    SeenBeforeCommitted(ingress, i);
    if ProfileKey() in values && ProfileKey() !in t.failed {
      forall h | Committed(ingress, h, i + 1) && Covers(ingress, h)
        ensures HasOwnProfile(env.naming, t.world, h, values[ProfileKey()].value)
      {
        if Committed(ingress, h, i) {
          OwnProfileStays(env.naming, asked, s.world, t.world, h, values[ProfileKey()].value);
        } else {
          var (w, route) := RouteFor(env.naming, ingress, s, host);
          MigratedRule(env, ingress, schedule, s, i, w, route);
          RuleOwn(env, ingress, schedule, Extension(s.annotations), s, i);
          CommitKeepsProfiles(env.naming, PassEnd(env, ingress, schedule, s, i), h, values[ProfileKey()].value);
        }
      }
    }
  }

  lemma CommitKeepsProfiles(naming: Naming, p: Pass, host: string, value: string)
    ensures HasOwnProfile(naming, Commit(p.world, p.route), host, value) == HasOwnProfile(naming, p.world, host, value)
  {
  }

  /** After an ingress every covered host with paths has the profile asked for, unless the annotation is reported as
      failed. */
  lemma IngressSetsOwnProfiles(
    env: Env, ingress: Ingress, schedule: Schedule, w: World, annotations: map<string, Annotation>, host: string)
    requires ValidSchedule(schedule, annotations.Keys) && Safe(env.naming, w, {})
    requires Committed(ingress, host, |ingress.rules|) && Covers(ingress, host) && ProfileKey() in annotations
    ensures var r := HandleIngress(env, ingress, schedule, w, annotations);
            ProfileKey() in r.failed || HasOwnProfile(env.naming, r.world, host, annotations[ProfileKey()].value)
  {
    hide HandleRules;
    hide Safe;
    hide ValidSchedule;
    hide Committed;
    hide Covers;
    hide HasOwnProfile;
    hide ProfileKey;
    var start := IngressStart(w, ingress, annotations);
    GrantTLSKeeps(env.naming, w, ingress, |ingress.tls|);
    assert RunSafe(env.naming, start);
    RulesOwn(env, ingress, schedule, start, |ingress.rules|);
  }

  /** After a conversion the listener of every covered host with paths has the profile its ingress asks for, unless that
      ingress reports the annotation as failed: another ingress was first to ask for another profile. */
  lemma ConvertSetsOwnProfiles(
    env: Env, options: Options, scrapedWAFID: string,
    inputs: map<NamespacedName, Input>, schedules: NamespacedName -> Schedule, listing: seq<NamespacedName>,
    k: NamespacedName, host: string)
    requires ValidInput(inputs, schedules) && Lists(listing, inputs.Keys)
    requires k in inputs && Committed(inputs[k].ingress, host, |inputs[k].ingress.rules|)
    requires Covers(inputs[k].ingress, host) && ProfileKey() in inputs[k].annotations
    ensures var run := Convert(env, options, scrapedWAFID, inputs, schedules, listing);
            k in run.results
            && (ProfileKey() in run.results[k].failed
                || HasOwnProfile(env.naming, run.world, host, inputs[k].annotations[ProfileKey()].value))
  {
    hide HandleIngresses;
    hide HandleIngress;
    hide ValidSchedule;
    hide Committed;
    hide Covers;
    hide NameLess;
    hide Sort;
    hide Safe;
    hide ProfileKey;
    hide ProfileName;
    hide StartWorld;
    NameLessIsStrictOrder();
    SortOfListing(listing, listing, inputs.Keys, NameLess);
    var sorted := Sort(listing, NameLess);
    ListedOnce(sorted, inputs.Keys);
    var start := StartWorld(options, scrapedWAFID, sorted);
    var j :| 0 <= j < |sorted| && sorted[j] == k;
    StartIsSafe(env.naming, options, scrapedWAFID, sorted);
    RunSetsOwnProfiles(env, inputs, schedules, start, sorted, j, host);
  }

  lemma RunSetsOwnProfiles(
    env: Env, inputs: map<NamespacedName, Input>, schedules: NamespacedName -> Schedule, w: World,
    order: seq<NamespacedName>, j: nat, host: string)
    requires ValidInput(inputs, schedules) && (forall k | k in order :: k in inputs) && NoDuplicates(order)
    requires Safe(env.naming, w, {}) && j < |order|
    requires var input := inputs[order[j]];
             Committed(input.ingress, host, |input.ingress.rules|) && Covers(input.ingress, host)
             && ProfileKey() in input.annotations
    ensures var run := HandleIngresses(env, inputs, schedules, w, order);
            order[j] in run.results
            && (ProfileKey() in run.results[order[j]].failed
                || HasOwnProfile(env.naming, run.world, host, inputs[order[j]].annotations[ProfileKey()].value))
  {
    hide HandleIngresses;
    hide HandleIngress;
    hide ValidSchedule;
    hide Committed;
    hide Covers;
    hide Safe;
    hide Grows;
    hide ProfileKey;
    hide ProfileName;
    var input := inputs[order[j]];
    var before := HandleIngresses(env, inputs, schedules, w, order[..j]).world;
    ResultAt(env, inputs, schedules, w, order, j);
    IngressesSnoc(env, inputs, schedules, w, order, j);
    IngressesKeep(env, inputs, schedules, w, order[..j]);
    IngressSetsOwnProfiles(env, input.ingress, schedules(order[j]), before, input.annotations, host);
    RunKeepsProfiles(env, inputs, schedules, w, order, j + 1);
    IngressesKeep(env, inputs, schedules, w, order[..j + 1]);
    IngressesKeep(env, inputs, schedules, w, order);
    GrowthKeepsName(w.gateway, HandleIngresses(env, inputs, schedules, w, order[..j + 1]).world.gateway);
    GrowthKeepsName(w.gateway, HandleIngresses(env, inputs, schedules, w, order).world.gateway);
  }
}
