/** From what every single step of an ingress does to what the whole ingress does. */
module Lifting {
  import opened Ordering
  import opened Annotations
  import opened Resources
  import opened Gateways
  import opened Handlers
  import opened Ingresses
  import opened Routing

  type Relation = (World, World) -> bool

  ghost predicate Preorder(r: Relation) {
    (forall w :: r(w, w)) && (forall u, v, w :: r(u, v) && r(v, w) ==> r(u, w))
  }

  /** The route is that of some host of the ingress. */
  predicate RouteOf(naming: Naming, ingress: Ingress, route: HTTPRoute) {
    exists i | 0 <= i < |ingress.rules| :: route.name == RouteNameFor(naming, ingress, ingress.rules[i].host)
  }

  /** Visiting an annotation of the ingress, with the value it has, on one of its routes is such a step. */
  ghost predicate VisitsAre(env: Env, ingress: Ingress, values: map<string, Annotation>, r: Relation) {
    forall sections, w, route, key, a: Annotation, orders
      | RouteOf(env.naming, ingress, route) && key in values && a.value == values[key].value ::
        r(w, Visit(env, ingress, sections, w, route, key, a, orders).world)
  }

  /** So are the other steps: making a route, committing one, and granting the secrets. */
  ghost predicate OthersAre(naming: Naming, ingress: Ingress, r: Relation) {
    && (forall w, i | 0 <= i < |ingress.rules| :: r(w, NewRoute(naming, w, ingress, ingress.rules[i].host).0))
    && (forall w, route | RouteOf(naming, ingress, route) :: r(w, Commit(w, route)))
    && (forall w :: r(w, GrantTLS(w, ingress, |ingress.tls|)))
  }

  lemma {:induction false} PassSteps(
    env: Env, ingress: Ingress, sections: set<string>, schedule: Schedule, i: nat, p: Pass, order: seq<string>,
    values: map<string, Annotation>, r: Relation)
    requires Preorder(r) && VisitsAre(env, ingress, values, r)
    requires RouteOf(env.naming, ingress, p.route) && SameValues(values, p.annotations)
    requires forall k | k in order :: k in p.annotations
    ensures var q := VisitAll(env, ingress, sections, schedule, i, p, order);
            r(p.world, q.world) && q.route.name == p.route.name && SameValues(values, q.annotations)
  {
    hide Visit;
    hide RouteOf;
    if order != [] {
      var init, last := order[..|order| - 1], order[|order| - 1];
      assert order == init + [last];
      PassSteps(env, ingress, sections, schedule, i, p, init, values, r);
      var q := VisitAll(env, ingress, sections, schedule, i, p, init);
      var orders := OrdersAt(schedule, i, last, q.world, q.route);
      SameRoute(env.naming, ingress, p.route, q.route);
      VisitKeepsRouting(env, ingress, sections, q.world, q.route, last, q.annotations[last], orders);
      VisitKeepsValue(env, ingress, sections, q.world, q.route, last, q.annotations[last], orders);
      assert r(q.world, Visit(env, ingress, sections, q.world, q.route, last, q.annotations[last], orders).world);
    }
  }

  lemma SameRoute(naming: Naming, ingress: Ingress, a: HTTPRoute, b: HTTPRoute)
    requires RouteOf(naming, ingress, a) && b.name == a.name
    ensures RouteOf(naming, ingress, b)
  {
  }

  /** A visit of `key` brings the goal about, and no step undoes it. */
  lemma {:induction false} PassReaches(
    env: Env, ingress: Ingress, sections: set<string>, schedule: Schedule, i: nat, p: Pass, order: seq<string>,
    values: map<string, Annotation>, r: Relation, key: string, goal: World -> bool)
    requires Preorder(r) && VisitsAre(env, ingress, values, r)
    requires RouteOf(env.naming, ingress, p.route) && SameValues(values, p.annotations)
    requires forall k | k in order :: k in p.annotations
    requires forall v, w | goal(v) && r(v, w) :: goal(w)
    requires VisitsReach(env, ingress, values, p.route.name, key, goal)
    ensures key in order || goal(p.world) ==> goal(VisitAll(env, ingress, sections, schedule, i, p, order).world)
  {
    hide Visit;
    hide RouteOf;
    if order != [] {
      var init, last := order[..|order| - 1], order[|order| - 1];
      assert order == init + [last];
      PassReaches(env, ingress, sections, schedule, i, p, init, values, r, key, goal);
      PassSteps(env, ingress, sections, schedule, i, p, init, values, r);
      var q := VisitAll(env, ingress, sections, schedule, i, p, init);
      var orders := OrdersAt(schedule, i, last, q.world, q.route);
      SameRoute(env.naming, ingress, p.route, q.route);
      assert r(q.world, Visit(env, ingress, sections, q.world, q.route, last, q.annotations[last], orders).world);
    }
  }

  ghost predicate VisitsReach(
    env: Env, ingress: Ingress, values: map<string, Annotation>, name: NamespacedName, key: string,
    goal: World -> bool)
  {
    forall sections, w, route: HTTPRoute, a: Annotation, orders
      | route.name == name && key in values && a.value == values[key].value ::
        goal(Visit(env, ingress, sections, w, route, key, a, orders).world)
  }

  lemma RuleSteps(
    env: Env, ingress: Ingress, schedule: Schedule, s: IngressRun, i: nat, values: map<string, Annotation>, r: Relation)
    requires i < |ingress.rules| && ValidSchedule(schedule, s.annotations.Keys)
    requires RoutesAreTranslations(env, ingress, s, i) && SameValues(values, s.annotations)
    requires Preorder(r) && VisitsAre(env, ingress, values, r) && OthersAre(env.naming, ingress, r)
    ensures var t := HandleRule(env, ingress, schedule, s, i);
            r(s.world, t.world) && SameValues(values, t.annotations)
  {
    hide NewRoute;
    hide VisitAll;
    hide TranslatePaths;
    hide VisitsAre;
    hide SameValues;
    RouteForHost(env, ingress, s, i);
    hide RoutesAreTranslations;
    var (w, route) := RouteFor(env.naming, ingress, s, ingress.rules[i].host);
    assert r(s.world, w);
    if ingress.rules[i].http.Some? {
      var start, order := PassStart(env.naming, ingress, s, i), schedule.annotations(i);
      assert Lists(order, s.annotations.Keys);
      assert RouteOf(env.naming, ingress, start.route);
      PassSteps(env, ingress, SectionsOf(start.route.parentRefs), schedule, i, start, order, values, r);
      var p := PassEnd(env, ingress, schedule, s, i);
      SameRoute(env.naming, ingress, start.route, p.route);
      assert r(p.world, Commit(p.world, p.route));
    }
  }

  lemma {:induction false} RulesSteps(
    env: Env, ingress: Ingress, schedule: Schedule, s: IngressRun, n: nat, values: map<string, Annotation>, r: Relation)
    requires n <= |ingress.rules| && ValidSchedule(schedule, s.annotations.Keys) && s.routes == map[]
    requires SameValues(values, s.annotations)
    requires Preorder(r) && VisitsAre(env, ingress, values, r) && OthersAre(env.naming, ingress, r)
    ensures var t := HandleRules(env, ingress, schedule, s, n);
            r(s.world, t.world) && SameValues(values, t.annotations)
  {
    hide HandleRule;
    hide ValidSchedule;
    hide RoutesAreTranslations;
    hide VisitsAre;
    hide OthersAre;
    hide SameValues;
    if n > 0 {
      RulesSteps(env, ingress, schedule, s, n - 1, values, r);
      TranslationsHold(env, ingress, schedule, s, n - 1);
      RuleSteps(env, ingress, schedule, HandleRules(env, ingress, schedule, s, n - 1), n - 1, values, r);
    }
  }

  /** The whole ingress is such a step. */
  lemma IngressSteps(
    env: Env, ingress: Ingress, schedule: Schedule, w: World, annotations: map<string, Annotation>, r: Relation)
    requires ValidSchedule(schedule, annotations.Keys)
    requires Preorder(r) && VisitsAre(env, ingress, annotations, r) && OthersAre(env.naming, ingress, r)
    ensures r(w, HandleIngress(env, ingress, schedule, w, annotations).world)
  {
    hide HandleRules;
    hide VisitsAre;
    hide GrantTLS;
    hide ValidSchedule;
    RulesSteps(env, ingress, schedule, IngressStart(w, ingress, annotations), |ingress.rules|, annotations, r);
  }

  /** A rule of the host with paths visits the key on the route of the host. */
  lemma RuleReaches(
    env: Env, ingress: Ingress, schedule: Schedule, s: IngressRun, i: nat, values: map<string, Annotation>, r: Relation,
    key: string, goal: World -> bool)
    requires i < |ingress.rules| && ValidSchedule(schedule, s.annotations.Keys)
    requires RoutesAreTranslations(env, ingress, s, i) && SameValues(values, s.annotations)
    requires Preorder(r) && VisitsAre(env, ingress, values, r) && OthersAre(env.naming, ingress, r)
    requires forall v, w | goal(v) && r(v, w) :: goal(w)
    requires VisitsReach(env, ingress, values, RouteNameFor(env.naming, ingress, ingress.rules[i].host), key, goal)
    ensures ingress.rules[i].http.Some? && key in values ==> goal(HandleRule(env, ingress, schedule, s, i).world)
  {
    hide NewRoute;
    hide VisitAll;
    hide TranslatePaths;
    hide VisitsAre;
    hide VisitsReach;
    RouteForHost(env, ingress, s, i);
    hide RoutesAreTranslations;
    if ingress.rules[i].http.Some? && key in values {
      var start, order := PassStart(env.naming, ingress, s, i), schedule.annotations(i);
      assert Lists(order, s.annotations.Keys);
      assert RouteOf(env.naming, ingress, start.route);
      var sections := SectionsOf(start.route.parentRefs);
      PassSteps(env, ingress, sections, schedule, i, start, order, values, r);
      PassReaches(env, ingress, sections, schedule, i, start, order, values, r, key, goal);
      var p := PassEnd(env, ingress, schedule, s, i);
      SameRoute(env.naming, ingress, start.route, p.route);
      assert r(p.world, Commit(p.world, p.route));
    }
  }

  lemma {:induction false} RulesReach(
    env: Env, ingress: Ingress, schedule: Schedule, s: IngressRun, n: nat, values: map<string, Annotation>, r: Relation,
    key: string, goal: World -> bool, host: string)
    requires n <= |ingress.rules| && ValidSchedule(schedule, s.annotations.Keys) && s.routes == map[]
    requires SameValues(values, s.annotations)
    requires Preorder(r) && VisitsAre(env, ingress, values, r) && OthersAre(env.naming, ingress, r)
    requires forall v, w | goal(v) && r(v, w) :: goal(w)
    requires VisitsReach(env, ingress, values, RouteNameFor(env.naming, ingress, host), key, goal)
    ensures Committed(ingress, host, n) && key in values ==> goal(HandleRules(env, ingress, schedule, s, n).world)
  {
    hide HandleRule;
    hide ValidSchedule;
    hide RoutesAreTranslations;
    hide VisitsAre;
    hide OthersAre;
    hide VisitsReach;
    hide SameValues;
    if n > 0 {
      RulesReach(env, ingress, schedule, s, n - 1, values, r, key, goal, host);
      RulesSteps(env, ingress, schedule, s, n - 1, values, r);
      TranslationsHold(env, ingress, schedule, s, n - 1);
      var t := HandleRules(env, ingress, schedule, s, n - 1);
      RuleSteps(env, ingress, schedule, t, n - 1, values, r);
      if ingress.rules[n - 1].host == host {
        RuleReaches(env, ingress, schedule, t, n - 1, values, r, key, goal);
      }
    }
  }

  /** For every host with paths the key is visited on its route, and what that brings about is there at the end. */
  lemma IngressReaches(
    env: Env, ingress: Ingress, schedule: Schedule, w: World, annotations: map<string, Annotation>, r: Relation,
    key: string, goal: World -> bool, host: string)
    requires ValidSchedule(schedule, annotations.Keys)
    requires Preorder(r) && VisitsAre(env, ingress, annotations, r) && OthersAre(env.naming, ingress, r)
    requires forall v, w | goal(v) && r(v, w) :: goal(w)
    requires VisitsReach(env, ingress, annotations, RouteNameFor(env.naming, ingress, host), key, goal)
    requires Committed(ingress, host, |ingress.rules|) && key in annotations
    ensures goal(HandleIngress(env, ingress, schedule, w, annotations).world)
  {
    hide HandleRules;
    hide VisitsAre;
    hide OthersAre;
    hide VisitsReach;
    hide GrantTLS;
    hide ValidSchedule;
    hide Committed;
    RulesReach(env, ingress, schedule, IngressStart(w, ingress, annotations), |ingress.rules|, annotations, r, key,
               goal,
               host);
  }
}
