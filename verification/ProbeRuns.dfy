/** Health probes over a whole ingress and a whole run: no map order matters, and the first writer wins. */
module ProbeRuns {
  import opened Text
  import opened Ordering
  import opened Annotations
  import opened Resources
  import opened Gateways
  import opened BackendGroups
  import opened Filters
  import opened RuleSets
  import opened BackendTLS
  import opened Probes
  import opened ProbeCalls
  import opened Handlers
  import opened Ingresses
  import opened Routing

  function ProbeKey(field: ProbeField): string {
    KeyOf(Probe(field))
  }

  /** The well-formed probe settings among the annotations. */
  ghost function WantedBy(annotations: map<string, Annotation>): (wanted: Wanted)
    ensures WellFitted(wanted)
  {
    var wanted := map field: ProbeField |
      ProbeKey(field) in annotations && Decode(field, annotations[ProbeKey(field)].value).Some?
      :: Decode(field, annotations[ProbeKey(field)].value).value;
    forall f | f in wanted ensures Fits(f, wanted[f]) {
      DecodeFits(f, annotations[ProbeKey(f)].value);
    }
    wanted
  }

  /** What the probe handlers read and write of a pass. */
  datatype ProbeView = ProbeView(policies: HealthChecks, annotations: map<string, Annotation>, failed: set<string>)

  function ViewOfPass(p: Pass): ProbeView {
    ProbeView(p.world.graph.healthCheckPolicies, p.annotations, p.failed)
  }

  function ViewOfRun(s: IngressRun): ProbeView {
    ProbeView(s.world.graph.healthCheckPolicies, s.annotations, s.failed)
  }

  /** How far an ingress has come: the services of earlier passes, those of the present pass, the keys visited in it,
      whether there was an earlier pass, and whether one of them found no service. */
  datatype Extent = Extent(
    base: set<NamespacedName>, services: set<NamespacedName>, done: set<string>, seen: bool, empties: bool)
  {
    function Visited(field: ProbeField): set<NamespacedName> {
      if ProbeKey(field) in done then base + services else base
    }

    ghost function Pairs(wanted: Wanted): set<Setting> {
      set s, f | s in base + services && f in wanted && s in Visited(f) :: (s, f)
    }

    predicate SeenBy(field: ProbeField) {
      seen || ProbeKey(field) in done
    }

    predicate EmptyFor(field: ProbeField) {
      empties || (ProbeKey(field) in done && services == {})
    }
  }

  /** A malformed annotation ends at Error as soon as it is visited. */
  ghost predicate MalformedAfter(field: ProbeField, a0: Annotation, a: Annotation, seen: bool) {
    && a.destinations == a0.destinations
    && a.status == (if seen then Error else a0.status)
    && SetOf(a.issues)
       == SetOf(a0.issues) + if seen && !field.ProbeStatusCodes? then {Issue(InvalidAnnotationValue, None)} else {}
  }

  /** One probe annotation in closed form. */
  ghost predicate ProbeAnnotation(
    g0: HealthChecks, a0: map<string, Annotation>, v: ProbeView, field: ProbeField, x: Extent)
    requires ProbeKey(field) in a0 && ProbeKey(field) in v.annotations
  {
    var key, wanted := ProbeKey(field), WantedBy(a0);
    if field in wanted then
      && AnnotationAfter(g0, field, wanted[field], a0[key], v.annotations[key], x.Visited(field))
      && (key in v.failed <==> Conflicting(g0, field, wanted[field], x.Visited(field)) != {} || x.EmptyFor(field))
    else
      && MalformedAfter(field, a0[key], v.annotations[key], x.SeenBy(field))
      && (key in v.failed <==> x.SeenBy(field))
  }

  /** The policies and the probe annotations in closed form: nothing here mentions an order. */
  ghost predicate ProbeState(g0: HealthChecks, a0: map<string, Annotation>, v: ProbeView, x: Extent) {
    && SameValues(a0, v.annotations)
    && Progress(g0, v.policies, WantedBy(a0), x.Pairs(WantedBy(a0)))
    && (forall field | ProbeKey(field) in a0 :: ProbeAnnotation(g0, a0, v, field, x))
  }

  /** The other handlers leave the health-check policies alone. */
  lemma OtherVisit(
    env: Env, ingress: Ingress, sections: set<string>, w: World, route: HTTPRoute, key: string, a: Annotation,
    orders: Orders)
    requires forall field :: key != ProbeKey(field)
    ensures Visit(env, ingress, sections, w, route, key, a, orders).world.graph.healthCheckPolicies
         == w.graph.healthCheckPolicies
  {
    hide KeyOf;
    hide HandlerFor;
    hide ExtendListeners;
    hide ApplyOp;
    hide HandleRuleSet;
    hide HandleProtocol;
    hide ApplyProfile;
    hide ParseInt;
    forall field ensures HandlerFor(key) != Some(Probe(field)) {
      Dispatch(key, Probe(field));
      assert key != ProbeKey(field);
    }
    if key != LAST_APPLIED && HandlerFor(key).Some? {
      match HandlerFor(key).value {
        case HostnameExtension =>
          ExtendKeepsRouting(env.naming, ingress, sections, w, route, HostNames(Split(a.value, ',')));
        case _ =>
      }
    }
  }

  lemma ProbeVisit(
    env: Env, ingress: Ingress, sections: set<string>, w: World, route: HTTPRoute, field: ProbeField, a: Annotation,
    orders: Orders)
    ensures Visit(env, ingress, sections, w, route, ProbeKey(field), a, orders) ==
            var r := HandleProbe(w.graph.healthCheckPolicies, a, field, orders.services);
            Outcome(w.(graph := w.graph.(healthCheckPolicies := r.policies)), route, r.annotation, r.failed)
  {
    hide KeyOf;
    hide HandlerFor;
    hide HandleProbe;
    Dispatch(ProbeKey(field), Probe(field));
  }

  lemma ProbeKeysDiffer(f: ProbeField, g: ProbeField)
    requires ProbeKey(f) == ProbeKey(g)
    ensures f == g
  {
    hide KeyOf;
    KeysDiffer(Probe(f), Probe(g));
  }

  function Marked(x: Extent, key: string): Extent {
    x.(done := x.done + {key})
  }

  /** Visiting some other annotation. */
  lemma OtherKeepsState(
    g0: HealthChecks, a0: map<string, Annotation>, v: ProbeView, u: ProbeView, x: Extent, key: string)
    requires ProbeState(g0, a0, v, x) && key in v.annotations && (forall field :: key != ProbeKey(field))
    requires key in u.annotations && u.policies == v.policies
    requires u.annotations == v.annotations[key := u.annotations[key]]
    requires u.annotations[key].value == v.annotations[key].value
    requires forall k | k != key :: k in u.failed <==> k in v.failed
    ensures ProbeState(g0, a0, u, Marked(x, key))
  {
    hide KeyOf;
    hide WantedBy;
    hide Progress;
    hide AnnotationAfter;
    hide MalformedAfter;
    hide Conflicting;
    assert Marked(x, key).Pairs(WantedBy(a0)) == x.Pairs(WantedBy(a0));
    forall field | ProbeKey(field) in a0 ensures ProbeAnnotation(g0, a0, u, field, Marked(x, key)) {
      assert ProbeAnnotation(g0, a0, v, field, x);
    }
  }

  /** Visiting a probe annotation: the other fields keep their closed form. */
  lemma ProbeKeepsOthers(
    g0: HealthChecks, a0: map<string, Annotation>, v: ProbeView, u: ProbeView, x: Extent, field: ProbeField,
    other: ProbeField)
    requires ProbeKey(other) in a0 && ProbeKey(other) in v.annotations && other != field
    requires ProbeAnnotation(g0, a0, v, other, x)
    requires ProbeKey(field) in u.annotations
    requires u.annotations == v.annotations[ProbeKey(field) := u.annotations[ProbeKey(field)]]
    requires forall k | k != ProbeKey(field) :: k in u.failed <==> k in v.failed
    ensures ProbeAnnotation(g0, a0, u, other, Marked(x, ProbeKey(field)))
  {
    hide KeyOf;
    hide WantedBy;
    hide AnnotationAfter;
    hide MalformedAfter;
    hide Conflicting;
    if ProbeKey(other) == ProbeKey(field) {
      ProbeKeysDiffer(other, field);
    }
  }

  lemma PairsGrow(x: Extent, wanted: Wanted, field: ProbeField)
    ensures Marked(x, ProbeKey(field)).Pairs(wanted)
         == x.Pairs(wanted) + if field in wanted then PairsOf(x.services, field) else {}
  {
    hide KeyOf;
    var y := Marked(x, ProbeKey(field));
    forall s, f
      ensures (s, f) in y.Pairs(wanted) <==>
                (s, f) in x.Pairs(wanted) || (f == field && field in wanted && s in x.services)
    {
      if ProbeKey(f) == ProbeKey(field) {
        ProbeKeysDiffer(f, field);
      }
    }
  }

  /** Visiting a probe annotation, in whatever order of services. */
  lemma ProbeStep(
    g0: HealthChecks, a0: map<string, Annotation>, v: ProbeView, x: Extent, field: ProbeField,
    order: seq<NamespacedName>)
    requires ProbeState(g0, a0, v, x) && ProbeKey(field) in a0 && Lists(order, x.services)
    ensures var key := ProbeKey(field);
            var r := HandleProbe(v.policies, v.annotations[key], field, order);
            ProbeState(g0, a0,
                       ProbeView(r.policies, v.annotations[key := r.annotation],
                                 if r.failed then v.failed + {key} else v.failed),
                       Marked(x, key))
  {
    hide KeyOf;
    hide Progress;
    hide AnnotationAfter;
    hide Conflicting;
    hide ApplyProbe;
    hide Decode;
    hide x.Pairs;
    var key, wanted := ProbeKey(field), WantedBy(a0);
    var r := HandleProbe(v.policies, v.annotations[key], field, order);
    var u := ProbeView(r.policies, v.annotations[key := r.annotation], if r.failed then v.failed + {key} else v.failed);
    var y := Marked(x, key);
    assert ProbeAnnotation(g0, a0, v, field, x);
    assert SetOf(order) == x.services;
    PairsGrow(x, wanted, field);
    ProbeUpdates(g0, a0, v, x, field, order);
    forall other | ProbeKey(other) in a0 ensures ProbeAnnotation(g0, a0, u, other, y) {
      if other != field {
        assert ProbeAnnotation(g0, a0, v, other, x);
        ProbeKeepsOthers(g0, a0, v, u, x, field, other);
      }
    }
  }

  lemma ProbeUpdates(
    g0: HealthChecks, a0: map<string, Annotation>, v: ProbeView, x: Extent, field: ProbeField,
    order: seq<NamespacedName>)
    requires SameValues(a0, v.annotations) && Progress(g0, v.policies, WantedBy(a0), x.Pairs(WantedBy(a0)))
    requires ProbeKey(field) in a0 && Lists(order, x.services) && ProbeAnnotation(g0, a0, v, field, x)
    ensures var key := ProbeKey(field);
            var r := HandleProbe(v.policies, v.annotations[key], field, order);
            var failed := if r.failed then v.failed + {key} else v.failed;
            var u := ProbeView(r.policies, v.annotations[key := r.annotation], failed);
            && r.annotation.value == a0[key].value
            && Progress(g0, r.policies, WantedBy(a0), Marked(x, key).Pairs(WantedBy(a0)))
            && ProbeAnnotation(g0, a0, u, field, Marked(x, key))
  {
    hide KeyOf;
    hide Progress;
    hide ApplyProbe;
    hide Decode;
    var key, wanted := ProbeKey(field), WantedBy(a0);
    var a := v.annotations[key];
    PairsGrow(x, wanted, field);
    assert SetOf(order) == x.services;
    if field in wanted {
      ApplyProgresses(g0, v.policies, wanted, x.Pairs(wanted), field, a0[key], a, x.Visited(field), order);
      assert order == [] <==> x.services == {} by { assert |order| > 0 ==> order[0] in x.services; }
      assert x.Visited(field) + x.services == Marked(x, key).Visited(field);
    } else {
      assert x.Pairs(wanted) + {} == x.Pairs(wanted);
    }
  }

  // ---------- One pass ----------

  lemma SameServices(a: HTTPRoute, b: HTTPRoute)
    requires SameRouting(a, b)
    ensures RouteServices(a) == RouteServices(b)
  {
    hide Services;
    RefsOfBare(a.rules);
    RefsOfBare(b.rules);
  }

  lemma VisitOneKeepsState(
    env: Env, ingress: Ingress, sections: set<string>, schedule: Schedule, i: nat, p: Pass, key: string,
    g0: HealthChecks, a0: map<string, Annotation>, x: Extent)
    requires key in p.annotations && ProbeState(g0, a0, ViewOfPass(p), x) && RouteServices(p.route) == x.services
    requires Lists(schedule.services(i, key, x.services), x.services)
    ensures var r := VisitOne(env, ingress, sections, schedule, i, p, key);
            ProbeState(g0, a0, ViewOfPass(r), Marked(x, key)) && RouteServices(r.route) == x.services
  {
    hide Visit;
    hide KeyOf;
    hide HandleProbe;
    hide ProbeAnnotation;
    hide Progress;
    hide x.Pairs;
    var orders := OrdersAt(schedule, i, key, p.world, p.route);
    var a := p.annotations[key];
    VisitKeepsRouting(env, ingress, sections, p.world, p.route, key, a, orders);
    VisitKeepsValue(env, ingress, sections, p.world, p.route, key, a, orders);
    SameServices(Visit(env, ingress, sections, p.world, p.route, key, a, orders).route, p.route);
    if field :| key == ProbeKey(field) {
      ProbeVisit(env, ingress, sections, p.world, p.route, field, a, orders);
      ProbeStep(g0, a0, ViewOfPass(p), x, field, orders.services);
    } else {
      OtherVisit(env, ingress, sections, p.world, p.route, key, a, orders);
      OtherKeepsState(g0, a0, ViewOfPass(p), ViewOfPass(VisitOne(env, ingress, sections, schedule, i, p, key)), x, key);
    }
  }

  lemma {:induction false} VisitAllKeepsState(
    env: Env, ingress: Ingress, sections: set<string>, schedule: Schedule, i: nat, p: Pass, order: seq<string>,
    g0: HealthChecks, a0: map<string, Annotation>, x: Extent)
    requires ProbeState(g0, a0, ViewOfPass(p), x) && RouteServices(p.route) == x.services
    requires forall k | k in order :: k in p.annotations && Lists(schedule.services(i, k, x.services), x.services)
    ensures var r := VisitAll(env, ingress, sections, schedule, i, p, order);
            ProbeState(g0, a0, ViewOfPass(r), x.(done := x.done + SetOf(order))) && RouteServices(r.route) == x.services
  {
    hide VisitOne;
    hide ProbeState;
    hide Lists;
    if order == [] {
      assert x.done + SetOf(order) == x.done;
    } else {
      var init, last := order[..|order| - 1], order[|order| - 1];
      assert order == init + [last];
      VisitAllKeepsState(env, ingress, sections, schedule, i, p, init, g0, a0, x);
      VisitOneKeepsState(env, ingress, sections, schedule, i,
                         VisitAll(env, ingress, sections, schedule, i, p, init), last, g0, a0,
                         x.(done := x.done + SetOf(init)));
      assert x.done + SetOf(order) == (x.done + SetOf(init)) + {last};
    }
  }

  /** After a pass over all annotations the services of the pass count as visited. */
  lemma PassIsDone(g0: HealthChecks, a0: map<string, Annotation>, v: ProbeView, x: Extent)
    requires ProbeState(g0, a0, v, x) && a0.Keys <= x.done
    ensures ProbeState(g0, a0, v, Extent(x.base + x.services, {}, {}, true, x.empties || x.services == {}))
  {
    hide KeyOf;
    hide Progress;
    hide AnnotationAfter;
    hide MalformedAfter;
    hide Conflicting;
    var y := Extent(x.base + x.services, {}, {}, true, x.empties || x.services == {});
    var wanted := WantedBy(a0);
    assert y.Pairs(wanted) == x.Pairs(wanted) by {
      forall s, f ensures (s, f) in y.Pairs(wanted) <==> (s, f) in x.Pairs(wanted) {
      }
    }
    forall field | ProbeKey(field) in a0 ensures ProbeAnnotation(g0, a0, v, field, y) {
      assert ProbeAnnotation(g0, a0, v, field, x);
      assert y.Visited(field) == x.Visited(field);
    }
  }

  // ---------- One ingress ----------

  /** The services of the paths of a rule, but for the dropped ones. */
  function PathServices(paths: seq<IngressPath>, namespace: string): set<NamespacedName> {
    set p | p in paths && !Dropped(p) :: NamespacedName(namespace, p.backend.name)
  }

  lemma PathServicesSnoc(init: seq<IngressPath>, last: IngressPath, namespace: string)
    ensures PathServices(init + [last], namespace)
         == PathServices(init, namespace)
            + if Dropped(last) then {} else {NamespacedName(namespace, last.backend.name)}
  {
    var all := init + [last];
    assert forall p :: p in all <==> p in init || p == last;
    assert last in all;
  }

  lemma ServicesOfPath(p: IngressPath, namespace: string)
    requires !Dropped(p)
    ensures Services(Refs([TranslatePath(p)]), namespace) == {NamespacedName(namespace, p.backend.name)}
  {
    var rule := TranslatePath(p);
    assert [rule][..0] == [];
    assert Refs([rule]) == rule.backendRefs;
    assert rule.backendRefs[0] in rule.backendRefs;
  }

  lemma {:induction false} ServicesOfPaths(paths: seq<IngressPath>, namespace: string)
    ensures Services(Refs(TranslatePaths(paths)), namespace) == PathServices(paths, namespace)
  {
    if paths == [] {
      assert Refs(TranslatePaths(paths)) == [];
      hide *;
      NoServices(namespace);
    } else {
      var init, last := paths[..|paths| - 1], paths[|paths| - 1];
      hide Refs;
      hide Services;
      hide PathServices;
      hide TranslatePath;
      assert paths == init + [last];
      ServicesOfPaths(init, namespace);
      PathServicesSnoc(init, last, namespace);
      if !Dropped(last) {
        RefsOfConcat(TranslatePaths(init), [TranslatePath(last)]);
        ServicesOfConcat(Refs(TranslatePaths(init)), Refs([TranslatePath(last)]), namespace);
        ServicesOfPath(last, namespace);
      } else {
        assert TranslatePaths(paths) == TranslatePaths(init);
      }
    }
  }

  lemma NoServices(namespace: string)
    ensures Services([], namespace) == {} == PathServices([], namespace)
  {
  }

  lemma NoRefs()
    ensures Refs([]) == []
  {
  }

  /** The services behind the first `n` rules. */
  function IngressServices(ingress: Ingress, n: nat): set<NamespacedName>
    requires n <= |ingress.rules|
  {
    if n == 0 then {}
    else
      IngressServices(ingress, n - 1)
      + if ingress.rules[n - 1].http.Some?
        then PathServices(ingress.rules[n - 1].http.value, ingress.name.namespace) else {}
  }

  /** The services behind the first `n` rules of a host. */
  function HostServices(ingress: Ingress, host: string, n: nat): set<NamespacedName>
    requires n <= |ingress.rules|
  {
    if n == 0 then {}
    else
      HostServices(ingress, host, n - 1)
      + if ingress.rules[n - 1].host == host && ingress.rules[n - 1].http.Some?
        then PathServices(ingress.rules[n - 1].http.value, ingress.name.namespace) else {}
  }

  lemma {:induction false} ServicesOfHost(ingress: Ingress, host: string, n: nat)
    requires n <= |ingress.rules|
    ensures Services(Refs(HostRules(ingress, host, n)), ingress.name.namespace) == HostServices(ingress, host, n)
    ensures HostServices(ingress, host, n) <= IngressServices(ingress, n)
  {
    hide TranslatePaths;
    hide PathServices;
    hide Services;
    hide Refs;
    NoServices(ingress.name.namespace);
    NoRefs();
    if n > 0 {
      ServicesOfHost(ingress, host, n - 1);
      var rule, before := ingress.rules[n - 1], HostRules(ingress, host, n - 1);
      if rule.host == host && rule.http.Some? {
        var more := TranslatePaths(rule.http.value);
        RefsOfConcat(before, more);
        ServicesOfConcat(Refs(before), Refs(more), ingress.name.namespace);
        ServicesOfPaths(rule.http.value, ingress.name.namespace);
      } else {
        assert HostRules(ingress, host, n) == before;
      }
    }
  }

  /** Some rule with paths left its host without a single service. */
  predicate HasEmptyPass(ingress: Ingress, n: nat)
    requires n <= |ingress.rules|
  {
    n > 0 && (HasEmptyPass(ingress, n - 1)
              || (ingress.rules[n - 1].http.Some? && HostServices(ingress, ingress.rules[n - 1].host, n) == {}))
  }

  function ExtentOf(ingress: Ingress, n: nat): Extent
    requires n <= |ingress.rules|
  {
    Extent(IngressServices(ingress, n), {}, {}, HasPaths(ingress, n), HasEmptyPass(ingress, n))
  }

  /** The services behind the route when the annotations of rule `i` are visited. */
  lemma PassServices(env: Env, ingress: Ingress, s: IngressRun, i: nat)
    requires i < |ingress.rules| && ingress.rules[i].http.Some? && RoutesAreTranslations(env, ingress, s, i)
    ensures RouteServices(PassStart(env.naming, ingress, s, i).route)
         == HostServices(ingress, ingress.rules[i].host, i + 1)
    ensures PassStart(env.naming, ingress, s, i).world.graph.healthCheckPolicies == s.world.graph.healthCheckPolicies
  {
    hide Services;
    hide TranslatePaths;
    hide RouteFor;
    hide HostServices;
    hide RoutesAreTranslations;
    hide Bare;
    hide Refs;
    var rule := ingress.rules[i];
    RouteForHost(env, ingress, s, i);
    var (w, route) := RouteFor(env.naming, ingress, s, rule.host);
    BareOfConcat(route.rules, TranslatePaths(rule.http.value));
    TranslatedIsBare(rule.http.value);
    RefsOfBare(route.rules + TranslatePaths(rule.http.value));
    ServicesOfHost(ingress, rule.host, i + 1);
  }

  lemma RuleKeepsState(
    env: Env, ingress: Ingress, schedule: Schedule, s: IngressRun, i: nat, g0: HealthChecks,
    a0: map<string, Annotation>)
    requires i < |ingress.rules| && ValidSchedule(schedule, s.annotations.Keys)
    requires RoutesAreTranslations(env, ingress, s, i)
    requires ProbeState(g0, a0, ViewOfRun(s), ExtentOf(ingress, i))
    ensures ProbeState(g0, a0, ViewOfRun(HandleRule(env, ingress, schedule, s, i)), ExtentOf(ingress, i + 1))
  {
    hide VisitAll;
    hide TranslatePaths;
    hide PathServices;
    hide RoutesAreTranslations;
    if ingress.rules[i].http.Some? {
      var services := HostServices(ingress, ingress.rules[i].host, i + 1);
      var x := ExtentOf(ingress, i).(services := services);
      var start, order := PassStart(env.naming, ingress, s, i), schedule.annotations(i);
      PassServices(env, ingress, s, i);
      StateWithServices(g0, a0, ViewOfRun(s), ExtentOf(ingress, i), services);
      hide ProbeState;
      hide RouteFor;
      hide PassStart;
      VisitAllKeepsState(env, ingress, SectionsOf(start.route.parentRefs), schedule, i, start, order, g0, a0, x);
      assert a0.Keys <= x.done + SetOf(order) by { KeysAreVisited(g0, a0, ViewOfRun(s), ExtentOf(ingress, i), order); }
      PassIsDone(g0, a0, ViewOfPass(PassEnd(env, ingress, schedule, s, i)), x.(done := x.done + SetOf(order)));
      assert x.base + services == IngressServices(ingress, i + 1) by {
        ServicesOfHost(ingress, ingress.rules[i].host, i);
      }
    } else {
      NewRouteIsEmpty(env.naming, s.world, ingress, ingress.rules[i].host);
    }
  }

  /** The services of a pass count for nothing before the first visit. */
  lemma StateWithServices(
    g0: HealthChecks, a0: map<string, Annotation>, v: ProbeView, x: Extent, services: set<NamespacedName>)
    requires ProbeState(g0, a0, v, x) && x.done == {} && x.services == {}
    ensures ProbeState(g0, a0, v, x.(services := services))
  {
    hide KeyOf;
    hide Progress;
    hide AnnotationAfter;
    hide MalformedAfter;
    hide Conflicting;
    var y := x.(services := services);
    assert y.Pairs(WantedBy(a0)) == x.Pairs(WantedBy(a0));
    forall field | ProbeKey(field) in a0 ensures ProbeAnnotation(g0, a0, v, field, y) {
      assert ProbeAnnotation(g0, a0, v, field, x);
    }
  }

  lemma KeysAreVisited(g0: HealthChecks, a0: map<string, Annotation>, v: ProbeView, x: Extent, order: seq<string>)
    requires ProbeState(g0, a0, v, x) && Lists(order, v.annotations.Keys)
    ensures a0.Keys <= SetOf(order)
  {
  }

  lemma {:induction false} RulesKeepState(
    env: Env, ingress: Ingress, schedule: Schedule, s: IngressRun, n: nat)
    requires n <= |ingress.rules| && ValidSchedule(schedule, s.annotations.Keys) && s.routes == map[] && s.failed == {}
    ensures ProbeState(s.world.graph.healthCheckPolicies, s.annotations,
                       ViewOfRun(HandleRules(env, ingress, schedule, s, n)), ExtentOf(ingress, n))
  {
    hide HandleRule;
    hide ProbeState;
    hide ValidSchedule;
    hide RoutesAreTranslations;
    if n == 0 {
      StartState(s, ingress);
    } else {
      RulesKeepState(env, ingress, schedule, s, n - 1);
      TranslationsHold(env, ingress, schedule, s, n - 1);
      RuleKeepsState(env, ingress, schedule, HandleRules(env, ingress, schedule, s, n - 1), n - 1,
                     s.world.graph.healthCheckPolicies, s.annotations);
    }
  }

  lemma StartState(s: IngressRun, ingress: Ingress)
    requires s.failed == {}
    ensures ProbeState(s.world.graph.healthCheckPolicies, s.annotations, ViewOfRun(s), ExtentOf(ingress, 0))
  {
    hide KeyOf;
    var g, wanted := s.world.graph.healthCheckPolicies, WantedBy(s.annotations);
    NoProgress(g, wanted);
    assert ExtentOf(ingress, 0).Pairs(wanted) == {};
  }

  /** The health-check policies and probe annotations an ingress leaves behind, in closed form: every setting of every
      service is its old value if it had one, else the ingress's, and an annotation reports a conflict for exactly the
      services that held another value. */
  lemma ProbesOfIngress(env: Env, ingress: Ingress, schedule: Schedule, w: World, annotations: map<string, Annotation>)
    requires ValidSchedule(schedule, annotations.Keys)
    ensures ProbeState(
              w.graph.healthCheckPolicies, annotations,
              ViewOfRun(HandleIngress(env, ingress, schedule, w, annotations)), ExtentOf(ingress, |ingress.rules|))
  {
    hide HandleRules;
    hide ProbeState;
    GrantsOnly(w, ingress, |ingress.tls|);
    RulesKeepState(env, ingress, schedule, IngressStart(w, ingress, annotations), |ingress.rules|);
  }

  /** The closed form determines the policies, and the statuses, destinations, issues and errors of the probe
      annotations. */
  lemma StateIsDetermined(g0: HealthChecks, a0: map<string, Annotation>, v: ProbeView, u: ProbeView, x: Extent)
    requires ProbeState(g0, a0, v, x) && ProbeState(g0, a0, u, x)
    ensures v.policies == u.policies
    ensures forall field | ProbeKey(field) in a0 ::
              var key := ProbeKey(field);
              && key in v.annotations && key in u.annotations
              && v.annotations[key].status == u.annotations[key].status
              && v.annotations[key].destinations == u.annotations[key].destinations
              && SetOf(v.annotations[key].issues) == SetOf(u.annotations[key].issues)
              && (key in v.failed <==> key in u.failed)
  {
    hide KeyOf;
    hide Progress;
    hide Conflicting;
    hide Conflicts;
    hide ConfigOf;
    hide x.Pairs;
    ProgressUnique(g0, v.policies, u.policies, WantedBy(a0), x.Pairs(WantedBy(a0)));
    forall field | ProbeKey(field) in a0
      ensures var key := ProbeKey(field);
              && v.annotations[key].status == u.annotations[key].status
              && v.annotations[key].destinations == u.annotations[key].destinations
              && SetOf(v.annotations[key].issues) == SetOf(u.annotations[key].issues)
              && (key in v.failed <==> key in u.failed)
    {
      assert ProbeAnnotation(g0, a0, v, field, x) && ProbeAnnotation(g0, a0, u, field, x);
    }
  }

  /** Neither the order of the annotations nor that of the services matters to the health probes of an ingress, even
      when other annotations are visited in between. */
  lemma ProbesIgnoreOrder(
    env: Env, ingress: Ingress, s: Schedule, t: Schedule, w: World, annotations: map<string, Annotation>)
    requires ValidSchedule(s, annotations.Keys) && ValidSchedule(t, annotations.Keys)
    ensures var v := ViewOfRun(HandleIngress(env, ingress, s, w, annotations));
            var u := ViewOfRun(HandleIngress(env, ingress, t, w, annotations));
            && v.policies == u.policies
            && forall field | ProbeKey(field) in annotations ::
                 var key := ProbeKey(field);
                 && key in v.annotations && key in u.annotations
                 && v.annotations[key].status == u.annotations[key].status
                 && v.annotations[key].destinations == u.annotations[key].destinations
                 && (key in v.failed <==> key in u.failed)
  {
    hide HandleIngress;
    hide ProbeState;
    hide KeyOf;
    ProbesOfIngress(env, ingress, s, w, annotations);
    ProbesOfIngress(env, ingress, t, w, annotations);
    StateIsDetermined(w.graph.healthCheckPolicies, annotations,
                      ViewOfRun(HandleIngress(env, ingress, s, w, annotations)),
                      ViewOfRun(HandleIngress(env, ingress, t, w, annotations)), ExtentOf(ingress, |ingress.rules|));
  }

  // ---------- A whole run ----------

  /** The non-zero value an ingress gives a setting of a service, if any. */
  ghost function Gives(input: Input, service: NamespacedName, field: ProbeField): Option<ProbeValue> {
    var wanted := WantedBy(input.annotations);
    if service in IngressServices(input.ingress, |input.ingress.rules|) && field in wanted && !IsZero(wanted[field])
    then Some(wanted[field]) else None
  }

  /** The value held after one more ingress. */
  lemma FieldsOfPairs(x: Extent, wanted: Wanted, service: NamespacedName)
    requires x.done == {} && x.services == {}
    ensures FieldsOf(x.Pairs(wanted), service) == if service in x.base then wanted.Keys else {}
  {
    forall f ensures f in FieldsOf(x.Pairs(wanted), service) <==> service in x.base && f in wanted {
      assert (service, f) in x.Pairs(wanted) <==> service in x.base && f in wanted;
    }
  }

  lemma IngressWrites(
    env: Env, input: Input, schedule: Schedule, w: World, service: NamespacedName, field: ProbeField)
    requires ValidSchedule(schedule, input.annotations.Keys)
    ensures var before := Get(ConfigOf(w.graph.healthCheckPolicies, service), field);
            var r := HandleIngress(env, input.ingress, schedule, w, input.annotations);
            Get(ConfigOf(r.world.graph.healthCheckPolicies, service), field) ==
            if IsZero(before) && Gives(input, service, field).Some? then Gives(input, service, field).value else before
  {
    hide HandleIngress;
    hide ConfigOf;
    hide Filled;
    hide IngressServices;
    hide KeyOf;
    var g0, a0 := w.graph.healthCheckPolicies, input.annotations;
    var wanted := WantedBy(a0);
    var v := ViewOfRun(HandleIngress(env, input.ingress, schedule, w, a0));
    var x := ExtentOf(input.ingress, |input.ingress.rules|);
    ProbesOfIngress(env, input.ingress, schedule, w, a0);
    ProgressConfig(g0, v.policies, wanted, x.Pairs(wanted), service);
    FieldsOfPairs(x, wanted, service);
    FilledGet(ConfigOf(g0, service), wanted, FieldsOf(x.Pairs(wanted), service), field);
    ZeroIsOne(ConfigOf(g0, service), wanted, field);
  }

  /** Two zero values of one field are the same. */
  lemma ZeroIsOne(c: HealthCheckConfig, wanted: Wanted, field: ProbeField)
    requires WellFitted(wanted)
    ensures field in wanted && IsZero(wanted[field]) && IsZero(Get(c, field)) ==> wanted[field] == Get(c, field)
  {
    if field in wanted {
      assert Fits(field, wanted[field]);
    }
  }

  /** In sorted order, the first ingress to give a service a non-zero value sets it for good; without one it stays
      zero. */
  lemma {:induction false} FirstWriterWins(
    env: Env, inputs: map<NamespacedName, Input>, schedules: NamespacedName -> Schedule, w: World,
    order: seq<NamespacedName>,
    service: NamespacedName, field: ProbeField)
    requires ValidInput(inputs, schedules) && (forall k | k in order :: k in inputs)
    requires w.graph.healthCheckPolicies == map[]
    ensures var value := Get(ConfigOf(HandleIngresses(env, inputs, schedules, w, order).world.graph.healthCheckPolicies,
                                      service), field);
            && (forall j | 0 <= j < |order| && Gives(inputs[order[j]], service, field).Some?
                     && (forall i | 0 <= i < j :: Gives(inputs[order[i]], service, field).None?) ::
                  value == Gives(inputs[order[j]], service, field).value)
            && ((forall j | 0 <= j < |order| :: Gives(inputs[order[j]], service, field).None?) ==> IsZero(value))
            && ((exists j | 0 <= j < |order| :: Gives(inputs[order[j]], service, field).Some?) ==> !IsZero(value))
  {
    hide HandleIngress;
    hide ConfigOf;
    hide Gives;
    hide IsZero;
    hide Get;
    if order == [] {
      NoConfig(service, field);
    } else {
      var init, last := order[..|order| - 1], order[|order| - 1];
      assert order == init + [last] && last in order;
      FirstWriterWins(env, inputs, schedules, w, init, service, field);
      GivenIsNotZero(inputs[last], service, field);
      IngressWrites(env, inputs[last], schedules(last), HandleIngresses(env, inputs, schedules, w, init).world, service,
                    field);
    }
  }

  /** The value a conversion ends with: that of the first ingress, by namespace and name, to give one; else zero. */
  lemma ConvertFirstWriterWins(
    env: Env, options: Options, scrapedWAFID: string,
    inputs: map<NamespacedName, Input>, schedules: NamespacedName -> Schedule, listing: seq<NamespacedName>,
    service: NamespacedName, field: ProbeField)
    requires ValidInput(inputs, schedules) && Lists(listing, inputs.Keys)
    ensures var g := Convert(env, options, scrapedWAFID, inputs, schedules, listing).world.graph;
            var value := Get(ConfigOf(g.healthCheckPolicies, service), field);
            && (forall k | k in inputs && Gives(inputs[k], service, field).Some?
                     && (forall l | l in inputs && NameLess(l, k) :: Gives(inputs[l], service, field).None?) ::
                  value == Gives(inputs[k], service, field).value)
            && (IsZero(value) <==> forall k | k in inputs :: Gives(inputs[k], service, field).None?)
  {
    hide HandleIngresses;
    hide ConfigOf;
    hide Gives;
    hide IsZero;
    hide Get;
    hide Sort;
    hide NameLess;
    NameLessIsStrictOrder();
    SortOfListing(listing, listing, inputs.Keys, NameLess);
    var sorted := Sort(listing, NameLess);
    ListedOnce(sorted, inputs.Keys);
    FirstWriterWins(env, inputs, schedules, StartWorld(options, scrapedWAFID, sorted), sorted, service, field);
    forall k | k in inputs && Gives(inputs[k], service, field).Some?
               && (forall l | l in inputs && NameLess(l, k) :: Gives(inputs[l], service, field).None?)
      ensures exists j :: 0 <= j < |sorted| && sorted[j] == k &&
                          forall i | 0 <= i < j :: Gives(inputs[sorted[i]], service, field).None?
    {
      var j := PlaceOf(sorted, k);
      assert forall i | 0 <= i < j :: Gives(inputs[sorted[i]], service, field).None?;
    }
  }

  lemma PlaceOf(sorted: seq<NamespacedName>, k: NamespacedName) returns (j: nat)
    requires k in sorted && StrictlySorted(sorted, NameLess)
    ensures j < |sorted| && sorted[j] == k && forall i | 0 <= i < j :: NameLess(sorted[i], k)
  {
    hide NameLess;
    j :| j < |sorted| && sorted[j] == k;
  }

  lemma NoConfig(service: NamespacedName, field: ProbeField)
    ensures IsZero(Get(ConfigOf(map[], service), field))
  {
  }

  lemma GivenIsNotZero(input: Input, service: NamespacedName, field: ProbeField)
    ensures Gives(input, service, field).Some? ==> !IsZero(Gives(input, service, field).value)
  {
  }

  /** An ingress with fresh annotations reports a conflict on a service exactly when it uses the service, asks for a
      value, and the service already holds a different non-zero one. */
  lemma ConflictExactly(
    env: Env, input: Input, schedule: Schedule, w: World, service: NamespacedName, field: ProbeField)
    requires ValidSchedule(schedule, input.annotations.Keys)
    requires ProbeKey(field) in input.annotations && input.annotations[ProbeKey(field)].issues == []
    requires Decode(field, input.annotations[ProbeKey(field)].value).Some?
    ensures var held := Get(ConfigOf(w.graph.healthCheckPolicies, service), field);
            var asked := Decode(field, input.annotations[ProbeKey(field)].value).value;
            var r := HandleIngress(env, input.ingress, schedule, w, input.annotations);
            Issue(HealthCheckConflict, Some(NamespacedName(service.namespace, service.name + "-policy")))
            in r.annotations[ProbeKey(field)].issues <==>
            service in IngressServices(input.ingress, |input.ingress.rules|) && !IsZero(held) && held != asked
  {
    hide HandleIngress;
    hide IngressServices;
    hide KeyOf;
    hide Progress;
    hide Decode;
    hide Get;
    var g0, a0 := w.graph.healthCheckPolicies, input.annotations;
    var v := ViewOfRun(HandleIngress(env, input.ingress, schedule, w, a0));
    var x := ExtentOf(input.ingress, |input.ingress.rules|);
    ProbesOfIngress(env, input.ingress, schedule, w, a0);
    assert ProbeAnnotation(g0, a0, v, field, x);
    assert field in WantedBy(a0);
    var key, wanted := ProbeKey(field), WantedBy(a0);
    var conflicting := Conflicting(g0, field, wanted[field], x.Visited(field));
    assert SetOf(a0[key].issues) == {};
    assert ConflictIssue(service) in v.annotations[key].issues <==>
             ConflictIssue(service) in SetOf(v.annotations[key].issues);
    assert ConflictIssue(service) in ConflictIssues(conflicting) <==> service in conflicting by {
      ConflictIssueInjective(conflicting, service);
    }
  }

  /** The first of the first `n` ingresses to give a service a value, if there is one. */
  ghost predicate FirstGiver(
    inputs: map<NamespacedName, Input>, order: seq<NamespacedName>, n: nat, service: NamespacedName, field: ProbeField,
    i: nat)
    requires n <= |order| && forall k | k in order :: k in inputs
  {
    && i < n && Gives(inputs[order[i]], service, field).Some?
    && forall h | 0 <= h < i :: Gives(inputs[order[h]], service, field).None?
  }

  /** Over a run: an ingress reports a conflict on a service exactly when it uses the service and the first of the
      ingresses before it to give a value gave another one. */
  lemma RunConflictExactly(
    env: Env, inputs: map<NamespacedName, Input>, schedules: NamespacedName -> Schedule, w: World,
    order: seq<NamespacedName>,
    j: nat, service: NamespacedName, field: ProbeField)
    requires ValidInput(inputs, schedules) && (forall k | k in order :: k in inputs) && NoDuplicates(order)
    requires j < |order|
    requires w.graph.healthCheckPolicies == map[]
    requires order[j] in inputs && ProbeKey(field) in inputs[order[j]].annotations
    requires inputs[order[j]].annotations[ProbeKey(field)].issues == []
    requires Decode(field, inputs[order[j]].annotations[ProbeKey(field)].value).Some?
    ensures var input, results := inputs[order[j]], HandleIngresses(env, inputs, schedules, w, order).results;
            var asked := Decode(field, input.annotations[ProbeKey(field)].value).value;
            && order[j] in results && ProbeKey(field) in results[order[j]].annotations
            && (Issue(HealthCheckConflict, Some(NamespacedName(service.namespace, service.name + "-policy")))
                in results[order[j]].annotations[ProbeKey(field)].issues <==>
                && service in IngressServices(input.ingress, |input.ingress.rules|)
                && exists i: nat :: FirstGiver(inputs, order, j, service, field, i)
                                    && Gives(inputs[order[i]], service, field).value != asked)
  {
    hide HandleIngress;
    hide HandleIngresses;
    hide Gives;
    hide Decode;
    hide Get;
    hide IsZero;
    hide ConfigOf;
    hide KeyOf;
    hide IngressServices;
    hide ValidSchedule;
    hide FirstGiver;
    var before := HandleIngresses(env, inputs, schedules, w, order[..j]).world;
    ResultAt(env, inputs, schedules, w, order, j);
    HeldByFirstGiver(env, inputs, schedules, w, order, j, service, field);
    ConflictExactly(env, inputs[order[j]], schedules(order[j]), before, service, field);
  }

  /** What a service holds after the first `n` ingresses is what the first giver among them gave. */
  lemma HeldByFirstGiver(
    env: Env, inputs: map<NamespacedName, Input>, schedules: NamespacedName -> Schedule, w: World,
    order: seq<NamespacedName>,
    n: nat, service: NamespacedName, field: ProbeField)
    requires ValidInput(inputs, schedules) && (forall k | k in order :: k in inputs) && n <= |order|
    requires w.graph.healthCheckPolicies == map[]
    ensures var g := HandleIngresses(env, inputs, schedules, w, order[..n]).world.graph.healthCheckPolicies;
            var held := Get(ConfigOf(g, service), field);
            && (forall i: nat | FirstGiver(inputs, order, n, service, field, i) ::
                  !IsZero(held) && held == Gives(inputs[order[i]], service, field).value)
            && (!IsZero(held) ==> exists i: nat :: FirstGiver(inputs, order, n, service, field, i))
  {
    hide HandleIngresses;
    hide Gives;
    hide Get;
    hide IsZero;
    hide ConfigOf;
    hide ValidInput;
    var given := order[..n];
    FirstWriterWins(env, inputs, schedules, w, given, service, field);
    forall i: nat | FirstGiver(inputs, order, n, service, field, i)
      ensures 0 <= i < |given| && given[i] == order[i] && Gives(inputs[given[i]], service, field).Some?
      ensures forall h | 0 <= h < i :: Gives(inputs[given[h]], service, field).None?
    {
    }
    if j :| 0 <= j < |given| && Gives(inputs[given[j]], service, field).Some? {
      var first := FirstGiverExists(inputs, order, n, service, field, j);
    }
  }

  lemma {:induction false} FirstGiverExists(
    inputs: map<NamespacedName, Input>, order: seq<NamespacedName>, n: nat, service: NamespacedName, field: ProbeField,
    i: nat)
    returns (first: nat)
    requires n <= |order| && (forall k | k in order :: k in inputs)
    requires i < n && Gives(inputs[order[i]], service, field).Some?
    ensures FirstGiver(inputs, order, n, service, field, first)
    decreases i
  {
    hide Gives;
    if h :| 0 <= h < i && Gives(inputs[order[h]], service, field).Some? {
      first := FirstGiverExists(inputs, order, n, service, field, h);
    } else {
      first := i;
    }
  }

  lemma ConflictIssueInjective(services: set<NamespacedName>, service: NamespacedName)
    ensures ConflictIssue(service) in ConflictIssues(services) <==> service in services
  {
    hide PolicyName;
    if s :| s in services && ConflictIssue(s) == ConflictIssue(service) {
      PolicyNameInjective(s, service);
    }
  }

  /** The health-check policies of a whole run do not depend on any map order, although the rest of the output may. */
  lemma {:induction false} RunIgnoresSchedules(
    env: Env, inputs: map<NamespacedName, Input>, s: NamespacedName -> Schedule, t: NamespacedName -> Schedule,
    v: World, w: World, order: seq<NamespacedName>)
    requires ValidInput(inputs, s) && ValidInput(inputs, t) && (forall k | k in order :: k in inputs)
    requires v.graph.healthCheckPolicies == w.graph.healthCheckPolicies
    ensures HandleIngresses(env, inputs, s, v, order).world.graph.healthCheckPolicies
         == HandleIngresses(env, inputs, t, w, order).world.graph.healthCheckPolicies
  {
    hide HandleIngress;
    hide ProbeState;
    if order != [] {
      var init, last := order[..|order| - 1], order[|order| - 1];
      assert last in order;
      RunIgnoresSchedules(env, inputs, s, t, v, w, init);
      var v1, w1 := HandleIngresses(env, inputs, s, v, init).world, HandleIngresses(env, inputs, t, w, init).world;
      var input := inputs[last];
      ProbesOfIngress(env, input.ingress, s(last), v1, input.annotations);
      ProbesOfIngress(env, input.ingress, t(last), w1, input.annotations);
      StateIsDetermined(v1.graph.healthCheckPolicies, input.annotations,
                        ViewOfRun(HandleIngress(env, input.ingress, s(last), v1, input.annotations)),
                        ViewOfRun(HandleIngress(env, input.ingress, t(last), w1, input.annotations)),
                        ExtentOf(input.ingress, |input.ingress.rules|));
    }
  }
}
