/** The rewrites of a whole ingress: what the filters of a finished rule say, pass by pass. */
module RuleSetRuns {
  import opened Text
  import opened Ordering
  import opened Annotations
  import opened Resources
  import opened Gateways
  import opened Filters
  import opened RuleSets
  import opened Probes
  import opened BackendTLS
  import opened Handlers
  import opened Ingresses
  import opened Routing

  /** What the handlers write into the filters of a rule: the header modifiers, and the three parts of a URL rewrite. */
  datatype Marks = Marks(
    request: Option<HeaderFilter>, response: Option<HeaderFilter>, fullPath: Option<string>, prefix: Option<string>,
    hostname: Option<string>)

  const NO_MARKS := Marks(None, None, None, None, None)

  /** What the annotations of an ingress ask for. */
  datatype Asks = Asks(ruleSet: Option<seq<RewriteRule>>, prefix: Option<string>, hostname: Option<string>)

  const NOTHING := Asks(None, None, None)

  function PathOf(url: Option<URLRewrite>): PathModifier {
    if url.Some? && url.value.path.Some? then url.value.path.value else NO_PATH_MODIFIER
  }

  function MarksOf(filters: seq<Filter>): Marks {
    var e := EffectsOf(filters);
    Marks(e.request, e.response, PathOf(e.url).fullPath, PathOf(e.url).prefixMatch,
          if e.url.Some? then e.url.value.hostname else None)
  }

  /** The latter of two settings that is there. */
  function Latest(before: Option<string>, now: Option<string>): Option<string> {
    if now.Some? then now else before
  }

  /** One more pass; None is a missing annotation or resource. */
  function Marked(m: Marks, asks: Asks): Marks {
    match asks.ruleSet
    case None => m.(prefix := Latest(m.prefix, asks.prefix), hostname := Latest(m.hostname, asks.hostname))
    case Some(rules) =>
      Marks(
        AddHeaders(m.request, AllConfigs(rules, |rules|, true)),
        AddHeaders(m.response, AllConfigs(rules, |rules|, false)),
        Latest(m.fullPath, LastPath(rules, |rules|)), Latest(m.prefix, asks.prefix), Latest(m.hostname, asks.hostname))
  }

  function MarkedTimes(asks: Asks, times: nat): Marks {
    if times == 0 then NO_MARKS else Marked(MarkedTimes(asks, times - 1), asks)
  }

  /** The header modifier after some passes: every list once per pass. */
  function HeadersTimes(configs: seq<HeaderConfiguration>, times: nat): Option<HeaderFilter> {
    if times == 0 || (SetHeaders(configs) == [] && DeletedHeaders(configs) == []) then None
    else Some(HeaderFilter(Repeated(SetHeaders(configs), times), Repeated(DeletedHeaders(configs), times)))
  }

  lemma OneMoreTime(configs: seq<HeaderConfiguration>, times: nat)
    ensures AddHeaders(HeadersTimes(configs, times), configs) == HeadersTimes(configs, times + 1)
  {
    hide SetHeaders;
    hide DeletedHeaders;
    var sets, deletes := SetHeaders(configs), DeletedHeaders(configs);
    assert Repeated(sets, 0) == [] && Repeated(deletes, 0) == [];
  }

  /** The headers of a rule set after some passes. */
  function HeadersFor(ruleSet: Option<seq<RewriteRule>>, request: bool, times: nat): Option<HeaderFilter> {
    match ruleSet
    case None => None
    case Some(rules) => HeadersTimes(AllConfigs(rules, |rules|, request), times)
  }

  /** The marks after at least one pass in closed form: every header once per pass, and the last path, the prefix
      and the hostname. */
  function FinalMarks(asks: Asks, times: nat): Marks {
    Marks(
      HeadersFor(asks.ruleSet, true, times), HeadersFor(asks.ruleSet, false, times),
      if asks.ruleSet.Some? then LastPath(asks.ruleSet.value, |asks.ruleSet.value|) else None,
      asks.prefix, asks.hostname)
  }

  /** The headers pile up with each pass, the rest does not. */
  lemma {:induction false} MarkedTimesIs(asks: Asks, times: nat)
    ensures MarkedTimes(asks, times) == if times == 0 then NO_MARKS else FinalMarks(asks, times)
  {
    hide AddHeaders;
    hide AllConfigs;
    hide LastPath;
    hide HeadersTimes;
    if times > 0 {
      MarkedTimesIs(asks, times - 1);
      match asks.ruleSet {
        case None =>
        case Some(rules) =>
          OneMoreTime(AllConfigs(rules, |rules|, true), times - 1);
          OneMoreTime(AllConfigs(rules, |rules|, false), times - 1);
          NoTimes(AllConfigs(rules, |rules|, true));
          NoTimes(AllConfigs(rules, |rules|, false));
      }
    }
  }

  lemma NoTimes(configs: seq<HeaderConfiguration>)
    ensures HeadersTimes(configs, 0) == None
  {
  }

  /** A route with two rules of its host sets a header of its first rule twice. */
  lemma SecondPassDoubles(header: Header)
    ensures var configs := [HeaderConfiguration("set", header.name, header.value)];
            HeadersTimes(configs, 2) == Some(HeaderFilter([header, header], []))
  {
    var c := HeaderConfiguration("set", header.name, header.value);
    assert ToLower("set") == "set" && ToLower("set") != "delete";
    assert [c][..0] == [];
    assert SetHeaders([c]) == [header] && DeletedHeaders([c]) == [];
    assert Repeated([header], 0) == [] && Repeated([header], 1) == [header]
           && Repeated([header], 2) == [header, header];
    assert Repeated<string>([], 0) == [] && Repeated<string>([], 1) == [] && Repeated<string>([], 2) == [];
  }

  // ---------- One annotation ----------

  /** What one annotation asks for. */
  function AskedBy(env: Env, ingress: Ingress, key: string, value: string): Asks {
    if key == AppGW("rewrite-rule-set-custom-resource") then
      var name := NamespacedName(ingress.name.namespace, value);
      NOTHING.(ruleSet := if name in env.rewrites then Some(env.rewrites[name]) else None)
    else if key == AppGW("backend-path-prefix") then NOTHING.(prefix := Some(value))
    else if key == AppGW("backend-hostname") then NOTHING.(hostname := Some(value))
    else NOTHING
  }

  /** What those of the annotations ask for whose keys are listed. */
  function Asked(env: Env, ingress: Ingress, annotations: map<string, Annotation>, keys: seq<string>): Asks
    requires forall k | k in keys :: k in annotations
  {
    if keys == [] then NOTHING
    else
      var last := keys[|keys| - 1];
      Both(Asked(env, ingress, annotations, keys[..|keys| - 1]), AskedBy(env, ingress, last, annotations[last].value))
  }

  function Both(a: Asks, b: Asks): Asks {
    Asks(if b.ruleSet.Some? then b.ruleSet else a.ruleSet, Latest(a.prefix, b.prefix), Latest(a.hostname, b.hostname))
  }

  /** What all of the annotations ask for, whatever order they are listed in. */
  function AskedByAll(env: Env, ingress: Ingress, annotations: map<string, Annotation>): Asks {
    var ruleSet, prefix, hostname :=
      AppGW("rewrite-rule-set-custom-resource"), AppGW("backend-path-prefix"), AppGW("backend-hostname");
    Asks(
      if ruleSet in annotations && NamespacedName(ingress.name.namespace, annotations[ruleSet].value) in env.rewrites
      then Some(env.rewrites[NamespacedName(ingress.name.namespace, annotations[ruleSet].value)]) else None,
      if prefix in annotations then Some(annotations[prefix].value) else None,
      if hostname in annotations then Some(annotations[hostname].value) else None)
  }

  lemma KeysApart()
    ensures AppGW("rewrite-rule-set-custom-resource") != AppGW("backend-path-prefix")
    ensures AppGW("rewrite-rule-set-custom-resource") != AppGW("backend-hostname")
    ensures AppGW("backend-path-prefix") != AppGW("backend-hostname")
  {
    hide KeyOf;
    Keys();
    var r, p, h := RewriteRuleSetCustomResource, BackendPathPrefix, BackendHostname;
    if KeyOf(r) == KeyOf(p) { KeysDiffer(r, p); }
    if KeyOf(r) == KeyOf(h) { KeysDiffer(r, h); }
    if KeyOf(p) == KeyOf(h) { KeysDiffer(p, h); }
  }

  /** What the listed annotations ask for is what those of the three that are listed ask for. */
  lemma {:induction false} AskedIs(env: Env, ingress: Ingress, annotations: map<string, Annotation>, keys: seq<string>)
    requires NoDuplicates(keys) && forall k | k in keys :: k in annotations
    ensures var asks, all := Asked(env, ingress, annotations, keys), AskedByAll(env, ingress, annotations);
            && asks.ruleSet == (if AppGW("rewrite-rule-set-custom-resource") in keys then all.ruleSet else None)
            && asks.prefix == (if AppGW("backend-path-prefix") in keys then all.prefix else None)
            && asks.hostname == (if AppGW("backend-hostname") in keys then all.hostname else None)
  {
    hide AppGW;
    KeysApart();
    if keys != [] {
      var init, last := keys[..|keys| - 1], keys[|keys| - 1];
      assert keys == init + [last];
      AskedIs(env, ingress, annotations, init);
    }
  }

  /** The rules of a route with the marks of one more pass. */
  ghost predicate MarkedRules(before: seq<RouteRule>, after: seq<RouteRule>, asks: Asks) {
    && |after| == |before|
    && forall i | 0 <= i < |before| :: MarksOf(after[i].filters) == Marked(MarksOf(before[i].filters), asks)
  }

  lemma RewriteMarks(rules: seq<RouteRule>, op: FilterOp)
    requires op.RewritePrefix? || op.RewriteHostname?
    ensures MarkedRules(rules, ApplyOp(rules, op),
                        if op.RewritePrefix? then NOTHING.(prefix := Some(op.value))
                        else NOTHING.(hostname := Some(op.value)))
  {
    hide EffectsOf;
    hide Upsert;
    forall i | 0 <= i < |rules|
      ensures EffectsOf(ApplyOp(rules, op)[i].filters) == AfterOp(EffectsOf(rules[i].filters), op)
    {
      StepOnEffects(rules[i].filters, op);
    }
  }

  lemma RuleSetMarks(rules: seq<RouteRule>, a: Annotation, ruleSet: Option<seq<RewriteRule>>)
    ensures MarkedRules(rules, HandleRuleSet(rules, a, ruleSet).rules, NOTHING.(ruleSet := ruleSet))
  {
    hide EffectsOf;
    hide PerformAll;
    hide AddHeaders;
    hide LastPath;
    hide AllConfigs;
    hide AnyUnsupported;
    if ruleSet.Some? {
      RuleSetRefinement(rules, a, ruleSet.value);
    }
  }

  lemma VisitMarks(
    env: Env, ingress: Ingress, sections: set<string>, w: World, route: HTTPRoute, key: string, a: Annotation,
    orders: Orders)
    ensures MarkedRules(route.rules, Visit(env, ingress, sections, w, route, key, a, orders).route.rules,
                        AskedBy(env, ingress, key, a.value))
  {
    hide HandlerFor;
    hide KeyOf;
    hide AppGW;
    hide ParseInt;
    hide ApplyOp;
    hide HandleRuleSet;
    hide HandleProbe;
    hide HandleProtocol;
    hide HostNames;
    hide Split;
    hide ApplyProfile;
    hide MarkedRules;
    Keys();
    KeysApart();
    Dispatch(key, RewriteRuleSetCustomResource);
    Dispatch(key, BackendPathPrefix);
    Dispatch(key, BackendHostname);
    NothingMarked(route.rules);
    if key != LAST_APPLIED && HandlerFor(key).Some? {
      match HandlerFor(key).value {
        case HostnameExtension =>
          ExtendKeepsRouting(env.naming, ingress, sections, w, route, HostNames(Split(a.value, ',')));
        case BackendHostname => RewriteMarks(route.rules, RewriteHostname(a.value));
        case BackendPathPrefix => RewriteMarks(route.rules, RewritePrefix(a.value));
        case RewriteRuleSetCustomResource => RuleSetMarks(route.rules, a, RuleSetOf(env, ingress, a));
        case _ =>
      }
    }
  }

  lemma NothingMarked(rules: seq<RouteRule>)
    ensures MarkedRules(rules, rules, NOTHING)
  {
  }

  lemma MarkedOnce(a: seq<RouteRule>, b: seq<RouteRule>, c: seq<RouteRule>, first: Asks, second: Asks)
    requires MarkedRules(a, b, first) && MarkedRules(b, c, second)
    requires first.ruleSet == None || second.ruleSet == None
    ensures MarkedRules(a, c, Both(first, second))
  {
    hide MarksOf;
    hide AddHeaders;
  }

  /** One pass over the annotations applies each rewrite once, wherever it comes up. */
  lemma {:induction false} VisitAllMarks(
    env: Env, ingress: Ingress, sections: set<string>, schedule: Schedule, i: nat, p: Pass, order: seq<string>)
    requires NoDuplicates(order) && forall k | k in order :: k in p.annotations
    ensures var r := VisitAll(env, ingress, sections, schedule, i, p, order);
            && MarkedRules(p.route.rules, r.route.rules, Asked(env, ingress, p.annotations, order))
            && SameValues(p.annotations, r.annotations)
  {
    hide Visit;
    hide AppGW;
    hide MarkedRules;
    if order == [] {
      NothingMarked(p.route.rules);
    } else {
      var init, last := order[..|order| - 1], order[|order| - 1];
      assert order == init + [last];
      VisitAllMarks(env, ingress, sections, schedule, i, p, init);
      var q := VisitAll(env, ingress, sections, schedule, i, p, init);
      var orders := OrdersAt(schedule, i, last, q.world, q.route);
      VisitMarks(env, ingress, sections, q.world, q.route, last, q.annotations[last], orders);
      VisitKeepsValue(env, ingress, sections, q.world, q.route, last, q.annotations[last], orders);
      AskedIs(env, ingress, p.annotations, init);
      MarkedOnce(p.route.rules, q.route.rules, VisitOne(env, ingress, sections, schedule, i, q, last).route.rules,
                 Asked(env, ingress, p.annotations, init), AskedBy(env, ingress, last, p.annotations[last].value));
    }
  }

  // ---------- One ingress ----------

  /** In how many passes rule `k` of a host's route has taken part. */
  function TakesPart(ingress: Ingress, host: string, n: nat, k: nat): nat
    requires n <= |ingress.rules|
  {
    if n == 0 then 0
    else
      var rule := ingress.rules[n - 1];
      TakesPart(ingress, host, n - 1, k)
      + if rule.host == host && rule.http.Some? && k < |HostRules(ingress, host, n)| then 1 else 0
  }

  lemma {:induction false} NotYet(ingress: Ingress, host: string, n: nat, k: nat)
    requires n <= |ingress.rules| && k >= |HostRules(ingress, host, n)|
    ensures TakesPart(ingress, host, n, k) == 0
  {
    if n > 0 {
      NotYet(ingress, host, n - 1, k);
    }
  }

  /** A rule that came with rule `i` of the ingress takes part in that pass and all later ones of its host. */
  lemma {:induction false} TakesPartSince(ingress: Ingress, host: string, n: nat, k: nat, i: nat)
    requires i < n <= |ingress.rules|
    requires |HostRules(ingress, host, i)| <= k < |HostRules(ingress, host, i + 1)|
    ensures k < |HostRules(ingress, host, n)|
    ensures TakesPart(ingress, host, n, k) == Passes(ingress, host, n) - Passes(ingress, host, i)
  {
    hide TranslatePaths;
    if n == i + 1 {
      NotYet(ingress, host, i, k);
    } else {
      TakesPartSince(ingress, host, n - 1, k, i);
    }
  }

  /** A rule takes part in the pass it comes with. */
  lemma {:induction false} TakesPartOnce(ingress: Ingress, host: string, n: nat, k: nat)
    requires n <= |ingress.rules| && k < |HostRules(ingress, host, n)|
    ensures TakesPart(ingress, host, n, k) > 0
  {
    hide TranslatePaths;
    if k < |HostRules(ingress, host, n - 1)| {
      TakesPartOnce(ingress, host, n - 1, k);
    }
  }

  /** Every rule of every route has been marked once for each pass it took part in. */
  ghost predicate MarksSoFar(ingress: Ingress, asks: Asks, s: IngressRun, n: nat)
    requires n <= |ingress.rules|
  {
    forall h | h in s.routes :: MarksOfRoute(ingress, asks, h, s.routes[h].rules, n)
  }

  ghost predicate MarksOfRoute(
    ingress: Ingress, asks: Asks, host: string, rules: seq<RouteRule>, n: nat)
    requires n <= |ingress.rules|
  {
    && |rules| == |HostRules(ingress, host, n)|
    && forall k | 0 <= k < |rules| :: MarksOf(rules[k].filters) == MarkedTimes(asks, TakesPart(ingress, host, n, k))
  }

  /** The rules of a route at the end of a pass. */
  lemma PassMarks(env: Env, ingress: Ingress, schedule: Schedule, s: IngressRun, i: nat)
    requires i < |ingress.rules| && ingress.rules[i].http.Some? && ValidSchedule(schedule, s.annotations.Keys)
    ensures var p := PassEnd(env, ingress, schedule, s, i);
            && MarkedRules(RouteFor(env.naming, ingress, s, ingress.rules[i].host).1.rules
                           + TranslatePaths(ingress.rules[i].http.value),
                           p.route.rules, AskedByAll(env, ingress, s.annotations))
            && SameValues(s.annotations, p.annotations)
  {
    hide VisitAll;
    hide RouteFor;
    hide TranslatePaths;
    hide AppGW;
    hide MarkedRules;
    var start, order := PassStart(env.naming, ingress, s, i), schedule.annotations(i);
    assert Lists(order, s.annotations.Keys);
    VisitAllMarks(env, ingress, SectionsOf(start.route.parentRefs), schedule, i, start, order);
    AskedIs(env, ingress, s.annotations, order);
    assert Asked(env, ingress, s.annotations, order) == AskedByAll(env, ingress, s.annotations);
  }

  lemma {:induction false} TranslatedAreUnmarked(paths: seq<IngressPath>)
    ensures forall r | r in TranslatePaths(paths) :: MarksOf(r.filters) == NO_MARKS
  {
    if paths != [] {
      TranslatedAreUnmarked(paths[..|paths| - 1]);
    }
    assert MarksOf([]) == NO_MARKS;
  }

  /** One more pass on the route of its host. */
  lemma MarksOfPass(
    ingress: Ingress, asks: Asks, i: nat, before: seq<RouteRule>, after: seq<RouteRule>)
    requires i < |ingress.rules| && ingress.rules[i].http.Some?
    requires MarksOfRoute(ingress, asks, ingress.rules[i].host, before, i)
    requires MarkedRules(before + TranslatePaths(ingress.rules[i].http.value), after, asks)
    ensures MarksOfRoute(ingress, asks, ingress.rules[i].host, after, i + 1)
  {
    hide MarksOf;
    hide TranslatePaths;
    var host, paths := ingress.rules[i].host, TranslatePaths(ingress.rules[i].http.value);
    TranslatedAreUnmarked(ingress.rules[i].http.value);
    forall k | 0 <= k < |after|
      ensures MarksOf(after[k].filters) == MarkedTimes(asks, TakesPart(ingress, host, i + 1, k))
    {
      if k >= |before| {
        NotYet(ingress, host, i, k);
        assert (before + paths)[k] == paths[k - |before|] && paths[k - |before|] in paths;
      }
    }
  }

  lemma OtherRuleMarks(ingress: Ingress, asks: Asks, host: string, rules: seq<RouteRule>, i: nat)
    requires i < |ingress.rules| && (ingress.rules[i].host != host || ingress.rules[i].http.None?)
    requires MarksOfRoute(ingress, asks, host, rules, i)
    ensures MarksOfRoute(ingress, asks, host, rules, i + 1)
  {
    hide MarksOf;
    forall k | 0 <= k < |rules| ensures TakesPart(ingress, host, i + 1, k) == TakesPart(ingress, host, i, k) {
    }
  }

  lemma RuleMarks(
    env: Env, ingress: Ingress, schedule: Schedule, asks: Asks, s: IngressRun, i: nat)
    requires i < |ingress.rules| && ValidSchedule(schedule, s.annotations.Keys)
    requires RoutesAreTranslations(env, ingress, s, i)
    requires AskedByAll(env, ingress, s.annotations) == asks && MarksSoFar(ingress, asks, s, i)
    ensures var r := HandleRule(env, ingress, schedule, s, i);
            MarksSoFar(ingress, asks, r, i + 1) && AskedByAll(env, ingress, r.annotations) == asks
  {
    hide PassEnd;
    hide RouteFor;
    hide HandleRule;
    hide MarksOfRoute;
    hide MarkedRules;
    hide AppGW;
    hide ValidSchedule;
    hide TranslatePaths;
    var host := ingress.rules[i].host;
    var (w, route) := RouteFor(env.naming, ingress, s, host);
    MarksOfRouteAtHand(env, ingress, asks, s, i);
    if ingress.rules[i].http.Some? {
      MigratedRule(env, ingress, schedule, s, i, w, route);
      PassMarks(env, ingress, schedule, s, i);
      MarksOfPass(ingress, asks, i, route.rules, PassEnd(env, ingress, schedule, s, i).route.rules);
    } else {
      PathlessRule(env, ingress, schedule, s, i, w, route);
      OtherRuleMarks(ingress, asks, host, route.rules, i);
    }
    forall h | h in s.routes && h != host
      ensures MarksOfRoute(ingress, asks, h, s.routes[h].rules, i + 1)
    {
      OtherRuleMarks(ingress, asks, h, s.routes[h].rules, i);
    }
  }

  lemma MarksOfRouteAtHand(env: Env, ingress: Ingress, asks: Asks, s: IngressRun, i: nat)
    requires i < |ingress.rules| && RoutesAreTranslations(env, ingress, s, i) && MarksSoFar(ingress, asks, s, i)
    ensures var host := ingress.rules[i].host;
            MarksOfRoute(ingress, asks, host, RouteFor(env.naming, ingress, s, host).1.rules, i)
  {
    hide NewRoute;
    hide MarksOf;
    var host := ingress.rules[i].host;
    NewRouteIsEmpty(env.naming, s.world, ingress, host);
    if host !in s.routes {
      NoRulesBefore(ingress, host, i);
    }
  }

  lemma {:induction false} MarksHold(env: Env, ingress: Ingress, schedule: Schedule, s: IngressRun, n: nat)
    requires n <= |ingress.rules| && ValidSchedule(schedule, s.annotations.Keys) && s.routes == map[]
    ensures var r, asks := HandleRules(env, ingress, schedule, s, n), AskedByAll(env, ingress, s.annotations);
            MarksSoFar(ingress, asks, r, n) && AskedByAll(env, ingress, r.annotations) == asks
  {
    hide HandleRule;
    hide AskedByAll;
    hide ValidSchedule;
    hide MarksOfRoute;
    hide RoutesAreTranslations;
    if n > 0 {
      MarksHold(env, ingress, schedule, s, n - 1);
      TranslationsHold(env, ingress, schedule, s, n - 1);
      RuleMarks(env, ingress, schedule, AskedByAll(env, ingress, s.annotations),
                HandleRules(env, ingress, schedule, s, n - 1), n - 1);
    }
  }

  /** A finished route: each of its rules has the set and deleted headers of the rule set once for every pass it took
      part in, and the last path, whatever other annotations there are and in whatever order they are visited. */
  lemma RuleSetOverIngress(
    env: Env, ingress: Ingress, schedule: Schedule, w: World, annotations: map<string, Annotation>, host: string)
    requires ValidSchedule(schedule, annotations.Keys)
    requires DistinctRouteNames(env.naming, ingress) && Committed(ingress, host, |ingress.rules|)
    ensures var g := HandleIngress(env, ingress, schedule, w, annotations).world.graph;
            var name := RouteNameFor(env.naming, ingress, host);
            && name in g.httpRoutes
            && |g.httpRoutes[name].rules| == |HostRules(ingress, host, |ingress.rules|)|
            && forall k | 0 <= k < |g.httpRoutes[name].rules| ::
                 MarksOf(g.httpRoutes[name].rules[k].filters)
                 == FinalMarks(AskedByAll(env, ingress, annotations), TakesPart(ingress, host, |ingress.rules|, k))
  {
    hide HandleRules;
    hide DistinctRouteNames;
    hide ValidSchedule;
    hide Committed;
    hide RoutesAreTranslations;
    hide MarksOf;
    hide Marked;
    hide AskedByAll;
    hide FinalMarks;
    hide MarkedTimes;
    var n, start := |ingress.rules|, IngressStart(w, ingress, annotations);
    GraphEntriesHold(env, ingress, schedule, start, n);
    MarksHold(env, ingress, schedule, start, n);
    var rules := HandleRules(env, ingress, schedule, start, n).routes[host].rules;
    assert MarksOfRoute(ingress, AskedByAll(env, ingress, annotations), host, rules, n);
    forall k | 0 <= k < |rules|
      ensures MarksOf(rules[k].filters)
           == FinalMarks(AskedByAll(env, ingress, annotations), TakesPart(ingress, host, n, k))
    {
      TakesPartOnce(ingress, host, n, k);
      MarkedTimesIs(AskedByAll(env, ingress, annotations), TakesPart(ingress, host, n, k));
    }
  }
}
