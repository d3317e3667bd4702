/** What becomes of the annotations that make something: which ingress reports it, and as what. */
module Reported {
  import opened Text
  import opened Ordering
  import opened Annotations
  import opened Resources
  import opened Gateways
  import opened BackendTLS
  import opened Handlers
  import opened Ingresses
  import opened Routing
  import opened Redirects
  import opened Profiles
  import opened RoutePolicies

  // ---------- The redirect ----------

  /** The annotation as the one that made the redirect. */
  function MadeRedirect(a: Annotation, gateway: NamespacedName): Annotation {
    var route := NamespacedName(gateway.namespace, "https-redirect");
    Annotation(
      a.key, a.value, Next(a.status, Completed),
      a.destinations + {ResourceID("gateway.networking.k8s.io/v1", "HTTPRoute", route)}, a.issues)
  }

  /** The call that makes the redirect is reported; any later one leaves no trace. */
  lemma VisitReportsRedirect(
    env: Env, ingress: Ingress, sections: set<string>, w: World, route: HTTPRoute, a: Annotation, orders: Orders)
    ensures Visit(env, ingress, sections, w, route, RedirectKey(), a, orders).annotation
         == if w.gateway.hasHTTPSRedirect then a else MadeRedirect(a, w.gateway.name)
  {
    hide Visit;
    hide KeyOf;
    VisitIsCall(env, ingress, sections, w, route, a, orders, SSLRedirect);
  }

  lemma {:induction false} VisitAllReportsRedirect(
    env: Env, ingress: Ingress, sections: set<string>, schedule: Schedule, i: nat, p: Pass, order: seq<string>)
    requires NoDuplicates(order) && (forall k | k in order :: k in p.annotations) && RedirectKey() in p.annotations
    ensures VisitAll(env, ingress, sections, schedule, i, p, order).annotations[RedirectKey()]
         == if RedirectKey() in order && !p.world.gateway.hasHTTPSRedirect
            then MadeRedirect(p.annotations[RedirectKey()], p.world.gateway.name) else p.annotations[RedirectKey()]
  {
    hide Visit;
    hide RedirectState;
    hide RedirectKey;
    hide MadeRedirect;
    if order != [] {
      var init, last := order[..|order| - 1], order[|order| - 1];
      assert order == init + [last];
      VisitAllReportsRedirect(env, ingress, sections, schedule, i, p, init);
      if last == RedirectKey() {
        assert last !in init;
        var q := VisitAll(env, ingress, sections, schedule, i, p, init);
        VisitAllRedirect(env, ingress, sections, schedule, i, p, init);
        VisitReportsRedirect(env, ingress, sections, q.world, q.route, q.annotations[last],
                             OrdersAt(schedule, i, last, q.world, q.route));
      }
    }
  }

  lemma RuleReportsRedirect(env: Env, ingress: Ingress, schedule: Schedule, s: IngressRun, i: nat)
    requires i < |ingress.rules| && ValidSchedule(schedule, s.annotations.Keys) && RedirectKey() in s.annotations
    ensures HandleRule(env, ingress, schedule, s, i).annotations[RedirectKey()]
         == if ingress.rules[i].http.Some? && !s.world.gateway.hasHTTPSRedirect
            then MadeRedirect(s.annotations[RedirectKey()], s.world.gateway.name) else s.annotations[RedirectKey()]
  {
    hide NewRoute;
    hide VisitAll;
    hide TranslatePaths;
    hide RedirectKey;
    hide MadeRedirect;
    hide RedirectState;
    NewRouteKeepsRedirect(env.naming, s.world, ingress, ingress.rules[i].host);
    if ingress.rules[i].http.Some? {
      var start, order := PassStart(env.naming, ingress, s, i), schedule.annotations(i);
      assert Lists(order, s.annotations.Keys);
      VisitAllReportsRedirect(env, ingress, SectionsOf(start.route.parentRefs), schedule, i, start, order);
    }
  }

  lemma {:induction false} RulesReportRedirect(
    env: Env, ingress: Ingress, schedule: Schedule, s: IngressRun, n: nat)
    requires n <= |ingress.rules| && ValidSchedule(schedule, s.annotations.Keys) && s.routes == map[]
    requires RedirectKey() in s.annotations
    ensures HandleRules(env, ingress, schedule, s, n).annotations[RedirectKey()]
         == if HasPaths(ingress, n) && !s.world.gateway.hasHTTPSRedirect
            then MadeRedirect(s.annotations[RedirectKey()], s.world.gateway.name) else s.annotations[RedirectKey()]
  {
    hide HandleRule;
    hide ValidSchedule;
    hide RedirectState;
    hide RedirectKey;
    hide MadeRedirect;
    if n > 0 {
      RulesReportRedirect(env, ingress, schedule, s, n - 1);
      RulesRedirect(env, ingress, schedule, s, n - 1);
      RuleReportsRedirect(env, ingress, schedule, HandleRules(env, ingress, schedule, s, n - 1), n - 1);
      assert HasPaths(ingress, n) <==> HasPaths(ingress, n - 1) || ingress.rules[n - 1].http.Some?;
    }
  }

  lemma IngressReportsRedirect(env: Env, input: Input, schedule: Schedule, w: World)
    requires ValidSchedule(schedule, input.annotations.Keys) && AppGW("ssl-redirect") in input.annotations
    ensures HandleIngress(env, input.ingress, schedule, w, input.annotations).annotations[AppGW("ssl-redirect")]
         == if AsksRedirect(input) && !w.gateway.hasHTTPSRedirect
            then MadeRedirect(input.annotations[AppGW("ssl-redirect")], w.gateway.name)
            else input.annotations[AppGW("ssl-redirect")]
  {
    hide HandleRules;
    hide HasPaths;
    hide AppGW;
    hide KeyOf;
    hide MadeRedirect;
    Keys();
    SomeRuleHasPaths(input.ingress, |input.ingress.rules|);
    GrantsOnly(w, input.ingress, |input.ingress.tls|);
    RulesReportRedirect(env, input.ingress, schedule, IngressStart(w, input.ingress, input.annotations),
                        |input.ingress.rules|);
  }

  /** Some ingress before this one asks for the redirect. */
  ghost predicate AskedBefore(inputs: map<NamespacedName, Input>, k: NamespacedName) {
    exists l :: l in inputs && NameLess(l, k) && AsksRedirect(inputs[l])
  }

  /** After a conversion the redirect is reported by the first ingress to ask for it, and by no other: there the
      annotation is left as it was, and a fresh one stays NotStarted, which no list of the report shows. */
  lemma ConvertReportsOneRedirect(
    env: Env, options: Options, scrapedWAFID: string,
    inputs: map<NamespacedName, Input>, schedules: NamespacedName -> Schedule, listing: seq<NamespacedName>,
    k: NamespacedName)
    requires ValidInput(inputs, schedules) && Lists(listing, inputs.Keys)
    requires k in inputs && AppGW("ssl-redirect") in inputs[k].annotations
    ensures var run := Convert(env, options, scrapedWAFID, inputs, schedules, listing);
            && k in run.results && AppGW("ssl-redirect") in run.results[k].annotations
            && run.results[k].annotations[AppGW("ssl-redirect")]
               == if AsksRedirect(inputs[k]) && !AskedBefore(inputs, k)
                  then MadeRedirect(inputs[k].annotations[AppGW("ssl-redirect")], run.world.gateway.name)
                  else inputs[k].annotations[AppGW("ssl-redirect")]
  {
    hide HandleIngresses;
    hide HandleIngress;
    hide AsksRedirect;
    hide RedirectState;
    hide NoRouteIsRedirect;
    hide NameLess;
    hide ValidSchedule;
    hide Sort;
    hide MadeRedirect;
    hide AppGW;
    NameLessIsStrictOrder();
    SortOfListing(listing, listing, inputs.Keys, NameLess);
    var sorted := Sort(listing, NameLess);
    var j :| 0 <= j < |sorted| && sorted[j] == k;
    var start := StartWorld(options, scrapedWAFID, sorted);
    ResultAt(env, inputs, schedules, start, sorted, j);
    RunRedirect(env, inputs, schedules, start, sorted);
    RunRedirect(env, inputs, schedules, start, sorted[..j]);
    IngressReportsRedirect(env, inputs[k], schedules(k),
                           HandleIngresses(env, inputs, schedules, start, sorted[..j]).world);
    EarlierAsk(inputs, sorted, j);
  }

  /** Those before `j` in the sorted list are the lesser ones. */
  lemma EarlierAsk(inputs: map<NamespacedName, Input>, sorted: seq<NamespacedName>, j: nat)
    requires Lists(sorted, inputs.Keys) && StrictlySorted(sorted, NameLess) && StrictOrder(NameLess) && j < |sorted|
    ensures (exists l | l in sorted[..j] :: l in inputs && AsksRedirect(inputs[l])) <==> AskedBefore(inputs, sorted[j])
  {
    hide AsksRedirect;
    hide NameLess;
    forall i | j <= i < |sorted| ensures !NameLess(sorted[i], sorted[j]) {
      assert i > j ==> NameLess(sorted[j], sorted[i]);
      assert !NameLess(sorted[j], sorted[j]);
    }
    forall l ensures l in sorted[..j] <==> l in inputs && NameLess(l, sorted[j]) {
      if l in inputs && NameLess(l, sorted[j]) {
        var i :| 0 <= i < |sorted| && sorted[i] == l;
        assert sorted[..j][i] == l;
      }
      if l in sorted[..j] {
        var i :| 0 <= i < j && sorted[i] == l;
        assert l in sorted;
      }
    }
  }

  // ---------- The SSL profile ----------

  const CIPHERS := Issue(FrontendTLSPolicyProfileCipherWarning, None)

  /** The listener gets the profile: it has none, and none before it has another. */
  ghost predicate Sets(m: FrontendPolicies, gateway: NamespacedName, profile: string, names: seq<string>, i: nat) {
    && i < |names| && ProfileOf(m, gateway, names[i]).None?
    && forall j | 0 <= j < i :: !HasOther(m, gateway, names[j], profile)
  }

  lemma SetsAlso(m: FrontendPolicies, gateway: NamespacedName, profile: string, init: seq<string>, last: string)
    ensures (exists i: nat :: Sets(m, gateway, profile, init + [last], i)) <==>
              || (exists i: nat :: Sets(m, gateway, profile, init, i))
              || ((forall n | n in init :: !HasOther(m, gateway, n, profile)) && ProfileOf(m, gateway, last).None?)
  {
    hide ProfileOf;
    hide HasOther;
    var names := init + [last];
    forall i: nat ensures Sets(m, gateway, profile, names, i) <==>
                            || Sets(m, gateway, profile, init, i)
                            || (i == |init| && (forall n | n in init :: !HasOther(m, gateway, n, profile))
                                && ProfileOf(m, gateway, last).None?)
    {
      assert forall j | 0 <= j < |init| :: names[j] == init[j] && init[j] in init;
    }
    if (forall n | n in init :: !HasOther(m, gateway, n, profile)) && ProfileOf(m, gateway, last).None? {
      assert Sets(m, gateway, profile, names, |init|);
    }
  }

  lemma OneProfileReports(r: ProfileRun, gateway: NamespacedName, profile: string, listener: string)
    requires !r.failed
    ensures var a, b := r.annotation, OneProfile(r, gateway, profile, listener).annotation;
            if ProfileOf(r.policies, gateway, listener).None? then
              b.issues == a.issues + [CIPHERS] && b.status == Next(a.status, Warning)
            else if HasOther(r.policies, gateway, listener, profile) then
              && b.issues
                 == a.issues + [Issue(FrontendTLSPolicyProfileConflict, Some(ListenerPolicy(gateway, listener)))]
              && b.status == Error
            else b == a
  {
    assert NewFrontendTLSPolicy(gateway, listener).name == ListenerPolicy(gateway, listener);
  }

  /** Some warnings have been added, and nothing else. */
  predicate Warned(a: Annotation, b: Annotation, times: nat) {
    && b.issues == a.issues + Repeated([CIPHERS], times)
    && if times == 0 then b == a else b.status == Next(a.status, Warning)
  }

  /** Some warnings have been added, and then the conflict on a listener. */
  predicate Conflicted(a: Annotation, b: Annotation, times: nat, policy: NamespacedName) {
    && b.issues
       == a.issues + Repeated([CIPHERS], times) + [Issue(FrontendTLSPolicyProfileConflict, Some(policy))]
    && b.status == Error
  }

  lemma NoWarning(a: Annotation)
    ensures Warned(a, a, 0)
  {
  }

  lemma OneMoreWarning(a: Annotation, b: Annotation, c: Annotation, times: nat)
    requires Warned(a, b, times) && c.issues == b.issues + [CIPHERS] && c.status == Next(b.status, Warning)
    ensures Warned(a, c, times + 1)
  {
    assert Repeated([CIPHERS], times + 1) == Repeated([CIPHERS], times) + [CIPHERS];
    if times == 0 {
      assert Repeated([CIPHERS], 0) == [];
    }
  }

  lemma ConflictAfter(a: Annotation, b: Annotation, c: Annotation, times: nat, policy: NamespacedName)
    requires Warned(a, b, times) && c.status == Error
    requires c.issues == b.issues + [Issue(FrontendTLSPolicyProfileConflict, Some(policy))]
    ensures Conflicted(a, c, times, policy)
  {
  }

  /** What the loop reports: one warning for each listener that gets the profile, and then, where it fails, the conflict
      on a listener that has another. */
  lemma {:induction false} ApplyProfileReports(
    r: ProfileRun, gateway: NamespacedName, profile: string, names: seq<string>) returns (times: nat)
    requires !r.failed
    ensures var s := ApplyProfile(r, gateway, profile, names);
            && (times > 0 <==> exists i: nat :: Sets(r.policies, gateway, profile, names, i))
            && (!s.failed ==> Warned(r.annotation, s.annotation, times))
            && (s.failed ==> exists n :: n in names && HasOther(r.policies, gateway, n, profile)
                                         && Conflicted(r.annotation, s.annotation, times, ListenerPolicy(gateway, n)))
  {
    hide OneProfile;
    hide ProfileOf;
    hide ListenerPolicy;
    hide Sets;
    hide Warned;
    hide Conflicted;
    times := 0;
    if names == [] {
      NoWarning(r.annotation);
      NothingSet(r.policies, gateway, profile);
    } else {
      var init, last := names[..|names| - 1], names[|names| - 1];
      assert names == init + [last];
      times := ApplyProfileReports(r, gateway, profile, init);
      ApplyProfileSets(r, gateway, profile, init);
      SetsAlso(r.policies, gateway, profile, init, last);
      var q := ApplyProfile(r, gateway, profile, init);
      if !q.failed {
        var before, after := q.annotation, OneProfile(q, gateway, profile, last).annotation;
        OneProfileReports(q, gateway, profile, last);
        OneProfileSets(q, gateway, profile, last, last);
        if ProfileOf(q.policies, gateway, last).None? {
          OneMoreWarning(r.annotation, before, after, times);
          times := times + 1;
        } else if HasOther(q.policies, gateway, last, profile) {
          ConflictAfter(r.annotation, before, after, times, ListenerPolicy(gateway, last));
        } else if ProfileOf(r.policies, gateway, last).None? {
          var i :| 0 <= i < |init| && init[i] == last;
          SetAt(r.policies, gateway, profile, init, i);
        }
      }
    }
  }

  lemma NothingSet(m: FrontendPolicies, gateway: NamespacedName, profile: string)
    ensures !exists i: nat :: Sets(m, gateway, profile, [], i)
  {
  }

  lemma SetAt(m: FrontendPolicies, gateway: NamespacedName, profile: string, names: seq<string>, i: nat)
    requires i < |names| && ProfileOf(m, gateway, names[i]).None?
    requires forall n | n in names :: !HasOther(m, gateway, n, profile)
    ensures Sets(m, gateway, profile, names, i)
  {
  }

  /** A visit of an SSL profile. Without an HTTPS listener it is an error that fails nothing. Where every listener
      has the profile already, as after another ingress that asked for the same, there is no trace of it: a fresh
      annotation stays NotStarted, which no list of the report shows. */
  lemma VisitReportsProfiles(
    env: Env, ingress: Ingress, sections: set<string>, w: World, route: HTTPRoute, a: Annotation, orders: Orders)
    returns (times: nat)
    ensures var o := Visit(env, ingress, sections, w, route, ProfileKey(), a, orders);
            var names := ParentHTTPSListenerNames(w.gateway, route, orders.listeners);
            var before, gateway, profile := w.graph.frontendTLSPolicies, w.gateway.name, ProfileName(a.value);
            && (names == [] ==>
                  && o.annotation.issues == a.issues + [Issue(NoHTTPSListenersForSSLProfile, None)]
                  && o.annotation.status == Error && !o.failed)
            && (names != [] && o.failed ==>
                  exists n :: n in names && HasOther(before, gateway, n, profile)
                              && Conflicted(a, o.annotation, times, ListenerPolicy(gateway, n)))
            && (names != [] && !o.failed ==> Warned(a, o.annotation, times))
            && (names != [] ==> (times > 0 <==> exists i: nat :: Sets(before, gateway, profile, names, i)))
            && (o.annotation == a <==>
                names != [] && forall n | n in names :: ProfileOf(before, gateway, n) == Some(profile))
  {
    hide Visit;
    hide KeyOf;
    hide ApplyProfile;
    hide ProfileOf;
    hide ListenerPolicy;
    hide AppGW;
    hide Sets;
    hide Warned;
    hide Conflicted;
    hide ParentHTTPSListenerNames;
    Keys();
    VisitIsCall(env, ingress, sections, w, route, a, orders, SSLProfile);
    assert Visit(env, ingress, sections, w, route, ProfileKey(), a, orders)
        == HandleSSLProfile(w, route, a, orders.listeners);
    hide Handle;
    var names := ParentHTTPSListenerNames(w.gateway, route, orders.listeners);
    var r, profile := ProfileRun(w.graph.frontendTLSPolicies, a, false), ProfileName(a.value);
    times := ApplyProfileReports(r, w.gateway.name, profile, names);
    ApplyProfileSets(r, w.gateway.name, profile, names);
    Untouched(r, w.gateway.name, profile, names, times);
  }

  /** Nothing is reported exactly if every listener has the profile. */
  lemma Untouched(r: ProfileRun, gateway: NamespacedName, profile: string, names: seq<string>, times: nat)
    requires !r.failed && (times > 0 <==> exists i: nat :: Sets(r.policies, gateway, profile, names, i))
    requires var s := ApplyProfile(r, gateway, profile, names);
             && (s.failed <==> exists n :: n in names && HasOther(r.policies, gateway, n, profile))
             && (!s.failed ==> Warned(r.annotation, s.annotation, times))
             && (s.failed ==> exists n :: Conflicted(r.annotation, s.annotation, times, ListenerPolicy(gateway, n)))
    ensures ApplyProfile(r, gateway, profile, names).annotation == r.annotation <==>
              forall n | n in names :: ProfileOf(r.policies, gateway, n) == Some(profile)
  {
    hide ApplyProfile;
    hide ProfileOf;
    hide ListenerPolicy;
    hide Repeated;
    var s := ApplyProfile(r, gateway, profile, names);
    if !s.failed {
      if times > 0 {
        MoreWarnings(r.annotation, s.annotation, times);
      }
      if n :| n in names && ProfileOf(r.policies, gateway, n).None? {
        var i :| 0 <= i < |names| && names[i] == n;
        SetAt(r.policies, gateway, profile, names, i);
      }
      if times > 0 {
        var i: nat :| Sets(r.policies, gateway, profile, names, i);
        assert names[i] in names;
      }
    }
  }

  lemma MoreWarnings(a: Annotation, b: Annotation, times: nat)
    requires Warned(a, b, times) && times > 0
    ensures b.issues != a.issues
  {
    assert Repeated([CIPHERS], times) == Repeated([CIPHERS], times - 1) + [CIPHERS];
    assert |b.issues| > |a.issues|;
  }

  // ---------- Policies ----------

  /** What a route's own policies are reported as: the timeout and the affinity as its route policy, the firewall policy
      as its own kind. */
  lemma VisitReportsPolicies(
    env: Env, ingress: Ingress, sections: set<string>, w: World, route: HTTPRoute, key: string, a: Annotation,
    orders: Orders)
    ensures var after := Visit(env, ingress, sections, w, route, key, a, orders).annotation.destinations;
            var name := NamespacedName(route.name.namespace, route.name.name + "-policy");
            var firewall :=
              NamespacedName(route.name.namespace,
                             "httproute-" + route.name.namespace + "-" + route.name.name + "-policy");
            && (key == AppGW("request-timeout") ==>
                  after == if ParseInt(a.value, 0x8000_0000_0000_0000).None? then a.destinations
                           else a.destinations + {ResourceID("alb.networking.azure.io/v1", "RoutePolicy", name)})
            && (key == AppGW("cookie-based-affinity") ==>
                  after == if a.value !in {"1", "t", "T", "TRUE", "true", "True"} then a.destinations
                           else a.destinations + {ResourceID("alb.networking.azure.io/v1", "RoutePolicy", name)})
            && (key == AppGW("waf-policy-for-path") ==>
                  after == a.destinations
                           + {ResourceID("alb.networking.azure.io/v1", "WebApplicationFirewallPolicy", firewall)})
  {
    hide Visit;
    hide KeyOf;
    hide AppGW;
    hide ParseInt;
    hide Next;
    hide Inserted;
    Keys();
    TrueValues(a.value);
    PolicyNames(route.name);
    if key == AppGW("request-timeout") {
      VisitIsCall(env, ingress, sections, w, route, a, orders, RequestTimeout);
    }
    if key == AppGW("cookie-based-affinity") {
      VisitIsCall(env, ingress, sections, w, route, a, orders, CookieBasedAffinity);
    }
    if key == AppGW("waf-policy-for-path") {
      VisitIsCall(env, ingress, sections, w, route, a, orders, WAFPolicyForPath);
    }
  }

  /** The backend policies of the listed services. */
  function PoliciesFor(services: seq<NamespacedName>): set<ResourceID> {
    set s | s in services ::
      ResourceID("alb.networking.azure.io/v1", "BackendTLSPolicy", NamespacedName(s.namespace, s.name + "-policy"))
  }

  lemma {:induction false} PortsAreReported(r: TLSRun, route: HTTPRoute, order: seq<NamespacedName>)
    ensures var b := ApplyPorts(r, route, order).annotation;
            && b.destinations == r.annotation.destinations + PoliciesFor(order) && b.issues == r.annotation.issues
            && b.status == if order == [] then r.annotation.status else Next(r.annotation.status, Completed)
  {
    hide VisitedPorts;
    if order != [] {
      var init, last := order[..|order| - 1], order[|order| - 1];
      assert order == init + [last];
      PortsAreReported(r, route, init);
      assert forall s :: s in order <==> s in init || s == last;
    }
  }

  /** A visit that asks for https: it becomes the backend policies of the services of the route, and is an error where
      there is none. */
  lemma VisitReportsHTTPS(
    env: Env, ingress: Ingress, sections: set<string>, w: World, route: HTTPRoute, a: Annotation, orders: Orders)
    requires IsHTTPS(a.value)
    ensures var o := Visit(env, ingress, sections, w, route, AppGW("backend-protocol"), a, orders);
            if orders.services == [] then
              && o.annotation.issues == a.issues + [Issue(CreatingBackendTLSPolicy, None)] && o.failed
              && o.annotation.status == Error && o.annotation.destinations == a.destinations
            else
              && o.annotation.issues == a.issues && !o.failed && o.annotation.status == Next(a.status, Completed)
              && o.annotation.destinations == a.destinations + PoliciesFor(orders.services)
  {
    hide Visit;
    hide KeyOf;
    hide AppGW;
    hide ApplyPorts;
    hide PoliciesFor;
    Keys();
    NoPolicies();
    VisitIsCall(env, ingress, sections, w, route, a, orders, BackendProtocol);
    PortsAreReported(TLSRun(w.graph.backendTLSPolicies, a), route, orders.services);
    HTTPIsNotHTTPS(a.value);
  }

  lemma NoPolicies()
    ensures PoliciesFor([]) == {}
  {
  }

  lemma HTTPIsNotHTTPS(value: string)
    requires ToLower(value) == "https"
    ensures ToLower(value) != "http"
  {
    assert |"https"| == 5 && |"http"| == 4;
  }
}
