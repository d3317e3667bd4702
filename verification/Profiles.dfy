/** SSL profiles: which one a listener gets, and that it keeps it for a whole run. */
module Profiles {
  import opened Text
  import opened Ordering
  import opened Annotations
  import opened Resources
  import opened Gateways
  import opened Filters
  import opened RuleSets
  import opened Probes
  import opened BackendTLS
  import opened Handlers
  import opened Ingresses
  import opened Routing
  import opened Lifting

  type FrontendPolicies = map<NamespacedName, Policy<Option<string>>>

  // ---------- One visit ----------

  /** The profile an annotation value stands for: the strict one for the two strict policies of the Application Gateway,
      and the plain one for anything else. */
  function ProfileName(value: string): string {
    if value in {"AppGwSslPolicy20170401S", "AppGwSslPolicy20220101S"} then "2023-06-S" else "2023-06"
  }

  function ListenerPolicy(gateway: NamespacedName, listener: string): NamespacedName {
    NamespacedName(gateway.namespace, gateway.name + "-" + listener + "-policy")
  }

  /** The profile of a listener, if it has one. */
  function ProfileOf(m: FrontendPolicies, gateway: NamespacedName, listener: string): Option<string> {
    var k := ListenerPolicy(gateway, listener);
    if k in m then m[k].spec else None
  }

  predicate HasOther(m: FrontendPolicies, gateway: NamespacedName, listener: string, profile: string) {
    ProfileOf(m, gateway, listener).Some? && ProfileOf(m, gateway, listener) != Some(profile)
  }

  lemma OneProfileSets(r: ProfileRun, gateway: NamespacedName, profile: string, listener: string, other: string)
    requires !r.failed
    ensures var s := OneProfile(r, gateway, profile, listener);
            && (s.failed <==> HasOther(r.policies, gateway, listener, profile))
            && ProfileOf(s.policies, gateway, other)
               == (if other == listener && !s.failed then Some(profile) else ProfileOf(r.policies, gateway, other))
            && (forall k | k in s.policies && k != ListenerPolicy(gateway, listener) ::
                  k in r.policies && s.policies[k] == r.policies[k])
  {
    assert NewFrontendTLSPolicy(gateway, listener).name == ListenerPolicy(gateway, listener);
    if ListenerPolicy(gateway, other) == ListenerPolicy(gateway, listener) {
      FrontendTLSPolicyNameInjective(gateway, other, listener);
    }
  }

  /** The loop gives the profile to every listener up to the first that has another, and fails exactly if one has. */
  lemma {:induction false} ApplyProfileSets(
    r: ProfileRun, gateway: NamespacedName, profile: string, names: seq<string>)
    requires !r.failed
    ensures var s := ApplyProfile(r, gateway, profile, names);
            && (s.failed <==> exists n :: n in names && HasOther(r.policies, gateway, n, profile))
            && (forall i | 0 <= i < |names|
                           && (forall j | 0 <= j <= i :: !HasOther(r.policies, gateway, names[j], profile)) ::
                  ProfileOf(s.policies, gateway, names[i]) == Some(profile))
            && (forall n :: ProfileOf(s.policies, gateway, n) == ProfileOf(r.policies, gateway, n)
                            || (n in names && ProfileOf(r.policies, gateway, n).None?
                                && ProfileOf(s.policies, gateway, n) == Some(profile)))
            && (forall k | k in s.policies && (forall n | n in names :: k != ListenerPolicy(gateway, n)) ::
                  k in r.policies && s.policies[k] == r.policies[k])
  {
    hide OneProfile;
    hide ProfileOf;
    hide ListenerPolicy;
    if names != [] {
      var init, last := names[..|names| - 1], names[|names| - 1];
      assert names == init + [last];
      ApplyProfileSets(r, gateway, profile, init);
      var q := ApplyProfile(r, gateway, profile, init);
      if !q.failed {
        forall n
          ensures var s := OneProfile(q, gateway, profile, last);
                  ProfileOf(s.policies, gateway, n)
                  == if n == last && !s.failed then Some(profile) else ProfileOf(q.policies, gateway, n)
        {
          OneProfileSets(q, gateway, profile, last, n);
        }
        OneProfileSets(q, gateway, profile, last, last);
      }
    }
  }

  function ProfileKey(): string {
    AppGW("appgw-ssl-profile")
  }

  /** One visit of the annotation: the listeners of the route get the profile in the order in which they come up, as far
      as none has another one, and the call fails exactly if one has. */
  lemma VisitSetsProfiles(
    env: Env, ingress: Ingress, sections: set<string>, w: World, route: HTTPRoute, a: Annotation, orders: Orders)
    ensures var o := Visit(env, ingress, sections, w, route, ProfileKey(), a, orders);
            var names := ParentHTTPSListenerNames(w.gateway, route, orders.listeners);
            var before, after := w.graph.frontendTLSPolicies, o.world.graph.frontendTLSPolicies;
            var profile := ProfileName(a.value);
            && (o.failed <==> exists n :: n in names && HasOther(before, w.gateway.name, n, profile))
            && (forall i | 0 <= i < |names|
                           && (forall j | 0 <= j <= i :: !HasOther(before, w.gateway.name, names[j], profile)) ::
                  ProfileOf(after, w.gateway.name, names[i]) == Some(profile))
            && (forall k | k in after && (forall n | n in names :: k != ListenerPolicy(w.gateway.name, n)) ::
                  k in before && after[k] == before[k])
            && (forall n | n in names && ProfileOf(before, w.gateway.name, n).None? ::
                  ProfileOf(after, w.gateway.name, n) in {None, Some(profile)})
  {
    hide Visit;
    hide KeyOf;
    hide ApplyProfile;
    hide ProfileOf;
    hide ListenerPolicy;
    hide AppGW;
    Keys();
    VisitIsCall(env, ingress, sections, w, route, a, orders, SSLProfile);
    assert Visit(env, ingress, sections, w, route, ProfileKey(), a, orders)
        == HandleSSLProfile(w, route, a, orders.listeners);
    hide Handle;
    var names := ParentHTTPSListenerNames(w.gateway, route, orders.listeners);
    ApplyProfileSets(ProfileRun(w.graph.frontendTLSPolicies, a, false), w.gateway.name, ProfileName(a.value), names);
  }

  // ---------- Any step ----------

  /** Every profile that was set is still set, on the same target. */
  ghost predicate ProfilesKept(before: FrontendPolicies, after: FrontendPolicies) {
    forall k | k in before ::
      k in after && after[k].target == before[k].target && (before[k].spec.Some? ==> after[k].spec == before[k].spec)
  }

  /** What is set stays, and what gets set is the profile asked for. */
  ghost predicate ProfileStep(asked: Option<string>, before: FrontendPolicies, after: FrontendPolicies) {
    && ProfilesKept(before, after)
    && forall k | k in after && after[k].spec.Some? && !(k in before && before[k].spec.Some?) ::
         asked.Some? && after[k].spec == Some(ProfileName(asked.value))
  }

  lemma OneProfileKeeps(r: ProfileRun, gateway: NamespacedName, profile: string, listener: string)
    ensures ProfilesKept(r.policies, OneProfile(r, gateway, profile, listener).policies)
  {
  }

  lemma {:induction false} ApplyProfileKeeps(
    r: ProfileRun, gateway: NamespacedName, profile: string, names: seq<string>)
    ensures ProfilesKept(r.policies, ApplyProfile(r, gateway, profile, names).policies)
  {
    hide OneProfile;
    if names != [] {
      var init := names[..|names| - 1];
      ApplyProfileKeeps(r, gateway, profile, init);
      OneProfileKeeps(ApplyProfile(r, gateway, profile, init), gateway, profile, names[|names| - 1]);
    }
  }

  /** No annotation removes a listener's policy or changes a profile that is set. */
  lemma VisitKeepsProfiles(
    env: Env, ingress: Ingress, sections: set<string>, w: World, route: HTTPRoute, key: string, a: Annotation,
    orders: Orders)
    ensures var v := Visit(env, ingress, sections, w, route, key, a, orders).world;
            && ProfilesKept(w.graph.frontendTLSPolicies, v.graph.frontendTLSPolicies)
            && (key != ProfileKey() ==> v.graph.frontendTLSPolicies == w.graph.frontendTLSPolicies)
  {
    hide HandlerFor;
    hide KeyOf;
    hide AppGW;
    hide ParseInt;
    hide HandleRuleSet;
    hide HandleProbe;
    hide HandleProtocol;
    hide HostNames;
    hide Split;
    hide ApplyProfile;
    hide ApplyOp;
    Keys();
    Dispatch(key, SSLProfile);
    if key != LAST_APPLIED && HandlerFor(key).Some? {
      match HandlerFor(key).value {
        case HostnameExtension =>
          ExtendKeepsRouting(env.naming, ingress, sections, w, route, HostNames(Split(a.value, ',')));
        case SSLProfile =>
          var names := ParentHTTPSListenerNames(w.gateway, route, orders.listeners);
          ApplyProfileKeeps(
            ProfileRun(w.graph.frontendTLSPolicies, a, false), w.gateway.name, ProfileFor(a.value), names);
        case _ =>
      }
    }
  }

  /** The profile an ingress asks for. */
  function AskedProfile(annotations: map<string, Annotation>): Option<string> {
    if ProfileKey() in annotations then Some(annotations[ProfileKey()].value) else None
  }

  lemma VisitProfiles(
    env: Env, ingress: Ingress, sections: set<string>, w: World, route: HTTPRoute, key: string, a: Annotation,
    orders: Orders, values: map<string, Annotation>)
    requires key in values && a.value == values[key].value
    ensures ProfileStep(AskedProfile(values), w.graph.frontendTLSPolicies,
                        Visit(env, ingress, sections, w, route, key, a, orders).world.graph.frontendTLSPolicies)
  {
    hide Visit;
    hide AppGW;
    VisitKeepsProfiles(env, ingress, sections, w, route, key, a, orders);
    if key == ProfileKey() {
      VisitSetsProfiles(env, ingress, sections, w, route, a, orders);
      var after := Visit(env, ingress, sections, w, route, key, a, orders).world.graph.frontendTLSPolicies;
      var names := ParentHTTPSListenerNames(w.gateway, route, orders.listeners);
      forall k | k in after && after[k].spec.Some?
                 && !(k in w.graph.frontendTLSPolicies && w.graph.frontendTLSPolicies[k].spec.Some?)
        ensures after[k].spec == Some(ProfileName(a.value))
      {
        var n :| n in names && k == ListenerPolicy(w.gateway.name, n);
        assert ProfileOf(w.graph.frontendTLSPolicies, w.gateway.name, n).None?;
        assert ProfileOf(after, w.gateway.name, n) == after[k].spec;
      }
    }
  }

  ghost function ProfileRelation(asked: Option<string>): Relation {
    (w: World, v: World) => ProfileStep(asked, w.graph.frontendTLSPolicies, v.graph.frontendTLSPolicies)
  }

  lemma ProfileStepsCompose(asked: Option<string>)
    ensures Preorder(ProfileRelation(asked))
  {
    forall u: World, v: World, w: World | ProfileRelation(asked)(u, v) && ProfileRelation(asked)(v, w)
      ensures ProfileRelation(asked)(u, w)
    {
      StepsCompose(asked, u.graph.frontendTLSPolicies, v.graph.frontendTLSPolicies, w.graph.frontendTLSPolicies);
    }
  }

  lemma StepsCompose(asked: Option<string>, a: FrontendPolicies, b: FrontendPolicies, c: FrontendPolicies)
    requires ProfileStep(asked, a, b) && ProfileStep(asked, b, c)
    ensures ProfileStep(asked, a, c)
  {
  }

  lemma OthersKeepProfiles(naming: Naming, ingress: Ingress, asked: Option<string>)
    ensures OthersAre(naming, ingress, ProfileRelation(asked))
  {
    hide NewRoute;
    hide GrantTLS;
    var r := ProfileRelation(asked);
    forall w, i | 0 <= i < |ingress.rules| ensures r(w, NewRoute(naming, w, ingress, ingress.rules[i].host).0) {
      NewRouteIsEmpty(naming, w, ingress, ingress.rules[i].host);
    }
    forall w ensures r(w, GrantTLS(w, ingress, |ingress.tls|)) {
      GrantsOnly(w, ingress, |ingress.tls|);
    }
  }

  lemma IngressProfiles(
    env: Env, ingress: Ingress, schedule: Schedule, w: World, annotations: map<string, Annotation>)
    requires ValidSchedule(schedule, annotations.Keys)
    ensures ProfileStep(AskedProfile(annotations), w.graph.frontendTLSPolicies,
                        HandleIngress(env, ingress, schedule, w, annotations).world.graph.frontendTLSPolicies)
  {
    hide HandleIngress;
    hide Visit;
    hide AppGW;
    hide OthersAre;
    hide ProfileStep;
    hide ValidSchedule;
    ProfilesLift(env, ingress, annotations);
    IngressSteps(env, ingress, schedule, w, annotations, ProfileRelation(AskedProfile(annotations)));
  }

  lemma ProfilesLift(env: Env, ingress: Ingress, annotations: map<string, Annotation>)
    ensures Preorder(ProfileRelation(AskedProfile(annotations)))
    ensures VisitsAre(env, ingress, annotations, ProfileRelation(AskedProfile(annotations)))
    ensures OthersAre(env.naming, ingress, ProfileRelation(AskedProfile(annotations)))
  {
    hide Visit;
    hide AppGW;
    hide OthersAre;
    hide ProfileStep;
    var r := ProfileRelation(AskedProfile(annotations));
    ProfileStepsCompose(AskedProfile(annotations));
    OthersKeepProfiles(env.naming, ingress, AskedProfile(annotations));
    forall sections, v, route, key, a: Annotation, orders
      | RouteOf(env.naming, ingress, route) && key in annotations && a.value == annotations[key].value
      ensures r(v, Visit(env, ingress, sections, v, route, key, a, orders).world)
    {
      VisitProfiles(env, ingress, sections, v, route, key, a, orders, annotations);
    }
  }

  // ---------- A whole run ----------

  lemma KeptByItself(m: FrontendPolicies)
    ensures ProfilesKept(m, m)
  {
  }

  lemma KeptTransitively(a: FrontendPolicies, b: FrontendPolicies, c: FrontendPolicies)
    requires ProfilesKept(a, b) && ProfilesKept(b, c)
    ensures ProfilesKept(a, c)
  {
  }

  /** From any point of a run to any later one, a profile once set on the policy of a listener stays as it is. */
  lemma {:induction false} RunKeepsProfiles(
    env: Env, inputs: map<NamespacedName, Input>, schedules: NamespacedName -> Schedule, w: World,
    order: seq<NamespacedName>, n: nat)
    requires ValidInput(inputs, schedules) && (forall k | k in order :: k in inputs) && n <= |order|
    ensures ProfilesKept(HandleIngresses(env, inputs, schedules, w, order[..n]).world.graph.frontendTLSPolicies,
                         HandleIngresses(env, inputs, schedules, w, order).world.graph.frontendTLSPolicies)
    decreases |order|
  {
    hide HandleIngress;
    hide ProfilesKept;
    if n == |order| {
      assert order[..n] == order;
      KeptByItself(HandleIngresses(env, inputs, schedules, w, order).world.graph.frontendTLSPolicies);
    } else {
      var init, last := order[..|order| - 1], order[|order| - 1];
      assert init[..n] == order[..n] && last in order;
      RunKeepsProfiles(env, inputs, schedules, w, init, n);
      var before := HandleIngresses(env, inputs, schedules, w, init).world;
      IngressProfiles(env, inputs[last].ingress, schedules(last), before, inputs[last].annotations);
      KeptTransitively(
        HandleIngresses(env, inputs, schedules, w, order[..n]).world.graph.frontendTLSPolicies,
        before.graph.frontendTLSPolicies,
        HandleIngresses(env, inputs, schedules, w, order).world.graph.frontendTLSPolicies);
    }
  }

  /** Every profile there is at the end of a run was set by one of its ingresses, the first to set it for the listener,
      and is the one its annotation stands for. */
  lemma {:induction false} RunSetsProfiles(
    env: Env, inputs: map<NamespacedName, Input>, schedules: NamespacedName -> Schedule, w: World,
    order: seq<NamespacedName>, policy: NamespacedName)
    requires ValidInput(inputs, schedules) && (forall k | k in order :: k in inputs)
    requires policy !in w.graph.frontendTLSPolicies
    ensures var after := HandleIngresses(env, inputs, schedules, w, order).world.graph.frontendTLSPolicies;
            policy in after && after[policy].spec.Some? ==>
              exists j: nat :: SetsFirst(env, inputs, schedules, w, order, policy, j, after[policy].spec.value)
  {
    hide HandleIngresses;
    hide HandleIngress;
    hide ProfileKey;
    hide SetsFirst;
    if order == [] {
      NoIngressesYet(env, inputs, schedules, w, order);
      assert order[..0] == order;
    } else {
      var init, last := order[..|order| - 1], order[|order| - 1];
      assert order == init + [last] && last in order;
      RunSetsProfiles(env, inputs, schedules, w, init, policy);
      StepOfRun(env, inputs, schedules, w, order);
      var before := HandleIngresses(env, inputs, schedules, w, init).world.graph.frontendTLSPolicies;
      var after := HandleIngresses(env, inputs, schedules, w, order).world.graph.frontendTLSPolicies;
      if policy in after && after[policy].spec.Some? {
        if policy in before && before[policy].spec.Some? {
          var j: nat :| SetsFirst(env, inputs, schedules, w, init, policy, j, before[policy].spec.value);
          StillSetsFirst(env, inputs, schedules, w, order, policy, j, before[policy].spec.value);
        } else {
          LastSetsFirst(env, inputs, schedules, w, order, policy);
        }
      }
    }
  }

  lemma StepOfRun(
    env: Env, inputs: map<NamespacedName, Input>, schedules: NamespacedName -> Schedule, w: World,
    order: seq<NamespacedName>)
    requires ValidInput(inputs, schedules) && (forall k | k in order :: k in inputs) && order != []
    ensures ProfileStep(
              AskedProfile(inputs[order[|order| - 1]].annotations),
              HandleIngresses(env, inputs, schedules, w, order[..|order| - 1]).world.graph.frontendTLSPolicies,
              HandleIngresses(env, inputs, schedules, w, order).world.graph.frontendTLSPolicies)
  {
    hide HandleIngress;
    hide ProfileStep;
    hide AskedProfile;
    var last := order[|order| - 1];
    assert last in order;
    IngressProfiles(env, inputs[last].ingress, schedules(last),
                    HandleIngresses(env, inputs, schedules, w, order[..|order| - 1]).world, inputs[last].annotations);
  }

  lemma StillSetsFirst(
    env: Env, inputs: map<NamespacedName, Input>, schedules: NamespacedName -> Schedule, w: World,
    order: seq<NamespacedName>, policy: NamespacedName, j: nat, profile: string)
    requires ValidInput(inputs, schedules) && (forall k | k in order :: k in inputs) && order != []
    requires SetsFirst(env, inputs, schedules, w, order[..|order| - 1], policy, j, profile)
    ensures SetsFirst(env, inputs, schedules, w, order, policy, j, profile)
  {
    hide HandleIngresses;
    var init := order[..|order| - 1];
    assert init[..j] == order[..j] && init[..j + 1] == order[..j + 1] && init[j] == order[j];
  }

  lemma LastSetsFirst(
    env: Env, inputs: map<NamespacedName, Input>, schedules: NamespacedName -> Schedule, w: World,
    order: seq<NamespacedName>, policy: NamespacedName)
    requires ValidInput(inputs, schedules) && (forall k | k in order :: k in inputs) && order != []
    ensures var init := order[..|order| - 1];
            var before := HandleIngresses(env, inputs, schedules, w, init).world.graph.frontendTLSPolicies;
            var after := HandleIngresses(env, inputs, schedules, w, order).world.graph.frontendTLSPolicies;
            (policy in before ==> before[policy].spec.None?) && policy in after && after[policy].spec.Some? ==>
              SetsFirst(env, inputs, schedules, w, order, policy, |order| - 1, after[policy].spec.value)
  {
    hide HandleIngresses;
    hide ProfileKey;
    StepOfRun(env, inputs, schedules, w, order);
    assert order[..|order|] == order;
  }

  /** The ingress at place `j` carries the annotation; before it the listener has no profile, and after it it has
      the one the annotation stands for. */
  ghost predicate SetsFirst(
    env: Env, inputs: map<NamespacedName, Input>, schedules: NamespacedName -> Schedule, w: World,
    order: seq<NamespacedName>, policy: NamespacedName, j: nat, profile: string)
    requires ValidInput(inputs, schedules) && (forall k | k in order :: k in inputs)
  {
    && j < |order| && ProfileKey() in inputs[order[j]].annotations
    && profile == ProfileName(inputs[order[j]].annotations[ProfileKey()].value)
    && var before := HandleIngresses(env, inputs, schedules, w, order[..j]).world.graph.frontendTLSPolicies;
       var after := HandleIngresses(env, inputs, schedules, w, order[..j + 1]).world.graph.frontendTLSPolicies;
       && (policy in before ==> before[policy].spec.None?)
       && policy in after && after[policy].spec == Some(profile)
  }
}
