/** The hosts a converted route serves. */
module Hostnames {
  import opened Text
  import opened Ordering
  import opened Annotations
  import opened Resources
  import opened Gateways
  import opened Filters
  import opened RuleSets
  import opened Probes
  import opened BackendTLS
  import opened Handlers
  import opened Ingresses
  import opened Routing

  // ---------- The list of hosts ----------

  lemma {:induction false} HostNamesOfConcat(a: seq<string>, b: seq<string>)
    ensures HostNames(a + b) == HostNames(a) + HostNames(b)
  {
    hide TrimSpace;
    if b == [] {
      assert a + b == a;
    } else {
      var init := b[..|b| - 1];
      assert (a + b)[..|a + b| - 1] == a + init;
      HostNamesOfConcat(a, init);
    }
  }

  /** A list of hosts separated by commas, with any space around each, is read back as it is. */
  lemma {:induction false} HostNamesOfList(pieces: seq<string>, hosts: seq<string>)
    requires |pieces| == |hosts| >= 1
    requires forall i | 0 <= i < |pieces| :: ',' !in pieces[i] && TrimSpace(pieces[i]) == hosts[i] != ""
    ensures HostNames(Split(Join(pieces, ','), ',')) == hosts
  {
    hide TrimSpace;
    hide HostNames;
    SplitOfJoin(pieces, ',');
    HostNamesOfPieces(pieces, hosts);
  }

  lemma {:induction false} HostNamesOfPieces(pieces: seq<string>, hosts: seq<string>)
    requires |pieces| == |hosts|
    requires forall i | 0 <= i < |pieces| :: TrimSpace(pieces[i]) == hosts[i] != ""
    ensures HostNames(pieces) == hosts
  {
    hide TrimSpace;
    if pieces != [] {
      HostNamesOfPieces(pieces[..|pieces| - 1], hosts[..|hosts| - 1]);
      assert hosts == hosts[..|hosts| - 1] + [hosts[|hosts| - 1]];
    }
  }

  /** A piece of nothing but space is skipped. */
  lemma BlankPiece(a: seq<string>, blank: string, b: seq<string>)
    requires Blank(blank)
    ensures HostNames(a + [blank] + b) == HostNames(a) + HostNames(b)
  {
    hide HostNames;
    TrimOfPadded(blank, "", "");
    assert blank + "" + "" == blank;
    HostNamesOfConcat(a + [blank], b);
    HostNamesOfConcat(a, [blank]);
    NoHostNames(blank);
  }

  lemma NoHostNames(blank: string)
    requires TrimSpace(blank) == ""
    ensures HostNames([blank]) == []
  {
    hide TrimSpace;
    assert [blank][..0] == [];
  }

  // ---------- The hosts of a route ----------

  function ExtensionKey(): string {
    KeyOf(HostnameExtension)
  }

  /** The hosts the hostname-extension annotation adds each time it is visited. */
  function Extension(annotations: map<string, Annotation>): seq<string> {
    if ExtensionKey() in annotations then HostNames(Split(annotations[ExtensionKey()].value, ',')) else []
  }

  /** No other handler touches the hostnames. */
  lemma VisitHostnames(
    env: Env, ingress: Ingress, sections: set<string>, w: World, route: HTTPRoute, key: string, a: Annotation,
    orders: Orders)
    ensures Visit(env, ingress, sections, w, route, key, a, orders).route.hostnames
         == route.hostnames + if key == ExtensionKey() then HostNames(Split(a.value, ',')) else []
  {
    hide HandlerFor;
    hide KeyOf;
    hide ApplyOp;
    hide ParseInt;
    hide HandleRuleSet;
    hide HandleProbe;
    hide HandleProtocol;
    hide HostNames;
    hide Split;
    hide ApplyProfile;
    hide ExtendListeners;
    Dispatch(key, HostnameExtension);
    if key != LAST_APPLIED && HandlerFor(key).Some? {
      match HandlerFor(key).value {
        case HostnameExtension =>
          ExtendKeepsRouting(env.naming, ingress, sections, w, route, HostNames(Split(a.value, ',')));
        case _ =>
      }
    }
  }

  /** One pass over the annotations adds the extension once, however often and in whatever order they are visited. */
  lemma {:induction false} VisitAllHostnames(
    env: Env, ingress: Ingress, sections: set<string>, schedule: Schedule, i: nat, p: Pass, order: seq<string>)
    requires NoDuplicates(order) && forall k | k in order :: k in p.annotations
    ensures var r := VisitAll(env, ingress, sections, schedule, i, p, order);
            && r.route.hostnames
              == p.route.hostnames + (if ExtensionKey() in order then Extension(p.annotations) else [])
            && forall k | k in p.annotations :: r.annotations[k].value == p.annotations[k].value
  {
    hide Visit;
    hide HostNames;
    hide Split;
    hide ExtensionKey;
    if order != [] {
      var init, last := order[..|order| - 1], order[|order| - 1];
      assert order == init + [last];
      VisitAllHostnames(env, ingress, sections, schedule, i, p, init);
      var q := VisitAll(env, ingress, sections, schedule, i, p, init);
      var orders := OrdersAt(schedule, i, last, q.world, q.route);
      VisitHostnames(env, ingress, sections, q.world, q.route, last, q.annotations[last], orders);
      VisitKeepsValue(env, ingress, sections, q.world, q.route, last, q.annotations[last], orders);
    }
  }

  function OwnHost(host: string): seq<string> {
    if host != "" then [host] else []
  }

  /** Each route lists its own host, then the extension once for each rule of its host that has paths. */
  ghost predicate HostnamesSoFar(ingress: Ingress, a0: map<string, Annotation>, s: IngressRun, n: nat)
    requires n <= |ingress.rules|
  {
    && SameValues(a0, s.annotations)
    && forall h | h in s.routes :: s.routes[h].hostnames == HostnamesAfter(ingress, Extension(a0), h, n)
  }

  lemma PassHostnames(env: Env, ingress: Ingress, schedule: Schedule, s: IngressRun, i: nat)
    requires i < |ingress.rules| && ingress.rules[i].http.Some? && ValidSchedule(schedule, s.annotations.Keys)
    ensures var p := PassEnd(env, ingress, schedule, s, i);
            && p.route.hostnames
              == RouteFor(env.naming, ingress, s, ingress.rules[i].host).1.hostnames + Extension(s.annotations)
            && SameValues(s.annotations, p.annotations)
  {
    hide VisitAll;
    hide RouteFor;
    hide TranslatePaths;
    hide ExtensionKey;
    var start, order := PassStart(env.naming, ingress, s, i), schedule.annotations(i);
    assert Lists(order, s.annotations.Keys);
    VisitAllHostnames(env, ingress, SectionsOf(start.route.parentRefs), schedule, i, start, order);
  }

  /** The hostnames of a route after `n` rules. */
  function HostnamesAfter(ingress: Ingress, extension: seq<string>, host: string, n: nat): seq<string>
    requires n <= |ingress.rules|
  {
    OwnHost(host) + Repeated(extension, Passes(ingress, host, n))
  }

  lemma OneMoreRule(ingress: Ingress, extension: seq<string>, host: string, i: nat)
    requires i < |ingress.rules|
    ensures HostnamesAfter(ingress, extension, host, i + 1)
         == HostnamesAfter(ingress, extension, host, i)
            + if ingress.rules[i].host == host && ingress.rules[i].http.Some? then extension else []
  {
    var own, m := OwnHost(host), Passes(ingress, host, i);
    assert own + Repeated(extension, m) + extension == own + (Repeated(extension, m) + extension);
  }

  lemma RouteHostnames(env: Env, ingress: Ingress, a0: map<string, Annotation>, s: IngressRun, i: nat)
    requires i < |ingress.rules| && RoutesAreTranslations(env, ingress, s, i) && HostnamesSoFar(ingress, a0, s, i)
    ensures RouteFor(env.naming, ingress, s, ingress.rules[i].host).1.hostnames
         == HostnamesAfter(ingress, Extension(a0), ingress.rules[i].host, i)
  {
    hide NewRoute;
    hide Extension;
    var host := ingress.rules[i].host;
    NewRouteIsEmpty(env.naming, s.world, ingress, host);
    if host !in s.routes {
      NoPassesBefore(ingress, host, i);
    }
  }

  lemma RuleHostnames(
    env: Env, ingress: Ingress, schedule: Schedule, a0: map<string, Annotation>, s: IngressRun, i: nat)
    requires i < |ingress.rules| && ValidSchedule(schedule, s.annotations.Keys)
    requires RoutesAreTranslations(env, ingress, s, i) && HostnamesSoFar(ingress, a0, s, i)
    ensures HostnamesSoFar(ingress, a0, HandleRule(env, ingress, schedule, s, i), i + 1)
  {
    hide PassEnd;
    hide RouteFor;
    hide HandleRule;
    hide HostnamesAfter;
    hide ValidSchedule;
    hide RoutesAreTranslations;
    RouteHostnames(env, ingress, a0, s, i);
    var (w, route) := RouteFor(env.naming, ingress, s, ingress.rules[i].host);
    if ingress.rules[i].http.Some? {
      MigratedRule(env, ingress, schedule, s, i, w, route);
      PassHostnames(env, ingress, schedule, s, i);
      assert Extension(s.annotations) == Extension(a0);
    } else {
      PathlessRule(env, ingress, schedule, s, i, w, route);
    }
    forall h { OneMoreRule(ingress, Extension(a0), h, i); }
  }

  lemma {:induction false} HostnamesHold(env: Env, ingress: Ingress, schedule: Schedule, s: IngressRun, n: nat)
    requires n <= |ingress.rules| && ValidSchedule(schedule, s.annotations.Keys) && s.routes == map[]
    ensures HostnamesSoFar(ingress, s.annotations, HandleRules(env, ingress, schedule, s, n), n)
  {
    hide HandleRule;
    hide ValidSchedule;
    hide Extension;
    if n > 0 {
      HostnamesHold(env, ingress, schedule, s, n - 1);
      TranslationsHold(env, ingress, schedule, s, n - 1);
      RuleHostnames(env, ingress, schedule, s.annotations, HandleRules(env, ingress, schedule, s, n - 1), n - 1);
    }
  }

  // ---------- Which hosts are served ----------

  predicate IsWildcard(pattern: string) {
    "*." <= pattern
  }

  /** The part of a host that stands for the asterisk of a pattern. */
  predicate Stands(part: string, pattern: string, host: string) {
    IsWildcard(pattern) && part != "" && host == part + pattern[1..]
  }

  /** The Gateway API reading (`Hostname` in its v1 reference): a wildcard stands for one or more labels. */
  ghost predicate RouteTakes(pattern: string, host: string) {
    if IsWildcard(pattern) then exists part :: Stands(part, pattern, host) else host == pattern
  }

  /** The Kubernetes reading ("Hostname wildcards" in the Ingress documentation): a wildcard stands for a single
      label. */
  ghost predicate IngressTakes(pattern: string, host: string) {
    if IsWildcard(pattern) then exists part :: Stands(part, pattern, host) && '.' !in part else host == pattern
  }

  /** A converted host takes every request host the Ingress takes; it takes no other exactly when it is not a
      wildcard. */
  lemma WildcardReadings(pattern: string)
    ensures forall host :: IngressTakes(pattern, host) ==> RouteTakes(pattern, host)
    ensures (forall host :: RouteTakes(pattern, host) ==> IngressTakes(pattern, host)) <==> !IsWildcard(pattern)
  {
    if IsWildcard(pattern) {
      var host := "a.b" + pattern[1..];
      assert Stands("a.b", pattern, host);
      forall part | Stands(part, pattern, host) ensures '.' in part {
        assert |part| == 3 && part == host[..3] == "a.b";
        assert part[1] == '.';
      }
      assert RouteTakes(pattern, host) && !IngressTakes(pattern, host);
    }
  }

  /** A route without hostnames takes every host, and one with hostnames takes those they match. */
  ghost predicate TakesHost(hostnames: seq<string>, host: string) {
    hostnames == [] || exists h :: h in hostnames && RouteTakes(h, host)
  }

  /** A route takes what its own host and those of the extension match. A rule without a host takes every host, exactly
      as long as the extension names none: the annotation then narrows the route to the hosts it names. */
  lemma HostsTaken(
    env: Env, ingress: Ingress, schedule: Schedule, w: World, annotations: map<string, Annotation>, host: string,
    requested: string)
    requires ValidSchedule(schedule, annotations.Keys)
    requires DistinctRouteNames(env.naming, ingress) && Committed(ingress, host, |ingress.rules|)
    ensures var g := HandleIngress(env, ingress, schedule, w, annotations).world.graph;
            var name := RouteNameFor(env.naming, ingress, host);
            && name in g.httpRoutes
            && (TakesHost(g.httpRoutes[name].hostnames, requested) <==>
                if host == "" && Extension(annotations) == [] then true
                else (host != "" && RouteTakes(host, requested))
                     || exists e :: e in Extension(annotations) && RouteTakes(e, requested))
  {
    hide HandleRules;
    hide DistinctRouteNames;
    hide ValidSchedule;
    hide Extension;
    hide Committed;
    hide RoutesAreTranslations;
    hide RouteTakes;
    var n, start := |ingress.rules|, IngressStart(w, ingress, annotations);
    GraphEntriesHold(env, ingress, schedule, start, n);
    HostnamesHold(env, ingress, schedule, start, n);
    CommittedHasPasses(ingress, host, n);
    RepeatedElements(Extension(annotations), Passes(ingress, host, n));
    var hostnames := HandleRules(env, ingress, schedule, start, n).routes[host].hostnames;
    assert hostnames == OwnHost(host) + Repeated(Extension(annotations), Passes(ingress, host, n));
    assert forall h :: h in hostnames <==> (host != "" && h == host) || h in Extension(annotations);
    HostsMatched(hostnames, host, Extension(annotations), requested);
  }

  lemma HostsMatched(hostnames: seq<string>, host: string, extension: seq<string>, requested: string)
    requires forall h :: h in hostnames <==> (host != "" && h == host) || h in extension
    ensures TakesHost(hostnames, requested) <==>
            if host == "" && extension == [] then true
            else (host != "" && RouteTakes(host, requested)) || exists e :: e in extension && RouteTakes(e, requested)
  {
    hide RouteTakes;
    assert hostnames == [] <==> host == "" && extension == [] by {
      if hostnames != [] {
        assert hostnames[0] in hostnames;
      }
      if host != "" {
        assert host in hostnames;
      }
      if extension != [] {
        assert extension[0] in extension;
      }
    }
    if e :| e in extension && RouteTakes(e, requested) {
      assert e in hostnames;
    }
    if host != "" && RouteTakes(host, requested) {
      assert host in hostnames;
    }
  }

  /** The extension "a" of a rule without a host: the route no longer takes "b". */
  lemma HostlessIsNarrowed(env: Env, schedule: Schedule, w: World, name: NamespacedName, paths: seq<IngressPath>)
    requires ValidSchedule(schedule, {ExtensionKey()})
    ensures var ingress := Ingress(name, [], [IngressRule("", Some(paths))]);
            var annotations := map[ExtensionKey() := NewAnnotation(ExtensionKey(), "a")];
            var g := HandleIngress(env, ingress, schedule, w, annotations).world.graph;
            var route := RouteNameFor(env.naming, ingress, "");
            && route in g.httpRoutes
            && TakesHost(g.httpRoutes[route].hostnames, "a") && !TakesHost(g.httpRoutes[route].hostnames, "b")
  {
    hide HandleIngress;
    hide ExtensionKey;
    hide ValidSchedule;
    hide TakesHost;
    hide HostNames;
    hide Split;
    var ingress := Ingress(name, [], [IngressRule("", Some(paths))]);
    var annotations := map[ExtensionKey() := NewAnnotation(ExtensionKey(), "a")];
    OneHostName();
    assert annotations.Keys == {ExtensionKey()};
    assert ingress.rules[0].host == "" && Committed(ingress, "", 1);
    HostsTaken(env, ingress, schedule, w, annotations, "", "a");
    HostsTaken(env, ingress, schedule, w, annotations, "", "b");
    assert RouteTakes("a", "a") && !RouteTakes("a", "b");
  }

  lemma OneHostName()
    ensures HostNames(Split("a", ',')) == ["a"] && TrimSpace("a") == "a"
  {
    hide Split;
    hide TrimSpace;
    SplitWithoutSeparator("a", ',');
    LetterIsNoSpace('a');
    TrimmedAlready("a");
    assert ["a"][..0] == [];
  }

  lemma LetterIsNoSpace(c: char)
    requires 'a' <= c <= 'z'
    ensures !IsSpace(c)
  {
  }

  lemma TrimmedAlready(s: string)
    requires s != "" && !IsSpace(s[0]) && !IsSpace(s[|s| - 1])
    ensures TrimSpace(s) == s
  {
    hide IsSpace;
  }
}
