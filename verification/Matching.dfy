/** Ingress path matching, HTTPRoute path matching, and their agreement on a converted ingress. */
module Matching {
  import opened Text
  import opened Annotations
  import opened Resources
  import opened Gateways
  import opened Handlers
  import opened Ingresses
  import opened Routing

  // ---------- Prefix matching by path elements and by characters ----------

  /** The elements of a prefix: its labels, without the empty one after a trailing slash. */
  function Elements(prefix: string): seq<string> {
    var labels := Split(prefix, '/');
    if |labels| > 1 && labels[|labels| - 1] == "" then labels[..|labels| - 1] else labels
  }

  /** The Kubernetes reading ("Path types" in the Ingress documentation): the elements of the prefix lead the
      request's. */
  predicate ElementPrefix(prefix: string, request: string) {
    Elements(prefix) <= Split(request, '/')
  }

  function WithoutTrailingSlash(prefix: string): string {
    if prefix != "" && prefix[|prefix| - 1] == '/' then prefix[..|prefix| - 1] else prefix
  }

  /** The Gateway API reading (`PathMatchType` in its v1 reference): the prefix, less a trailing slash, is the whole
      request or is followed by a slash in it. */
  predicate SlashPrefix(prefix: string, request: string) {
    var p := WithoutTrailingSlash(prefix);
    request == p || (p + ['/'] <= request)
  }

  lemma {:induction false} JoinOfSplit(s: string, sep: char)
    ensures Join(Split(s, sep), sep) == s
  {
    if s != "" {
      var rest := Split(s[1..], sep);
      JoinOfSplit(s[1..], sep);
      assert ([""] + rest)[1..] == rest;
      assert ([[s[0]] + rest[0]] + rest[1..])[1..] == rest[1..];
    }
  }

  lemma {:induction false} JoinOfConcat(a: seq<string>, b: seq<string>, sep: char)
    requires a != [] && b != []
    ensures Join(a + b, sep) == Join(a, sep) + [sep] + Join(b, sep)
  {
    if |a| == 1 {
      assert (a + b)[1..] == b;
    } else {
      JoinOfConcat(a[1..], b, sep);
      assert (a + b)[1..] == a[1..] + b;
    }
  }

  lemma {:induction false} LastLabel(s: string)
    ensures var labels := Split(s, '/');
            labels[|labels| - 1] == "" <==> s == "" || s[|s| - 1] == '/'
  {
    if s != "" {
      LastLabel(s[1..]);
      if s[1..] == "" {
        assert Split("", '/') == [""];
      }
    }
  }

  lemma ElementsOfPrefix(prefix: string)
    ensures Elements(prefix) == Split(WithoutTrailingSlash(prefix), '/')
  {
    hide Split;
    var p := WithoutTrailingSlash(prefix);
    LastLabel(prefix);
    if prefix != "" && prefix[|prefix| - 1] == '/' {
      assert prefix == p + ['/'] + "";
      SplitOfConcat(p, "", '/');
      SplitWithoutSeparator("", '/');
    } else if prefix == "" {
      SplitWithoutSeparator("", '/');
    }
  }

  /** The two readings of a prefix agree on every request. */
  lemma PrefixReadingsAgree(prefix: string, request: string)
    ensures ElementPrefix(prefix, request) <==> SlashPrefix(prefix, request)
  {
    hide Split;
    hide Join;
    var p := WithoutTrailingSlash(prefix);
    ElementsOfPrefix(prefix);
    var e, labels := Split(p, '/'), Split(request, '/');
    JoinOfSplit(p, '/');
    JoinOfSplit(request, '/');
    if e <= labels {
      var rest := labels[|e|..];
      assert labels == e + rest;
      if rest == [] {
        assert labels == e;
      } else {
        JoinOfConcat(e, rest, '/');
        assert request == p + ['/'] + Join(rest, '/');
        assert request[..|p| + 1] == p + ['/'];
      }
    }
    if p + ['/'] <= request {
      var tail := request[|p| + 1..];
      assert request == p + ['/'] + tail;
      SplitOfConcat(p, tail, '/');
      assert labels[..|e|] == e;
    }
  }

  // ---------- Ingress matching ----------

  /** All rules of a host, all their paths but the dropped ones, in order. */
  function HostPaths(ingress: Ingress, host: string, n: nat): seq<IngressPath>
    requires n <= |ingress.rules|
  {
    if n == 0 then []
    else
      var rule := ingress.rules[n - 1];
      HostPaths(ingress, host, n - 1)
      + if rule.host == host && rule.http.Some? then KeptPaths(rule.http.value) else []
  }

  function KeptPaths(paths: seq<IngressPath>): (r: seq<IngressPath>)
    ensures forall p | p in r :: !Dropped(p)
    ensures (forall p | p in paths :: !Dropped(p)) ==> r == paths
  {
    if paths == [] then []
    else
      var init, last := paths[..|paths| - 1], paths[|paths| - 1];
      assert paths == init + [last];
      KeptPaths(init) + if Dropped(last) then [] else [last]
  }

  predicate IsPrefixPath(p: IngressPath) {
    p.pathType == Some(PrefixPath)
  }

  /** A path without a type, of an unknown type or left to the implementation is read as exact. */
  predicate IngressMatches(p: IngressPath, request: string) {
    if IsPrefixPath(p) then ElementPrefix(p.path, request) else p.path == request
  }

  /** Exact goes before prefix, and the longer prefix before the shorter. */
  predicate Beats(p: IngressPath, q: IngressPath) {
    if !IsPrefixPath(p) then IsPrefixPath(q) else IsPrefixPath(q) && |p.path| > |q.path|
  }

  /** The path an Ingress sends a request to: it matches, no match beats it, and it beats every earlier match. */
  ghost predicate IngressChooses(paths: seq<IngressPath>, request: string, k: nat) {
    && k < |paths| && IngressMatches(paths[k], request)
    && (forall j | 0 <= j < |paths| && IngressMatches(paths[j], request) ::
          !Beats(paths[j], paths[k]) && (j < k ==> Beats(paths[k], paths[j])))
  }

  /** At most one path is chosen. */
  lemma IngressChoiceUnique(paths: seq<IngressPath>, request: string, k: nat, l: nat)
    requires IngressChooses(paths, request, k) && IngressChooses(paths, request, l)
    ensures k == l
  {
  }

  // ---------- HTTPRoute matching ----------

  /** A rule as the translation makes it: one match, on a path. */
  predicate PathRule(rule: RouteRule) {
    |rule.matches| == 1 && rule.matches[0].path.Some?
    && rule.matches[0].path.value.pathType.Some? && rule.matches[0].path.value.value.Some?
    && rule.matches[0].path.value.pathType.value != RegularExpression
  }

  function TypeOfRule(rule: RouteRule): PathType
    requires PathRule(rule)
  {
    rule.matches[0].path.value.pathType.value
  }

  function ValueOfRule(rule: RouteRule): string
    requires PathRule(rule)
  {
    rule.matches[0].path.value.value.value
  }

  predicate RuleMatches(rule: RouteRule, request: string)
    requires PathRule(rule)
  {
    if TypeOfRule(rule) == Exact then ValueOfRule(rule) == request else SlashPrefix(ValueOfRule(rule), request)
  }

  /** The precedence of matches: exact first, then the prefix with more characters. */
  predicate Precedes(a: RouteRule, b: RouteRule)
    requires PathRule(a) && PathRule(b)
  {
    if TypeOfRule(a) == Exact then TypeOfRule(b) == PathPrefix
    else TypeOfRule(b) == PathPrefix && |ValueOfRule(a)| > |ValueOfRule(b)|
  }

  /** The rule a gateway picks, scanning the rules in order and keeping the earlier one on ties. */
  function GatewayChoice(rules: seq<RouteRule>, request: string): (k: Option<nat>)
    requires forall r | r in rules :: PathRule(r)
    ensures k.Some? ==> k.value < |rules|
  {
    if rules == [] then None
    else
      var init, last := rules[..|rules| - 1], rules[|rules| - 1];
      var best := GatewayChoice(init, request);
      if RuleMatches(last, request) && (best.None? || Precedes(last, rules[best.value]))
      then Some(|rules| - 1) else best
  }

  lemma TranslatedRule(p: IngressPath, request: string)
    requires !Dropped(p)
    ensures var rule := RuleOf(p);
            && PathRule(rule) && ValueOfRule(rule) == p.path
            && (TypeOfRule(rule) == PathPrefix <==> IsPrefixPath(p))
            && (RuleMatches(rule, request) <==> IngressMatches(p, request))
  {
    PrefixReadingsAgree(p.path, request);
  }

  function Translated(paths: seq<IngressPath>): (r: seq<RouteRule>)
    requires forall p | p in paths :: !Dropped(p)
    ensures |r| == |paths|
    ensures forall i | 0 <= i < |paths| :: r[i] == RuleOf(paths[i])
  {
    seq(|paths|, i requires 0 <= i < |paths| => assert paths[i] in paths; RuleOf(paths[i]))
  }

  lemma TranslatedRules(paths: seq<IngressPath>, request: string)
    requires forall p | p in paths :: !Dropped(p)
    ensures forall r | r in Translated(paths) :: PathRule(r)
    ensures forall i | 0 <= i < |paths| ::
              var rule := Translated(paths)[i];
              && PathRule(rule) && ValueOfRule(rule) == paths[i].path
              && (TypeOfRule(rule) == PathPrefix <==> IsPrefixPath(paths[i]))
              && (RuleMatches(rule, request) <==> IngressMatches(paths[i], request))
  {
    hide IngressMatches;
    hide RuleMatches;
    forall i | 0 <= i < |paths|
      ensures var rule := Translated(paths)[i];
              && PathRule(rule) && ValueOfRule(rule) == paths[i].path
              && (TypeOfRule(rule) == PathPrefix <==> IsPrefixPath(paths[i]))
              && (RuleMatches(rule, request) <==> IngressMatches(paths[i], request))
    {
      assert paths[i] in paths;
      TranslatedRule(paths[i], request);
    }
  }

  /** The gateway's scan over the translated rules finds exactly the path the Ingress chooses. */
  lemma {:induction false} ScanFindsChoice(paths: seq<IngressPath>, request: string)
    requires forall p | p in paths :: !Dropped(p)
    requires forall r | r in Translated(paths) :: PathRule(r)
    ensures match GatewayChoice(Translated(paths), request)
            case None => forall p | p in paths :: !IngressMatches(p, request)
            case Some(k) => IngressChooses(paths, request, k)
  {
    hide IngressMatches;
    hide RuleMatches;
    hide IsPrefixPath;
    if paths != [] {
      var init, last := paths[..|paths| - 1], paths[|paths| - 1];
      assert paths == init + [last];
      TranslatedRules(paths, request);
      assert Translated(paths)[..|paths| - 1] == Translated(init);
      assert Translated(paths)[|paths| - 1] == RuleOf(last);
      ScanFindsChoice(init, request);
    }
  }

  // ---------- The converted ingress ----------

  lemma {:induction false} TranslatePathsIsTranslated(paths: seq<IngressPath>)
    ensures TranslatePaths(paths) == Translated(KeptPaths(paths))
  {
    hide TranslatePaths;
    hide Dropped;
    hide RuleOf;
    if paths == [] {
      OneMorePath([], IngressPath("", None, ResourceBackend));
    } else {
      var init, last := paths[..|paths| - 1], paths[|paths| - 1];
      assert paths == init + [last];
      TranslatePathsIsTranslated(init);
      OneMorePath(init, last);
    }
  }

  lemma {:induction false} HostRulesAreTranslated(ingress: Ingress, host: string, n: nat)
    requires n <= |ingress.rules|
    ensures forall p | p in HostPaths(ingress, host, n) :: !Dropped(p)
    ensures HostRules(ingress, host, n) == Translated(HostPaths(ingress, host, n))
  {
    hide Dropped;
    hide RuleOf;
    hide TranslatePaths;
    hide KeptPaths;
    if n > 0 {
      HostRulesAreTranslated(ingress, host, n - 1);
      if ingress.rules[n - 1].http.Some? {
        TranslatePathsIsTranslated(ingress.rules[n - 1].http.value);
      }
    }
  }

  /** The choice depends on the matches alone. */
  lemma {:induction false} ChoiceOfBare(rules: seq<RouteRule>, request: string)
    requires forall r | r in Bare(rules) :: PathRule(r)
    ensures forall r | r in rules :: PathRule(r)
    ensures GatewayChoice(rules, request) == GatewayChoice(Bare(rules), request)
  {
    hide SlashPrefix;
    forall r | r in rules ensures PathRule(r) {
      var i :| 0 <= i < |rules| && rules[i] == r;
      assert Bare(rules)[i] in Bare(rules);
    }
    if rules != [] {
      var init := rules[..|rules| - 1];
      assert Bare(rules)[..|rules| - 1] == Bare(init);
      ChoiceOfBare(init, request);
    }
  }

  /** The route of a host in the graph sends a request to the backend the Ingress sends it to, or nowhere when the
      Ingress has no match. */
  ghost predicate SameBackend(naming: Naming, ingress: Ingress, g: Graph, host: string, request: string) {
    var name := RouteNameFor(naming, ingress, host);
    var paths := HostPaths(ingress, host, |ingress.rules|);
    && name in g.httpRoutes
    && RoutesAs(g.httpRoutes[name].rules, paths, request)
  }

  /** There is one rule for each path, and the gateway's choice among the rules is the choice among the paths: it sends
      the request to the backend of the chosen path. */
  ghost predicate RoutesAs(rules: seq<RouteRule>, paths: seq<IngressPath>, request: string) {
    && |rules| == |paths|
    && (forall r | r in rules :: PathRule(r))
    && match GatewayChoice(rules, request)
       case None => forall p | p in paths :: !IngressMatches(p, request)
       case Some(k) =>
         && IngressChooses(paths, request, k)
         && paths[k].backend.ServiceBackend?
         && rules[k].backendRefs
            == [BackendRef(None, None, paths[k].backend.name, Some(paths[k].backend.portNumber))]
  }

  /** Every host with paths keeps its meaning, whatever the annotations and in whatever order they are visited. */
  lemma MeaningPreserved(
    env: Env, ingress: Ingress, schedule: Schedule, w: World, annotations: map<string, Annotation>, host: string,
    request: string)
    requires ValidSchedule(schedule, annotations.Keys)
    requires DistinctRouteNames(env.naming, ingress)
    requires Committed(ingress, host, |ingress.rules|)
    ensures SameBackend(env.naming, ingress, HandleIngress(env, ingress, schedule, w, annotations).world.graph, host,
                        request)
  {
    hide HandleRules;
    hide HostPaths;
    hide HostRules;
    hide IngressMatches;
    hide GatewayChoice;
    hide DistinctRouteNames;
    hide ValidSchedule;
    hide PathRule;
    hide IngressChooses;
    hide Committed;
    var n := |ingress.rules|;
    var start := IngressStart(w, ingress, annotations);
    var s := HandleRules(env, ingress, schedule, start, n);
    TranslationsHold(env, ingress, schedule, start, n);
    GraphEntriesHold(env, ingress, schedule, start, n);
    var route := s.routes[host];
    var paths := HostPaths(ingress, host, n);
    HostRulesAreTranslated(ingress, host, n);
    TranslatedRules(paths, request);
    ChoiceOfBare(route.rules, request);
    ScanFindsChoice(paths, request);
    match GatewayChoice(route.rules, request) {
      case None =>
      case Some(k) =>
        assert Bare(route.rules)[k] == RuleOf(paths[k]);
    }
  }

  /** All rules of a host, all their paths, in order. */
  function AllPaths(ingress: Ingress, host: string, n: nat): seq<IngressPath>
    requires n <= |ingress.rules|
  {
    if n == 0 then []
    else
      var rule := ingress.rules[n - 1];
      AllPaths(ingress, host, n - 1) + if rule.host == host && rule.http.Some? then rule.http.value else []
  }

  lemma {:induction false} NothingDropped(ingress: Ingress, host: string, n: nat)
    requires n <= |ingress.rules|
    requires forall p | p in AllPaths(ingress, host, n) :: !Dropped(p)
    ensures HostPaths(ingress, host, n) == AllPaths(ingress, host, n)
  {
    hide Dropped;
    hide KeptPaths;
    if n > 0 {
      var before, rule := AllPaths(ingress, host, n - 1), ingress.rules[n - 1];
      assert forall p | p in before :: p in AllPaths(ingress, host, n);
      NothingDropped(ingress, host, n - 1);
      if rule.host == host && rule.http.Some? {
        assert forall p | p in rule.http.value :: p in AllPaths(ingress, host, n);
      }
    }
  }

  // ---------- The documented precedence ----------

  /** The Kubernetes documentation asks for the longest matching path first, and for exact over prefix between
      equals. */
  predicate LongerBeats(p: IngressPath, q: IngressPath) {
    |p.path| > |q.path| || (|p.path| == |q.path| && !IsPrefixPath(p) && IsPrefixPath(q))
  }

  ghost predicate LongestChooses(paths: seq<IngressPath>, request: string, k: nat) {
    && k < |paths| && IngressMatches(paths[k], request)
    && (forall j | 0 <= j < |paths| && IngressMatches(paths[j], request) ::
          !LongerBeats(paths[j], paths[k]) && (j < k ==> LongerBeats(paths[k], paths[j])))
  }

  /** A prefix path that is an exact path with a slash added. */
  predicate SlashedTwin(exact: IngressPath, prefix: IngressPath) {
    !IsPrefixPath(exact) && IsPrefixPath(prefix) && prefix.path == exact.path + ['/']
  }

  lemma MatchLengths(p: IngressPath, request: string)
    requires IngressMatches(p, request)
    ensures |p.path| <= |request| || (IsPrefixPath(p) && p.path == request + ['/'])
    ensures !IsPrefixPath(p) ==> p.path == request
  {
    if IsPrefixPath(p) {
      PrefixReadingsAgree(p.path, request);
    }
  }

  lemma TwinMatches(exact: IngressPath, prefix: IngressPath)
    requires SlashedTwin(exact, prefix)
    ensures IngressMatches(exact, exact.path) && IngressMatches(prefix, exact.path)
  {
    PrefixReadingsAgree(prefix.path, exact.path);
  }

  /** The order the routes implement is the documented one, for every request, exactly when no exact path has a prefix
      twin that differs by a trailing slash. */
  lemma DocumentedPrecedenceIff(paths: seq<IngressPath>)
    requires forall p | p in paths :: !Dropped(p)
    ensures (forall request, k :: IngressChooses(paths, request, k) <==> LongestChooses(paths, request, k))
            <==> (forall i, j | 0 <= i < |paths| && 0 <= j < |paths| :: !SlashedTwin(paths[i], paths[j]))
  {
    if i, j :| 0 <= i < |paths| && 0 <= j < |paths| && SlashedTwin(paths[i], paths[j]) {
      TwinSplitsChoices(paths, i, j);
    } else {
      forall request, k ensures IngressChooses(paths, request, k) <==> LongestChooses(paths, request, k) {
        SameOrderWithoutTwins(paths, request, k);
      }
    }
  }

  lemma TwinSplitsChoices(paths: seq<IngressPath>, i: nat, j: nat)
    requires forall p | p in paths :: !Dropped(p)
    requires i < |paths| && j < |paths| && SlashedTwin(paths[i], paths[j])
    ensures exists k: nat :: IngressChooses(paths, paths[i].path, k) && !LongestChooses(paths, paths[i].path, k)
  {
    hide IngressMatches;
    var request := paths[i].path;
    TwinMatches(paths[i], paths[j]);
    TranslatedRules(paths, request);
    ScanFindsChoice(paths, request);
    var choice := GatewayChoice(Translated(paths), request);
    assert paths[i] in paths;
    var k := choice.value;
    assert !Beats(paths[i], paths[k]);
    MatchLengths(paths[k], request);
    assert LongerBeats(paths[j], paths[k]);
  }

  lemma SameOrderWithoutTwins(paths: seq<IngressPath>, request: string, k: nat)
    requires forall i, j | 0 <= i < |paths| && 0 <= j < |paths| :: !SlashedTwin(paths[i], paths[j])
    ensures IngressChooses(paths, request, k) <==> LongestChooses(paths, request, k)
  {
    hide IngressMatches;
    forall i, j
      | 0 <= i < |paths| && 0 <= j < |paths| && IngressMatches(paths[i], request) && IngressMatches(paths[j], request)
      ensures Beats(paths[i], paths[j]) <==> LongerBeats(paths[i], paths[j])
    {
      MatchLengths(paths[i], request);
      MatchLengths(paths[j], request);
      assert !SlashedTwin(paths[i], paths[j]) && !SlashedTwin(paths[j], paths[i]);
    }
  }
}
