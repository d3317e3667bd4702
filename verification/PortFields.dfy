/** The backend TLS policies of a conversion, in terms of the annotations and the paths. */
module PortFields {
  import opened Text
  import opened Ordering
  import opened BackendGroups
  import opened BackendTLS
  import opened Handlers
  import opened Ingresses
  import opened Routing
  import opened Matching
  import opened PortRuns

  /** The word "https", in any case. */
  predicate SaysHTTPS(value: string) {
    |value| == 5 && value[0] in "hH" && value[1] in "tT" && value[2] in "tT" && value[3] in "pP" && value[4] in "sS"
  }

  lemma HTTPSInAnyCase(value: string)
    ensures IsHTTPS(value) <==> SaysHTTPS(value)
  {
    var lower := ToLower(value);
    if |value| == 5 {
      assert lower == [lower[0], lower[1], lower[2], lower[3], lower[4]];
    }
  }

  /** The first of the paths that has the service for its backend. */
  predicate FirstPathTo(paths: seq<IngressPath>, namespace: string, service: NamespacedName, i: nat) {
    && i < |paths|
    && PathTo(paths[i], namespace, service)
    && forall j | 0 <= j < i :: !PathTo(paths[j], namespace, service)
  }

  predicate PathTo(p: IngressPath, namespace: string, service: NamespacedName) {
    p.backend.ServiceBackend? && service == NamespacedName(namespace, p.backend.name)
  }

  lemma PortOfPath(p: IngressPath, namespace: string, service: NamespacedName)
    requires !Dropped(p)
    ensures FirstPort(Refs([RuleOf(p)]), namespace, service)
         == if PathTo(p, namespace, service) then Some(p.backend.portNumber) else None
  {
    var rule := RuleOf(p);
    assert [rule][..0] == [];
    assert Refs([rule]) == rule.backendRefs;
    assert rule.backendRefs[1..] == [];
  }

  lemma {:induction false} PortOfPaths(paths: seq<IngressPath>, namespace: string, service: NamespacedName, port: int)
    requires forall p | p in paths :: !Dropped(p)
    ensures FirstPort(Refs(Translated(paths)), namespace, service) == Some(port) <==>
              exists i: nat :: FirstPathTo(paths, namespace, service, i) && paths[i].backend.portNumber == port
    ensures FirstPort(Refs(Translated(paths)), namespace, service) == None <==>
              forall p | p in paths :: !PathTo(p, namespace, service)
  {
    hide FirstPort;
    hide PathTo;
    hide RuleOf;
    if paths == [] {
      NoPort(namespace, service);
    } else {
      var init, last := paths[..|paths| - 1], paths[|paths| - 1];
      assert paths == init + [last];
      PortOfPaths(init, namespace, service, port);
      assert Translated(paths) == Translated(init) + [RuleOf(last)];
      RefsOfConcat(Translated(init), [RuleOf(last)]);
      FirstPortOfConcat(Refs(Translated(init)), Refs([RuleOf(last)]), namespace, service);
      PortOfPath(last, namespace, service);
      FirstOfMore(init, last, namespace, service, port);
    }
  }

  lemma NoPort(namespace: string, service: NamespacedName)
    ensures FirstPort(Refs([]), namespace, service) == None
  {
  }

  lemma FirstOfMore(init: seq<IngressPath>, last: IngressPath, namespace: string, service: NamespacedName, port: int)
    requires forall p | p in init + [last] :: !Dropped(p)
    ensures (exists i: nat :: FirstPathTo(init + [last], namespace, service, i)
                              && (init + [last])[i].backend.portNumber == port) <==>
              (exists i: nat :: FirstPathTo(init, namespace, service, i) && init[i].backend.portNumber == port)
              || ((forall p | p in init :: !PathTo(p, namespace, service))
                  && PathTo(last, namespace, service) && last.backend.portNumber == port)
  {
    hide PathTo;
    var all := init + [last];
    forall i: nat ensures FirstPathTo(all, namespace, service, i) <==>
                            FirstPathTo(init, namespace, service, i)
                            || (i == |init| && (forall p | p in init :: !PathTo(p, namespace, service))
                                && PathTo(last, namespace, service))
    {
      assert forall j | 0 <= j < |init| :: all[j] == init[j];
      if i == |init| && FirstPathTo(all, namespace, service, i) {
        forall p | p in init ensures !PathTo(p, namespace, service) {
          var j :| 0 <= j < |init| && init[j] == p;
        }
      }
      if i == |init| && (forall p | p in init :: !PathTo(p, namespace, service)) {
        assert forall j | 0 <= j < i :: all[j] in init;
      }
    }
    if (forall p | p in init :: !PathTo(p, namespace, service)) && PathTo(last, namespace, service) {
      assert FirstPathTo(all, namespace, service, |init|) && all[|init|] == last;
    }
  }

  // ---------- A conversion ----------

  /** An ingress served over HTTPS gives a service a port: the one in the first of the paths of some host to it. */
  ghost predicate AsksPort(input: Input, service: NamespacedName, port: int) {
    && AppGW("backend-protocol") in input.annotations
    && SaysHTTPS(input.annotations[AppGW("backend-protocol")].value)
    && exists host :: HostAsksPort(input.ingress, host, service, port)
  }

  ghost predicate HostAsksPort(ingress: Ingress, host: string, service: NamespacedName, port: int) {
    var paths := HostPaths(ingress, host, |ingress.rules|);
    exists i: nat :: FirstPathTo(paths, ingress.name.namespace, service, i) && paths[i].backend.portNumber == port
  }

  lemma HostPortIsFirst(ingress: Ingress, host: string, service: NamespacedName, port: int)
    ensures HostPort(ingress, host, |ingress.rules|, service) == Some(port) <==>
              HostAsksPort(ingress, host, service, port)
  {
    hide FirstPort;
    hide HostRules;
    hide HostPaths;
    hide Dropped;
    var n := |ingress.rules|;
    HostRulesAreTranslated(ingress, host, n);
    PortOfPaths(HostPaths(ingress, host, n), ingress.name.namespace, service, port);
  }

  lemma GivesIsAsks(input: Input, service: NamespacedName, port: int)
    ensures GivesPort(input, service, port) <==> AsksPort(input, service, port)
  {
    hide HostPort;
    hide HostAsksPort;
    hide KeyOf;
    hide AppGW;
    hide IsHTTPS;
    hide SaysHTTPS;
    Keys();
    if AppGW("backend-protocol") in input.annotations {
      HTTPSInAnyCase(input.annotations[AppGW("backend-protocol")].value);
    }
    if host :| HostPort(input.ingress, host, |input.ingress.rules|, service) == Some(port) {
      HostPortIsFirst(input.ingress, host, service, port);
    }
    if host :| HostAsksPort(input.ingress, host, service, port) {
      HostPortIsFirst(input.ingress, host, service, port);
    }
  }

  /** The ports of the backend TLS policy of a service. */
  function PortsListed(g: TLSPolicies, service: NamespacedName): seq<int> {
    var name := NamespacedName(service.namespace, service.name + "-policy");
    if name in g then g[name].spec else []
  }

  /** After a conversion the policy of a service lists, in strictly increasing order, exactly the ports the
      ingresses ask for. */
  lemma ConvertCollectsPorts(
    env: Env, options: Options, scrapedWAFID: string,
    inputs: map<NamespacedName, Input>, schedules: NamespacedName -> Schedule, listing: seq<NamespacedName>,
    service: NamespacedName, port: int)
    requires ValidInput(inputs, schedules) && Lists(listing, inputs.Keys)
    ensures var g := Convert(env, options, scrapedWAFID, inputs, schedules, listing).world.graph.backendTLSPolicies;
            var ports := PortsListed(g, service);
            && (forall i, j | 0 <= i < j < |ports| :: ports[i] < ports[j])
            && (port in ports <==> exists k :: k in inputs && AsksPort(inputs[k], service, port))
  {
    hide HandleIngresses;
    hide GivesPort;
    hide AsksPort;
    hide NameLess;
    hide Sort;
    hide AllAscending;
    NameLessIsStrictOrder();
    SortOfListing(listing, listing, inputs.Keys, NameLess);
    var sorted := Sort(listing, NameLess);
    ListedIn(sorted, inputs.Keys);
    var start := StartWorld(options, scrapedWAFID, sorted);
    RunCollectsPorts(env, inputs, schedules, start, sorted, service, port);
    var g := HandleIngresses(env, inputs, schedules, start, sorted).world.graph.backendTLSPolicies;
    assert PortsListed(g, service) == PortsOf(g, service);
    forall k | k in inputs ensures GivesPort(inputs[k], service, port) <==> AsksPort(inputs[k], service, port) {
      GivesIsAsks(inputs[k], service, port);
    }
    assert forall i, j | 0 <= i < j < |PortsOf(g, service)| :: IntLess(PortsOf(g, service)[i], PortsOf(g, service)[j]);
  }
}
