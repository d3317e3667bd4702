# Ingress to Gateway API conversion, verified

A Dafny model of the conversion engine of the Application Gateway for Containers migration utility, and proofs about it.

The engine turns a map of Ingresses into a Gateway, HTTPRoutes, ReferenceGrants and policies. It visits the Ingresses by
namespace and name, groups the rules of each by host into one HTTPRoute per host, and after each rule runs a handler for
every annotation of the Ingress. All handlers share one gateway context and one resource graph. Go ranges over the
annotations, over the services of a route and over the HTTPS listeners in an order it does not define.

The project has two layers.

* The specification layer describes each step as a function on values: a `World` is the gateway state and the graph.
  Whatever Go leaves open is an input: a `Schedule` gives, for every rule and annotation, the order in which the
  annotations, services and listeners come up, and `ValidSchedule` asks only that each comes up once. All theorems hold
  for every valid schedule.
* The imperative layer writes classes in place, as the program does: `AGCResourceGraph`, `GatewayContext`,
  `HTTPSListener`, `HTTPRouteContext`, `IngressAnnotationContext`, `IngressContext`. Each method is proved to take the
  view of its objects to what the specification says, from the single handlers up to `Conversion.Convert`. The
  specification's body and the method's body are written separately, so that a slip in one of them fails the proof.

| file | content |
|---|---|
| `Text.dfy`, `Ordering.dfy` | string functions, orders, sorting, listing a set |
| `Annotations.dfy` | the status machine of an annotation |
| `Resources.dfy`, `Gateways.dfy` | the output objects, the graph, the gateway and its listeners |
| `BackendGroups.dfy`, `StatusCodes.dfy`, `Probes.dfy`, `BackendTLS.dfy`, `Filters.dfy`, `RuleSets.dfy`, `Handlers.dfy` | the AGIC handlers |
| `HandlerMethods.dfy` | the remaining handlers in place, and their dispatch |
| `Ingresses.dfy` | one Ingress, and the driver, as functions |
| `Conversion.dfy` | the same in place |
| `Routing.dfy`, `Matching.dfy`, `Hostnames.dfy`, `RunMeaning.dfy` | what the routes mean |
| `Redirects.dfy` | when the HTTPS redirect is made |
| `Lifting.dfy` | from every single step to a whole Ingress |
| `ProbeCalls.dfy`, `ProbeRuns.dfy`, `ProbeFields.dfy` | health probes over an Ingress and over a run, and each setting of the policies |
| `PortRuns.dfy`, `PortFields.dfy` | backend TLS ports over a run |
| `RoutePolicies.dfy` | timeouts, cookie affinity and firewall policies over a run |
| `RuleSetOrder.dfy`, `RuleSetRuns.dfy` | rewrite rule sets beside a prefix rewrite, and over the passes of an Ingress |
| `Integrity.dfy` | the invariant of every state, and the closed output |
| `ParentRefs.dfy` | which parent references a finished route has |
| `Profiles.dfy`, `OwnProfiles.dfy` | SSL profiles over a run |
| `Destinations.dfy`, `Outcomes.dfy`, `Reported.dfy` | what the annotations are reported to have become |
| `NginxRewrite.dfy` | the NGINX rewrite-target and use-regex handlers |
| `Report.dfy` | the migration report |

Main results:

* **Meaning.** Every host with paths sends each request to the backend the Ingress sends it to, whatever the annotations,
  for every Ingress of a run (`RunMeaning.ConvertPreservesMeaning`). Paths to a resource or to a port given by name alone
  are dropped, and no others (`Routing.OneMorePath`); where there are none, the route has one rule for every path and the
  meaning of all of them (`RunMeaning.ConvertKeepsEveryPath`). The routes implement "exact before prefix, then the
  longer prefix". The Kubernetes documentation asks for the longest path first; `Matching.DocumentedPrecedenceIff` proves
  that the two agree on every request exactly when no exact path has a prefix path that adds only a slash to it.
* **Integrity.** After any conversion each parent reference names a listener of the output gateway, each policy targets a
  route or listener of the output, each listener's certificate references list its secrets once each, and for each
  foreign secret a grant in its namespace permits the gateway to refer to it (`Integrity.ConvertIsSafe`,
  `Integrity.OutputIsClosed`). Nothing is missing either: every route
  of a host with paths refers to the HTTP listener or, with TLS, to its own listener if some entry covers its host, and
  to one listener for each extended host with a secret (`ParentRefs.ConvertCompletesParents`,
  `ParentRefs.NoParentIff`).
* **Health probes.** The policies and the probe annotations an Ingress leaves behind have a closed form without any order
  in it, so no map order matters to them, even among other annotations; over a run the first writer wins, and a conflict
  is reported exactly where the first giver gave another value (`ProbeRuns`). `ProbeFields` says what each of the seven
  settings of a policy is: what the first annotation that counts says.
* **Backend TLS ports.** Over a run each policy lists, in increasing order, exactly the ports in the first of
  the paths of some host to its service, for Ingresses that ask for https in any case (`PortFields.ConvertCollectsPorts`).
* **Policies.** Over a run each route has exactly the timeout, the affinity and the firewall policy of its own Ingress,
  and the gateway the firewall policy of the options (`RoutePolicies`); the first Ingress to ask for an SSL profile on a
  listener decides it, and a later one that asks for another fails (`Profiles.RunSetsProfiles`, `OwnProfiles.ConvertSetsOwnProfiles`).
* **Redirect.** After a conversion the HTTPS redirect is there if and only if some Ingress with paths carries the
  annotation, whatever its value (`Redirects.RedirectMadeIff`).
* **Filters.** At most one filter of each type per rule; a closed form of a whole rewrite rule set, on any filters, and of
  what it comes to over all passes of an Ingress (`RuleSetRuns.RuleSetOverIngress`); and exactly when its order with a
  prefix rewrite matters (`RuleSetOrder`).
* **Reports.** What an annotation is reported to have become is in the output (`Destinations.ConvertReportsWhatExists`),
  and its status and issues are settled where its key and value settle them (`Outcomes.ConvertNotes`; for the others see
  `Reported`, `RuleSets` and `ProbeRuns`). Each annotation is filed once, by its status; the sorted lists are independent of all map orders.

Places where the code does not do what a reader may expect, each stated exactly:

* `StatusCodes.EveryPieceKeptIff`: a piece with two or more dashes is dropped without an error; `DroppedPiece` is the
  smallest case.
* `Gateways.RepeatedListenerRef`: asking a route for the same listener twice repeats the parent reference, unless the
  section was named when the route context was built. The test "re-adding the same listener doesn't add a duplicate ref"
  (conversion/contexts_test.go:69) compares two other counts. `ParentRefs.SameHostTwice`: the hostname-extension "a,a"
  with a secret for "a" refers to one listener twice.
* `Hostnames.HostsTaken`: hostname-extension narrows a rule without a host from all hosts to those it names;
  `HostlessIsNarrowed` at the extension "a".
* `Hostnames.WildcardReadings`: a wildcard host is copied as it is, and the two APIs read it alike exactly when it is none.
* `RunMeaning.RouteReachesGraphIff`: the report names a route for every rule, and the route reaches the graph exactly when
  its host has paths.
* `NginxRewrite.OrderMattersExactly`: rewrite-target and use-regex commute exactly when no rule has a regular-expression
  path; Go's map order then decides the type of the match.
* `RuleSets.RuleSetStatus`: a rule set whose only actions are unsupported fails, but leaves its annotation NotStarted, so
  the report does not list it at all; `OnlyUnsupportedStaysUnseen` at one rule with the action "append".
* `RuleSetOrder.EffectsIgnoreOrderIff`: Go's map order between a rewrite rule set and backend-path-prefix changes what a
  rule does exactly when the rule set rewrites a path. `RuleSetOrder.RulesIgnoreOrderIff`: it changes the list of filters
  also where both add a new filter.
* `RuleSetRuns.RuleSetOverIngress`: every rule with paths runs the annotations of the Ingress again on the whole route of
  its host, so the rules already there get every set header once more; `SecondPassDoubles` for one header.
* `Reported.ConvertReportsOneRedirect`: of all Ingresses with paths that carry ssl-redirect only the first is reported; the
  others' annotations stay NotStarted, so the report does not list them at all. `Reported.VisitReportsProfiles`: so does an
  SSL profile on listeners that all have that profile already.
* `Probes.DurationWrapsIff`: an interval or timeout beyond 64 bits of nanoseconds wraps; `LongIntervalWraps` at
  9223372037 seconds.
* `Redirects.RedirectIgnoresValue`: the ssl-redirect handler does not read its value; `RedirectAtFalse`: "false" makes the
  redirect as well.

`dafny verify dfyconfig.toml` checks the project.

## Model

| member | source | states |
|---|---|---|
| `Annotations.IngressAnnotationContext.constructor` | resources/ingressannotation.go:25-32 | a new annotation is NotStarted, without destinations or issues |
| `Annotations.IngressAnnotationContext.SetStatus` | resources/ingressannotation.go:50-66 | the status moves by the status machine and nothing else changes |
| `Annotations.IngressAnnotationContext.RegisterIssue` | resources/ingressannotation.go:34-37 | the issue is appended and the status moves by its level |
| `Annotations.IngressAnnotationContext.AddDestination` | resources/ingressannotation.go:39-42 | the destination joins the set and the status moves by Completed |
| `Annotations.SettledStatus` | resources/ingressannotation.go:50-66 | over any sequence of statuses set: Error if one was Error, else Warning if one was, else the last |
| `Annotations.RunSettles` | resources/ingressannotation.go:34-66 | over any history of calls the status is the one settled from the statuses asked for; key and value stay; every issue was registered |
| `Annotations.StatusOfHistory` | resources/ingressannotation.go:34-66 | the final status of a fresh annotation, for every history of calls |
| `Annotations.ErrorIssueIsFinal` | resources/agic_issues.go:42-51 | an annotation with an Error-level issue is at Error, whatever came before or after |
| `Resources.GetOrInsert` | resources/agc.go:254-263 | the policy stored under the name is handed out, and stored first if there was none |
| `Resources.AGCResourceGraph.constructor` | resources/agc.go:29-39 | the graph starts empty, but for the load balancer, if there is one |
| `Resources.AGCResourceGraph.GetOrCreateReferenceGrantForGWSecret` | resources/agc.go:41-79 | the grant from the gateway's namespace to a secret namespace is there, under its name, and nothing else changes; `Integrity.NewGrantPermits` says what it permits |
| `Resources.AGCResourceGraph.GetOrCreateRoutePolicy` | resources/agc.go:81-110 | the route's policy is in the map and handed out; names stay keys |
| `Resources.AGCResourceGraph.GetOrCreateFrontendTLSPolicy` | resources/agc.go:112-141 | the listener's policy is in the map and handed out |
| `Resources.AGCResourceGraph.GetOrCreateHealthCheckPolicy` | resources/agc.go:143-172 | the service's health-check policy is in the map and handed out |
| `Resources.AGCResourceGraph.GetOrCreateBackendTLSPolicy` | resources/agc.go:219-248 | the service's TLS policy is in the map and handed out |
| `Resources.AGCResourceGraph.GetOrCreateWAFPolicyForGateway` | resources/agc.go:174-184 | the gateway's WAF policy is in the map and handed out |
| `Resources.AGCResourceGraph.GetOrCreateWAFPolicyForRoute` | resources/agc.go:186-196 | the route's WAF policy is in the map and handed out |
| `Resources.PolicyNameInjective` | resources/agc.go:86-110 | two different routes, or two different services, never share a policy name |
| `Resources.FrontendTLSPolicyNameInjective` | resources/agc.go:117-141 | under one gateway two different listeners never share a policy name |
| `Resources.WAFPolicyNameInjective` | resources/agc.go:198-217 | two targets of one kind never share a WAF policy name |
| `Resources.WAFPolicyKindsDistinct` | resources/agc.go:174-217 | a gateway and a route never share a WAF policy name |
| `Gateways.HTTPSListener.constructor` | conversion/contexts.go:152-180 | a new listener has its host, port 443 and one certificate reference, with a namespace exactly when the secret is foreign |
| `Gateways.HTTPSListener.AddSecret` | conversion/contexts.go:127-138 | a new secret is added to the set and to the references together; a known one changes nothing |
| `Gateways.GatewayContext.constructor` | conversion/conversion.go:69-86 | the gateway starts with its annotations and without listeners, redirect or issues |
| `Gateways.GatewayContext.AddSecretTo` | conversion/contexts.go:146-150 | adding a secret to the listener of one key changes no other listener |
| `Gateways.GatewayContext.AddListener` | conversion/contexts.go:152-185 | the new listener sits under its own host and port, beside the others |
| `Gateways.GatewayContext.EnsureHTTPSListener` | conversion/contexts.go:140-186 | the host has a listener that knows the secret, a foreign secret has its grant, and the listener's name is returned |
| `Gateways.GatewayContext.EnsureHTTPListener` | conversion/contexts.go:188-205 | there is an HTTP listener, the one that was there if any, and its name is returned |
| `Gateways.GatewayContext.Build` | conversion/contexts.go:97-115 | the output listeners are the same for every order in which the listener map may be ranged over |
| `Gateways.BuiltIsCanonical` | conversion/contexts.go:97-115 | the output is the optional HTTP listener, then one listener per key, by increasing port and, at one port, by host in lexicographic order |
| `Gateways.BuiltListener` | conversion/contexts.go:97-115 | a listener is in the output if and only if the context holds it |
| `Gateways.BuiltNames` | conversion/contexts.go:97-115 | the names in the output are exactly the names the context holds |
| `Gateways.HTTPRouteContext.constructor` | conversion/contexts.go:41-56 | the named sections are those of the parent references |
| `Gateways.HTTPRouteContext.EnsureHTTPSListener` | conversion/contexts.go:58-71 | the listener is there and the route refers to it, unless its section was named when the context was built |
| `Gateways.HTTPRouteContext.GetParentHTTPSListenerNames` | conversion/contexts.go:73-91 | the names of the held listeners the route refers to, in the order of the range |
| `Gateways.RepeatedListenerRef` | conversion/contexts.go:58-71 | a second request repeats the parent reference exactly when the section was not named at the start; the world is unchanged by it |
| `BackendGroups.NewBackendGroup` | conversion/backendgroup.go:21-52 | the group holds exactly the services referred to, each with the first port any reference gives it |
| `BackendGroups.ServicesByField` | conversion/backendgroup.go:21-52 | the services of a route on the fields of its references; a missing kind is a service and a missing or empty namespace that of the route |
| `BackendGroups.FirstPortOfConcat` | conversion/backendgroup.go:35-45 | once a service has a port, later references never change it |
| `StatusCodes.ParseStatusCodes` | conversion/providers/agic/healthcheckpolicy.go:254-288 | the loop computes the ranges of all pieces, and every value lies in 0..2^31-1 |
| `StatusCodes.ParseOfSpelledRanges` | conversion/providers/agic/healthcheckpolicy.go:254-288 | parsing the comma-joined list of any ranges, with any space around every number, and a single code as one number or as a range, returns the ranges in order |
| `StatusCodes.ParseOfPrintedRanges` | conversion/providers/agic/healthcheckpolicy.go:254-288 | so parsing the canonical print of any non-empty list of ranges returns the list |
| `StatusCodes.EveryPieceKeptIff` | conversion/providers/agic/healthcheckpolicy.go:257-285 | an accepted value yields one range per piece if and only if no piece has two or more dashes |
| `StatusCodes.DroppedPiece` | conversion/providers/agic/healthcheckpolicy.go:257-285 | "1-2-3" is accepted and yields nothing |
| `Probes.SetField` | conversion/providers/agic/healthcheckpolicy.go:29-43 | the check and write of each of the seven fields: a non-zero different value stays and is a conflict, else the field is set |
| `Probes.ParseProbe` | conversion/providers/agic/healthcheckpolicy.go:55-62 | the value of each annotation, or that it is malformed |
| `Probes.DecodeOfPrint` | conversion/providers/agic/healthcheckpolicy.go:55-65 | printed numbers are read back, in nanoseconds for durations |
| `Text.ParseOfSigned` | conversion/providers/agic/healthcheckpolicy.go:55-62 | a printed number with a sign is read back if and only if it is in the range of its width, from the least number on |
| `Probes.DurationWrapsIff` | conversion/providers/agic/healthcheckpolicy.go:64-66 | a duration is the one asked for if and only if it fits 64 bits in nanoseconds |
| `Probes.LongIntervalWraps` | conversion/providers/agic/healthcheckpolicy.go:64-66 | an interval of 9223372037 seconds becomes a negative duration |
| `Probes.WriteProbe` | conversion/providers/agic/healthcheckpolicy.go:27-44 | one service: the field is set when zero or equal, else left alone with a conflict issue and an error |
| `Probes.HandleHealthProbe` | conversion/providers/agic/healthcheckpolicy.go:18-251 | each of the seven handlers leaves the policies, the annotation and the error of the specification, for every order of services |
| `ProbeCalls.WriteFills` | conversion/providers/agic/healthcheckpolicy.go:64-79 | a write adds its field to the closed form of a policy; it conflicts exactly if it conflicted with the settings at the start |
| `ProbeCalls.ProgressUnique` | conversion/providers/agic/healthcheckpolicy.go:18-251 | the closed form determines the policies |
| `ProbeCalls.VisitProgresses` | conversion/providers/agic/healthcheckpolicy.go:27-44 | one visit extends the closed form by one service and field |
| `ProbeCalls.ApplyProgresses` | conversion/backendgroup.go:54-72 | a whole `Apply` extends the closed form by all its services, in any order, and says which calls failed |
| `ProbeRuns.ProbesOfIngress` | conversion/ingress.go:110-132 | the policies and probe annotations an Ingress leaves behind, in a closed form that mentions no order |
| `ProbeRuns.StateIsDetermined` | conversion/providers/agic/healthcheckpolicy.go:18-251 | that form determines the policies, and the statuses, destinations, issues and errors of the probe annotations |
| `ProbeRuns.ProbesIgnoreOrder` | conversion/ingress.go:115-129 | any two schedules give the same policies, final statuses and errors of the probe annotations |
| `ProbeRuns.IngressWrites` | conversion/providers/agic/healthcheckpolicy.go:64-79 | an Ingress sets a field of a service exactly if it was zero and the Ingress gives a non-zero value |
| `ProbeRuns.FirstWriterWins` | conversion/conversion.go:118-123 | over any list of Ingresses the first to give a service a non-zero value sets it for good |
| `ProbeRuns.ConvertFirstWriterWins` | conversion/conversion.go:46-58 | after a conversion the value is that of the first Ingress by namespace and name to give one; zero if and only if none does |
| `ProbeRuns.ConflictExactly` | conversion/providers/agic/healthcheckpolicy.go:33-38 | a conflict issue about a service exactly when the Ingress uses it and it holds another non-zero value |
| `ProbeRuns.RunConflictExactly` | conversion/conversion.go:118-123 | over a run, an Ingress reports a conflict on a service exactly when it uses the service and the first Ingress before it to give a value gave another one |
| `ProbeRuns.RunIgnoresSchedules` | conversion/conversion.go:118-123 | over a run the health-check policies depend on no map order |
| `ProbeFields.ConvertSetsPath` | conversion/providers/agic/healthcheckpolicy.go:18-45 | after a conversion the path of a service's health check is the value of the annotation of the first Ingress, by namespace and name, to use the service and give one that is not empty; empty if and only if none does |
| `ProbeFields.ConvertSetsHost` | conversion/providers/agic/healthcheckpolicy.go:184-211 | the same for the host |
| `ProbeFields.ConvertSetsInterval` | conversion/providers/agic/healthcheckpolicy.go:47-80 | the same for the interval, in nanoseconds as a 64-bit number, where malformed values and zero do not count |
| `ProbeFields.ConvertSetsTimeout` | conversion/providers/agic/healthcheckpolicy.go:82-115 | the same for the timeout |
| `ProbeFields.ConvertSetsThreshold` | conversion/providers/agic/healthcheckpolicy.go:117-148 | the same for the unhealthy threshold, a 32-bit number |
| `ProbeFields.ConvertSetsPort` | conversion/providers/agic/healthcheckpolicy.go:150-182 | the same for the port |
| `ProbeFields.ConvertSetsCodes` | conversion/providers/agic/healthcheckpolicy.go:213-252 | the same for the status codes, the ranges of the first list that parses |
| `BackendTLS.AscendingIsUnique` | conversion/providers/agic/backendtls.go:84-91 | sorting the set in whatever order it is listed gives its one increasing list |
| `BackendTLS.BackendTLSPortSet.constructor` | conversion/providers/agic/backendtls.go:67-71 | the set holds the given ports |
| `BackendTLS.BackendTLSPortSet.InsertInt` | conversion/providers/agic/backendtls.go:73-82 | the port joins the set |
| `BackendTLS.BackendTLSPortSet.List` | conversion/providers/agic/backendtls.go:84-91 | the ports in increasing order |
| `BackendTLS.WritePorts` | conversion/providers/agic/backendtls.go:31-42 | one service: its policy lists its old ports and the new one |
| `BackendTLS.HandleBackendProtocol` | conversion/providers/agic/backendtls.go:16-61 | the policies, the annotation and the error, for each protocol value and every order of services |
| `PortRuns.ProtocolAddsPorts` | conversion/providers/agic/backendtls.go:29-53 | one run of the handler adds exactly the first port of each service of the route, and loses none |
| `PortRuns.ProtocolIsIdempotent` | conversion/providers/agic/backendtls.go:29-53 | running the handler again, in another order, changes no policy |
| `PortRuns.PassPortsAreHostPorts` | conversion/ingress.go:35-101 | the ports added by the passes over a growing route are the first ports of the finished routes |
| `PortRuns.RunCollectsPorts` | conversion/providers/agic/backendtls.go:29-53 | over a run a service's policy lists, strictly increasing, exactly the first ports it has in the https-annotated routes |
| `PortFields.HTTPSInAnyCase` | conversion/providers/agic/backendtls.go:16-28 | the protocol is https exactly for these five letters, each in either case |
| `PortFields.ConvertCollectsPorts` | conversion/providers/agic/backendtls.go:16-61 | after a conversion a service's policy lists, strictly increasing, exactly the port numbers in the first path to it of each host of each Ingress that asks for https |
| `Reported.VisitReportsHTTPS` | conversion/providers/agic/backendtls.go:29-61 | a visit that asks for https becomes the backend policy of every service of the route, and is an error if there is none |
| `Filters.InsertOrModifyHTTPRouteFilter` | conversion/providers/agic/urlrewrite.go:307-331 | in every rule the first filter of the type is modified once, or a new one is appended, and nothing else changes |
| `Filters.HandleHTTPFilter` | conversion/providers/agic/urlrewrite.go:294-305 | the same for the change of one handler, with the status set to Completed |
| `Filters.UpsertKeepsWellFormed` | conversion/providers/agic/urlrewrite.go:307-331 | one step keeps at most one filter per type with a matching payload; all others keep value and place |
| `Filters.FilterInvariant` | conversion/providers/agic/urlrewrite.go:294-331 | the same over any sequence of handlers; matches and backends never change |
| `Filters.HostnameAndPrefixCommute` | conversion/providers/agic/urlrewrite.go:22-77 | the hostname and path-prefix handlers commute, in value and place of every filter |
| `Filters.HostnameAndPrefixBoth` | conversion/providers/agic/urlrewrite.go:22-77 | after both the first URL rewrite sets the hostname and the prefix and keeps an earlier full path |
| `Filters.PrefixAndFullPathDiffer` | conversion/providers/agic/urlrewrite.go:29-42 | as single filter steps, a prefix and a full-path rewrite commute only on a route without rules |
| `RuleSets.PerformHeaderAction` | conversion/providers/agic/urlrewrite.go:189-292 | one header configuration is set, deleted or reported as unsupported |
| `RuleSets.HandleRewriteRuleSet` | conversion/providers/agic/urlrewrite.go:79-187 | the rules, the annotation and the error of the whole rule set, also when the resource is missing |
| `RuleSets.RuleSetRefinement` | conversion/providers/agic/urlrewrite.go:101-187 | to what each rule's filters did, the flat in-order set and delete lists of requests and responses and the last non-empty path are added; an error exactly if some action is unsupported |
| `RuleSets.RuleSetOnFilterless` | conversion/providers/agic/urlrewrite.go:101-187 | the instance without filters: just these lists and this path, and no filter for empty lists |
| `RuleSets.RuleSetStatus` | conversion/providers/agic/urlrewrite.go:107-186 | the status left on a fresh annotation: Error for rules of different sequence, else Warning for conditions or reroutes, else Completed, but NotStarted when nothing is converted and some header action is unsupported |
| `RuleSets.RuleSetIssues` | conversion/providers/agic/urlrewrite.go:107-140 | which issues a rule set leaves: for conditions, for reroutes and for rules of different sequence, each if and only if there is one |
| `RuleSets.OnlyUnsupportedStaysUnseen` | conversion/providers/agic/urlrewrite.go:189-240 | one rule with the single action "append": the call fails and changes neither the rules nor the annotation |
| `RuleSetOrder.EffectsIgnoreOrderIff` | conversion/providers/agic/urlrewrite.go:22-187 | a rule set and a prefix rewrite have the same effects in both orders if and only if there is no rule or the rule set rewrites no path |
| `RuleSetOrder.RulesIgnoreOrderIff` | conversion/providers/agic/urlrewrite.go:22-187 | the lists of filters are the same as well if and only if, besides, no rule gets both a new URL rewrite and a new header filter |
| `RuleSetRuns.MarkedTimesIs` | conversion/providers/agic/urlrewrite.go:22-187 | the effect of several passes: the set and delete lists that often; the path, the prefix and the hostname once |
| `RuleSetRuns.TakesPartSince` | conversion/ingress.go:50-99 | a rule takes part in the passes of its host since the one that made it |
| `RuleSetRuns.RuleSetOverIngress` | conversion/ingress.go:33-132 | every rule of a finished route has the set and deleted headers of the resource named by the annotation once for each pass it took part in, its last path, the prefix and the hostname the Ingress asks for, and none of those it does not ask for, among any annotations in any order |
| `RuleSetRuns.SecondPassDoubles` | conversion/ingress.go:33-132 | after two passes a header to set is listed twice |
| `Handlers.Dispatch` | conversion/providers/agic/provider.go:23-44 | every handler is registered under its own key and no other, none under the ignored key |
| `Handlers.Keys` | conversion/providers/agic/provider.go:23-44 | the key of each of the eighteen handlers, spelled out |
| `HandlerMethods.RunRequestTimeout` | conversion/providers/agic/routepolicy.go:19-55 | the route's policy gets the timeout, the product wrapping as a 64-bit number; a malformed value is an issue and an error |
| `HandlerMethods.RunCookieBasedAffinity` | conversion/providers/agic/routepolicy.go:57-109 | the route's policy gets the affinity only for a true value |
| `HandlerMethods.RunWAFPolicyForPath` | conversion/providers/agic/waf.go:9-37 | the route's WAF policy gets the ID, with a warning |
| `RoutePolicies.VisitSettings` | conversion/providers/agic/routepolicy.go:19-109 | a visit of any annotation changes the timeout, the affinity and the firewall policy of its own route as its key and value say, and those of no other route |
| `Reported.VisitReportsPolicies` | conversion/providers/agic/routepolicy.go:26-108 | a timeout or a true affinity becomes the route policy of its route, a firewall policy the one of its own kind, and malformed or false values become nothing |
| `RoutePolicies.IngressSetsSettings` | conversion/ingress.go:35-132 | after an Ingress the route of each host with paths has the settings the annotations ask for, on top of those it had |
| `RoutePolicies.ConvertSetsSettings` | conversion/conversion.go:118-123 | after a conversion each such route has exactly the timeout in nanoseconds, the cookie affinity and the firewall policy its own Ingress asks for |
| `RoutePolicies.ConvertSetsGateway` | conversion/conversion.go:60-116 | after a conversion: the gateway's name, its namespace from the option, else the least Ingress, else "default", and its firewall policy from the option, else the scraped one, else none |
| `HandlerMethods.RunSSLRedirect` | conversion/providers/agic/httpsredirect.go:17-81 | the first call makes the redirect route on the HTTP listener; later calls change nothing |
| `Redirects.RedirectIgnoresValue` | conversion/providers/agic/httpsredirect.go:17-81 | the world left is the same for every value, and is the old one if and only if the redirect was there |
| `Redirects.RedirectAtFalse` | conversion/providers/agic/httpsredirect.go:17-81 | the value "false" makes the redirect to https |
| `Redirects.RedirectMadeIff` | conversion/conversion.go:43-128 | after a conversion the redirect is made if and only if some Ingress with paths carries the ssl-redirect annotation, whatever its value; unless an Ingress has a route of that name, the graph then, and only then, holds the route that sends the prefix "/" of the HTTP listener to https |
| `Reported.ConvertReportsOneRedirect` | conversion/providers/agic/httpsredirect.go:17-81 | after a conversion the ssl-redirect annotation of the first Ingress with paths to carry it is Completed, with the redirect route as its destination; every other one is as it was |
| `HandlerMethods.HostnameSecrets` | conversion/providers/agic/hostnamextension.go:19-25 | each host named by a TLS entry maps to the secret of the last entry naming it |
| `HandlerMethods.RunHostnameExtension` | conversion/providers/agic/hostnamextension.go:12-48 | hostnames, listeners, grants and parent references are extended together |
| `HandlerMethods.WriteProfile` | conversion/providers/agic/frontendtlspolicy.go:41-57 | one listener: the profile is set if there is none; a different one is a conflict |
| `HandlerMethods.RunSSLProfile` | conversion/providers/agic/frontendtlspolicy.go:20-60 | the loop over the route's HTTPS listeners, which stops at the first conflict |
| `Reported.VisitReportsProfiles` | conversion/providers/agic/frontendtlspolicy.go:36-59 | what a visit reports: an error without listeners; one warning for each listener that gets the profile and then the conflict on one that has another; nothing at all if and only if there are listeners and each has the profile |
| `Profiles.VisitSetsProfiles` | conversion/providers/agic/frontendtlspolicy.go:20-60 | one visit: in the order of the range every HTTPS listener of the route up to the first with another profile ends with "2023-06-S" for the two strict values and "2023-06" for all others; the call fails exactly if there is such a listener; no other policy changes |
| `Profiles.VisitKeepsProfiles` | conversion/providers/agic/frontendtlspolicy.go:41-57 | no annotation removes a listener's policy or changes a profile that is set |
| `Profiles.RunKeepsProfiles` | conversion/conversion.go:118-123 | once set, a profile stays to the end of the run |
| `Profiles.RunSetsProfiles` | conversion/conversion.go:118-123 | every profile at the end of a run was set by the first Ingress to set one for the listener, and is the one its annotation stands for |
| `OwnProfiles.ConvertSetsOwnProfiles` | conversion/conversion.go:43-128 | after a conversion the listener of every covered host with paths has the profile its Ingress asks for, unless that Ingress failed on the annotation |
| `HandlerMethods.HandleAnnotation` | conversion/ingress.go:115-129 | one annotation is ignored, handled by its handler or reported as unsupported |
| `Outcomes.VisitIsNoted` | conversion/ingress.go:115-129 | for every key and value that settle it, the status a visit asks for, the code of the issue it registers, and whether it fails: ignored, unsupported, converted, warned about or malformed |
| `Outcomes.ConvertNotes` | conversion/conversion.go:118-123 | the status, the issue codes and the failure of such an annotation after a conversion: the note if its Ingress has a rule with paths, and otherwise NotStarted without issues |
| `Destinations.VisitDestinations` | resources/ingressannotation.go:39-42 | a visit removes nothing from the graph, and every destination it adds to the annotation is in the graph, in the map of its kind |
| `Destinations.ConvertReportsWhatExists` | conversion/conversion.go:43-128 | after a conversion every destination of every annotation is in the output, and an Ingress of another namespace with a TLS secret has its grant |
| `Ingresses.SecretChoice` | conversion/ingress.go:166-182 | a route takes the secret of the last TLS entry naming its host, else of the last naming none, else no parent |
| `Ingresses.ConvertIgnoresListing` | conversion/conversion.go:46-58 | the order in which Go lists the Ingresses makes no difference |
| `Ingresses.HandledInOrder` | conversion/conversion.go:46-58 | the Ingresses are handled by namespace and then by name, both in lexicographic order |
| `Ordering.StringLessIff` | conversion/conversion.go:51-57 | a string comes before another if and only if they agree up to a point at which it ends or has the lesser character |
| `Ingresses.ResultAt` | conversion/conversion.go:118-123 | the result of each Ingress of a run is the one it has after those before it, and stays |
| `Conversion.IngressContext.constructor` | resources/ingress.go:19-36 | every annotation but the ingress class is tracked, fresh and under its own key |
| `Conversion.IngressContext.MigrationComplete` | resources/ingress.go:41-49 | Error if there was an error, else Completed |
| `Conversion.AppendPaths` | conversion/ingress.go:50-99 | the rules of the paths are appended in order, but for those `Routing.OneMorePath` says are dropped |
| `Conversion.ChooseSecret` | conversion/ingress.go:167-182 | the scan finds the secret `SecretChoice` characterises |
| `Conversion.InitRoute` | conversion/ingress.go:145-203 | the new route with its hostname and parent reference, and the listener it refers to |
| `Conversion.HandleIngressAnnotations` | conversion/ingress.go:110-132 | the shared objects end as the specification of the annotation loop says |
| `Conversion.HandleRule` | conversion/ingress.go:35-104 | one rule: its route is found or made, recorded, extended, handled and put in the graph |
| `Conversion.GrantSecrets` | conversion/ingress.go:20-29 | the loop leaves the grants for the secrets of the TLS section |
| `Destinations.GrantTLSExactly` | conversion/ingress.go:20-29 | it adds a grant if and only if the Ingress is in another namespace and names some secret, and exactly the one of its namespace |
| `Conversion.HandleIngress` | conversion/ingress.go:19-108 | graph, gateway, annotations, errors and recorded names end as specified |
| `Conversion.HandleWAFPolicyForGateway` | conversion/waf.go:8-17 | the gateway's WAF policy has the ID, and the gateway has one more issue |
| `Conversion.ReferToLoadBalancer` | conversion/conversion.go:88-109 | the gateway names the caller's load balancer by its ID, or else the one made for the managed subnet, or none |
| `Conversion.Start` | conversion/conversion.go:60-116 | the gateway's name and namespace, its load balancer, its WAF policy, explicit ID first, and the issue that goes with it |
| `Conversion.Convert` | conversion/conversion.go:43-128 | the whole run, in place, leaves the specified world and contexts for every listing of the Ingresses, with the load balancer and the gateway issues of the start, and that world is safe |
| `Routing.VisitKeepsRouting` | conversion/ingress.go:115-129 | no AGIC handler changes the name, a match or a backend of a route; only the redirect handler writes a route entry |
| `Routing.OneMorePath` | conversion/ingress.go:50-99 | a path is dropped if and only if its backend is a resource or a port given by name alone; any other adds one rule: its path and type as the match, its service and port as the backend |
| `Routing.TranslationsHold` | conversion/ingress.go:33-105 | each route's rules are the in-order concatenation of the translated paths of its host |
| `Routing.GraphEntriesHold` | conversion/ingress.go:101-104 | the graph holds the finished route of every host with paths |
| `Hostnames.VisitHostnames` | conversion/providers/agic/hostnamextension.go:43-45 | hostname-extension appends its hosts and no other handler touches them |
| `Hostnames.HostNamesOfList` | conversion/providers/agic/hostnamextension.go:29-36 | a comma-separated list of hosts, with any space around each, is read back as that list |
| `Hostnames.BlankPiece` | conversion/providers/agic/hostnamextension.go:31-33 | a piece of nothing but space is skipped |
| `Text.TrimOfPadded` | conversion/providers/agic/hostnamextension.go:30-30 | trimming removes the space on both sides and nothing else |
| `Hostnames.HostnamesHold` | conversion/ingress.go:159-161 | a route lists its own host, then the extension once per rule of its host with paths |
| `Hostnames.WildcardReadings` | conversion/ingress.go:159-161 | a host taken over as it is serves every request host the Ingress serves, and no other if and only if it is not a wildcard |
| `Hostnames.HostsTaken` | conversion/providers/agic/hostnamextension.go:27-45 | which hosts a finished route takes, wildcards included; a host-less rule takes all exactly while the extension is empty |
| `Hostnames.HostlessIsNarrowed` | conversion/providers/agic/hostnamextension.go:27-45 | with the extension "a", the route of a rule without a host takes "a" and not "b" |
| `Matching.PrefixReadingsAgree` | crds/v1/ingressextension.go:363-391 | the element-wise reading of a prefix and the Gateway API's agree on every request |
| `Matching.IngressChoiceUnique` | conversion/ingress.go:71-84 | Ingress matching chooses at most one path |
| `Matching.ScanFindsChoice` | conversion/ingress.go:86-98 | the gateway's scan over the translated rules finds exactly the chosen path, or nothing matches |
| `Matching.MeaningPreserved` | conversion/ingress.go:33-105 | for every host with paths and every request, the route in the graph picks the backend the Ingress picks among the paths that are not dropped, service and port, whatever the annotations |
| `Matching.DocumentedPrecedenceIff` | conversion/ingress.go:71-84 | the order implemented is the documented longest-first order for every request if and only if no exact path has a slashed prefix twin |
| `RunMeaning.IngressKeepsForeign` | conversion/ingress.go:101-104 | an Ingress changes no route entry but those of its hosts with paths and the redirect |
| `RunMeaning.RecordedWithoutRoute` | conversion/ingress.go:43-48 | a host without paths is recorded, but its entry in the graph stays what it was |
| `RunMeaning.RouteReachesGraphIff` | conversion/ingress.go:43-104 | every host is recorded, and under a new name its route reaches the graph if and only if it has paths |
| `RunMeaning.RunPreservesMeaning` | conversion/conversion.go:118-123 | at the end of a run every host of every Ingress has its meaning |
| `RunMeaning.ConvertPreservesMeaning` | conversion/conversion.go:43-128 | the same for a conversion, for every listing and schedule |
| `RunMeaning.ConvertKeepsEveryPath` | conversion/ingress.go:50-99 | where no path of a host has a resource or a port given by name alone, the route has one rule for each path and sends every request where the Ingress sends it among all of them |
| `Integrity.IngressKeeps` | conversion/ingress.go:19-108 | an Ingress keeps the invariant; listeners are never removed or renamed and their references only grow |
| `Integrity.IngressesKeep` | conversion/conversion.go:118-123 | the same over any list of Ingresses |
| `Integrity.ConvertIsSafe` | conversion/conversion.go:43-128 | after a conversion: listeners keyed by host with exact secrets, policies under their own names and targets, references resolved, and for each foreign secret a grant in its namespace, from the gateway's namespace, of kind Gateway to kind Secret |
| `Integrity.OutputIsClosed` | conversion/contexts.go:97-115 | parent references name listeners of the output gateway, policies target its routes, services and listeners by group, kind, name and namespace, and for each foreign secret of an output listener a grant permits the gateway to refer to it |
| `Integrity.NewGrantPermits` | resources/agc.go:46-79 | the grant made for a namespace sits there and permits Gateways of the gateway's namespace its Secrets |
| `Integrity.PolicyFields` | resources/agc.go:81-263 | the name and the whole target of every policy of each kind, spelled out |
| `ParentRefs.IngressCompletesParents` | conversion/ingress.go:145-203 | a finished route refers first to the HTTP listener without TLS, else to the listener of its host with the chosen secret, if any; then only to listeners of extended hosts with a secret, and at least once to each |
| `ParentRefs.ConvertCompletesParents` | conversion/conversion.go:43-128 | the same at the end of a conversion, for every route of a host with paths |
| `ParentRefs.NoParentIff` | conversion/ingress.go:163-200 | a route has no parent if and only if the Ingress has TLS entries, none covers its host, and none names a secret for an extended host |
| `ParentRefs.SameHostTwice` | conversion/providers/agic/hostnamextension.go:27-45 | a host named twice in the extension is referred to twice |
| `Integrity.PoliciesDoNotAlias` | resources/agc.go:81-263 | no target has two policies |
| `Integrity.FetchedPolicyIsOwn` | resources/agc.go:81-263 | a policy of any kind fetched for a service, route, gateway or listener at any time has that target |
| `Integrity.RequestsDoNotAlias` | resources/agc.go:81-263 | two requests of one kind are handed the same policy exactly when they are for the same target |
| `NginxRewrite.StripLeavesNone` | conversion/providers/nginx/urlrewrite.go:125-142 | one pass of removing capture references leaves none |
| `NginxRewrite.StripTwice` | conversion/providers/nginx/urlrewrite.go:125-142 | a second pass changes nothing |
| `NginxRewrite.StripIsExact` | conversion/providers/nginx/urlrewrite.go:125-142 | exactly the characters that belong to a reference are removed, the rest keeps its order |
| `NginxRewrite.ReplacementIsStatic` | conversion/providers/nginx/urlrewrite.go:125-142 | the replacement is never empty and holds no reference |
| `NginxRewrite.ShortcutAgrees` | conversion/providers/nginx/urlrewrite.go:125-142 | the "/$1" and "/$2" shortcut gives what the general rule gives if and only if nothing was trimmed |
| `NginxRewrite.PrefixIsMaximal` | conversion/providers/nginx/urlrewrite.go:146-160 | the prefix is what precedes the first metacharacter, or "/"; it holds none |
| `NginxRewrite.MetaCharacters` | conversion/providers/nginx/urlrewrite.go:15-19 | the twelve characters that make a path a regular expression |
| `NginxRewrite.HandleRewriteTarget` | conversion/providers/nginx/urlrewrite.go:23-120 | the route's rules and the annotation end as specified |
| `NginxRewrite.RewriteStatus` | conversion/providers/nginx/urlrewrite.go:110-120 | a fresh annotation ends with a warning and its issue if its value has a dollar sign before a digit, and completed otherwise |
| `NginxRewrite.RegexRuleIsRewritten` | conversion/providers/nginx/urlrewrite.go:44-142 | a rule with a regular-expression path ends with a prefix match on its plain prefix, and its first URL rewrite replaces the prefix by the target without the characters of its references, or by "/" where nothing is left or the target is a lone "/$1" or "/$2"; all else stays |
| `NginxRewrite.PlainRuleKeepsMatch` | conversion/providers/nginx/urlrewrite.go:53-108 | a plain rule keeps its match; a target with references leaves it untouched, and one without replaces the prefix by itself |
| `NginxRewrite.RewriteIsIdempotent` | conversion/providers/nginx/urlrewrite.go:23-120 | running the handler again changes nothing in the route |
| `NginxRewrite.HandleUseRegex` | conversion/providers/nginx/urlrewrite.go:162-198 | every path match becomes a regular expression for a true value; false and malformed values change no match |
| `NginxRewrite.OrderMattersExactly` | conversion/providers/nginx/urlrewrite.go:100-198 | the two handlers commute if and only if no rule has a regular-expression path |
| `Report.NewFailedAnnotation` | reporting/ingress.go:142-175 | an issue is kept if and only if no earlier one has its code |
| `Report.KeptByIndex` | reporting/ingress.go:148-155 | the issues kept are those at the first index of their code, by increasing index |
| `Report.ShownOncePerCode` | reporting/ingress.go:148-155 | no code is shown twice and none is lost |
| `Report.ListDestinations` | reporting/ingress.go:91-130 | each destination goes to the list of its kind once, in whatever order the set is ranged over |
| `Report.NewIngress` | reporting/ingress.go:58-140 | the lists hold exactly the destinations of their kinds, after the recorded routes, and the annotations are filed by status in key order |
| `Report.EachInItsList` | reporting/ingress.go:132-141 | every annotation is in the one list of its status, Ignored and NotStarted in none, in key order |
| `Report.SortIngress` | reporting/ingress.go:177-188 | each list is the sorted permutation of what it held |
| `Report.ReportIsCanonical` | reporting/ingress.go:58-188 | the sorted report depends on the Ingress alone, on no map order |
| `Report.PolicyListsAreSets` | reporting/ingress.go:91-130 | each list of policies is strictly increasing and equals the destinations of its kind |
| `Report.RoutesAreListed` | reporting/ingress.go:58-130 | the six kinds with a list; the list of routes holds the recorded ones and the destinations of that kind, with their multiplicities |
| `Report.Summarize` | reporting/reporting.go:99-128 | every list of output names is the strictly increasing list of its map's keys, but for the reference grants |
| `Report.SummaryIsCanonical` | reporting/reporting.go:154-161 | there is one such list |
| `Report.ReportIngresses` | reporting/reporting.go:82-85 | one sorted report per Ingress, in the order of their names |
| `Report.ReportsAreCanonical` | reporting/reporting.go:163-171 | the list of reports depends on no map order |

## Left out

- Sharing of policies: a handler in Go changes the policy object the graph handed out; here it writes the changed policy back under its name. There is one policy object per name, so the states are the same.
- Sharing of routes: `routes` and the graph share route objects in Go; here the graph receives the route at the end of each rule. No handler reads a route from the graph, so the difference is visible only in the middle of a rule.
- `NameFromHost` and `RouteName` are parameters (`Naming`); the theorems about meaning ask that different hosts get different route names, and nothing else asks anything of them. `GetIngressClass` is not part of this model.
- Listener names are not assumed different for different hosts, so a section name may fit two listeners.
- A path whose backend names neither a service nor a resource: the Go code fails on the nil service; here it cannot be written.
- The NGINX provider, but for rewrite-target and use-regex: the other handlers only register an issue or set one field (canary weights and headers, app-root, custom headers), or depend on URL parsing (redirects).
- The AGIC log scanner, the ConfigMap reader, the cluster and file readers, the writers and the command line: input and output.
- The gateway's class, `AllowedRoutes`, and type metadata: constants copied to the output.
- NewFailedAnnotation: the description, recommendation and message shown for an issue are left out; they are texts that follow from its code and its error.
- Issue texts, recommendations, error texts, log lines and the report's metadata; an issue is its code and the policy it names, and an error is the key of the annotation that failed.
- ToLower: lower case on ASCII only, which is all that "http", "https", "set" and "delete" need; strings are sequences of characters, not bytes.
- Host names, secrets and ports are not validated, as the code does not validate them; a TLS entry without a secret name is logged as an error by `handleIngress` and yet gets a listener in `initRoute`, which the model keeps.
- Confluence of a whole provider is false and not claimed: hostname-extension before or after appgw-ssl-profile covers different listeners. What is independent of map order is named in the table.
- The report's list of reference grants is not sorted by the code, so its order is left open.
