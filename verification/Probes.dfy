/** The seven health-probe annotations and the health-check policies they write. */
module Probes {
  import opened Text
  import opened Ordering
  import opened StatusCodes
  import opened Annotations
  import opened Resources
  import opened Gateways
  import opened BackendGroups

  datatype ProbeField =
    | ProbePath | ProbeInterval | ProbeTimeout | ProbeUnhealthyThreshold | ProbePort | ProbeHostname | ProbeStatusCodes

  /** The value of one setting: Codes(None) is Go's nil list. */
  datatype ProbeValue = Text(text: string) | Number(number: int) | Codes(codes: Option<seq<CodeRange>>)

  const NANOSECONDS_PER_SECOND := 1_000_000_000

  function Seconds(value: string): Option<ProbeValue> {
    match ParseInt(value, TWO_TO_THE_63)
    case None => None
    case Some(n) => Some(Number(WrapInt64(n * NANOSECONDS_PER_SECOND)))
  }

  function Int32(value: string): Option<ProbeValue> {
    match ParseInt(value, TWO_TO_THE_31)
    case None => None
    case Some(n) => Some(Number(n))
  }

  /** The setting an annotation value stands for, or None if it is malformed. */
  function Decode(field: ProbeField, value: string): Option<ProbeValue> {
    match field
    case ProbePath => Some(Text(value))
    case ProbeHostname => Some(Text(value))
    case ProbeInterval => Seconds(value)
    case ProbeTimeout => Seconds(value)
    case ProbeUnhealthyThreshold => Int32(value)
    case ProbePort => Int32(value)
    case ProbeStatusCodes =>
      match Parse(value)
      case None => None
      case Some(codes) => Some(Codes(Some(codes)))
  }

  predicate IsZero(v: ProbeValue) {
    v == Text("") || v == Number(0) || v == Codes(None)
  }

  predicate UsesHTTP(field: ProbeField) {
    field in {ProbePath, ProbeHostname, ProbeStatusCodes}
  }

  const EMPTY_CONFIG := HealthCheckConfig(0, 0, 0, 0, None)

  function Get(c: HealthCheckConfig, field: ProbeField): ProbeValue {
    match field
    case ProbeInterval => Number(c.interval)
    case ProbeTimeout => Number(c.timeout)
    case ProbeUnhealthyThreshold => Number(c.unhealthyThreshold)
    case ProbePort => Number(c.port)
    case ProbePath => Text(if c.http.Some? then c.http.value.path else "")
    case ProbeHostname => Text(if c.http.Some? then c.http.value.host else "")
    case ProbeStatusCodes =>
      Codes(if c.http.Some? && c.http.value.httpMatch.Some? then c.http.value.httpMatch.value.statusCodes else None)
  }

  /** The kind of value a field holds. */
  predicate Fits(field: ProbeField, v: ProbeValue) {
    match field
    case ProbePath => v.Text?
    case ProbeHostname => v.Text?
    case ProbeStatusCodes => v.Codes?
    case _ => v.Number?
  }

  /** The `HTTP` and `HTTP.Match` structures a handler allocates before it looks at its field. */
  function Prepared(c: HealthCheckConfig, field: ProbeField): HealthCheckConfig {
    if !UsesHTTP(field) then c
    else
      var http := c.http.GetOr(HTTPSpecifiers("", "", None));
      if field.ProbeStatusCodes? then c.(http := Some(http.(httpMatch := Some(http.httpMatch.GetOr(HTTPMatch(None))))))
      else c.(http := Some(http))
  }

  function Put(c: HealthCheckConfig, field: ProbeField, v: ProbeValue): HealthCheckConfig
    requires Fits(field, v)
    requires Prepared(c, field) == c
  {
    match field
    case ProbeInterval => c.(interval := v.number)
    case ProbeTimeout => c.(timeout := v.number)
    case ProbeUnhealthyThreshold => c.(unhealthyThreshold := v.number)
    case ProbePort => c.(port := v.number)
    case ProbePath => c.(http := Some(c.http.value.(path := v.text)))
    case ProbeHostname => c.(http := Some(c.http.value.(host := v.text)))
    case ProbeStatusCodes => c.(http := Some(c.http.value.(httpMatch := Some(HTTPMatch(v.codes)))))
  }

  /** The field is taken by another value. */
  predicate Conflicts(c: HealthCheckConfig, field: ProbeField, v: ProbeValue) {
    !IsZero(Get(c, field)) && Get(c, field) != v
  }

  /** One handler call on one policy's settings. */
  function Written(c: HealthCheckConfig, field: ProbeField, v: ProbeValue): HealthCheckConfig
    requires Fits(field, v)
  {
    if Conflicts(Prepared(c, field), field, v) then Prepared(c, field) else Put(Prepared(c, field), field, v)
  }

  type HealthChecks = map<NamespacedName, Policy<HealthCheckConfig>>

  function PolicyID(service: NamespacedName): ResourceID {
    ResourceID(ALB_API_VERSION, KIND_HEALTH_CHECK_POLICY, PolicyName(service))
  }

  function ConflictIssue(service: NamespacedName): Issue {
    Issue(HealthCheckConflict, Some(PolicyName(service)))
  }

  /** The settings a service has, or the ones its new policy would have. */
  function ConfigOf(g: HealthChecks, service: NamespacedName): HealthCheckConfig {
    if PolicyName(service) in g then g[PolicyName(service)].spec else EMPTY_CONFIG
  }

  function VisitedPolicies(g: HealthChecks, field: ProbeField, v: ProbeValue, service: NamespacedName): HealthChecks
    requires Fits(field, v)
  {
    var inserted := Inserted(g, NewHealthCheckPolicy(service));
    var policy := inserted[PolicyName(service)];
    inserted[PolicyName(service) := policy.(spec := Written(policy.spec, field, v))]
  }

  function VisitedAnnotation(
    g: HealthChecks, a: Annotation, field: ProbeField, v: ProbeValue, service: NamespacedName): Annotation {
    if Conflicts(ConfigOf(g, service), field, v) then a.RegisterIssue(ConflictIssue(service))
    else a.AddDestination(PolicyID(service))
  }

  /** The policies, the annotation and the call outcomes after the services in `order`. */
  datatype Applied = Applied(policies: HealthChecks, annotation: Annotation, failures: seq<bool>)

  function ApplyProbe(
    g: HealthChecks, a: Annotation, field: ProbeField, v: ProbeValue, order: seq<NamespacedName>): Applied
    requires Fits(field, v)
  {
    if order == [] then Applied(g, a, [])
    else
      var before := ApplyProbe(g, a, field, v, order[..|order| - 1]);
      var service := order[|order| - 1];
      Applied(
        VisitedPolicies(before.policies, field, v, service),
        VisitedAnnotation(before.policies, before.annotation, field, v, service),
        before.failures + [Conflicts(ConfigOf(before.policies, service), field, v)])
  }

  /** What a malformed value does to the annotation: the status-code handler sets the status without an issue. */
  function Malformed(field: ProbeField, a: Annotation): Annotation {
    if field.ProbeStatusCodes? then a.SetStatus(Error) else a.RegisterIssue(Issue(InvalidAnnotationValue, None))
  }

  datatype ProbeOutcome = ProbeOutcome(policies: HealthChecks, annotation: Annotation, failed: bool)

  lemma DecodeFits(field: ProbeField, value: string)
    ensures Decode(field, value).Some? ==> Fits(field, Decode(field, value).value)
  {
  }

  /** Printed numbers are read back: as they are for ports and thresholds, in nanoseconds for the two durations. */
  lemma DecodeOfPrint(n: nat)
    requires n <= MAX_INT32
    ensures Decode(ProbePort, Print(n)) == Decode(ProbeUnhealthyThreshold, Print(n)) == Some(Number(n))
    ensures Decode(ProbeInterval, Print(n)) == Decode(ProbeTimeout, Print(n))
         == Some(Number(n * NANOSECONDS_PER_SECOND))
  {
    hide Print;
    hide ParseInt;
    ParseOfPrint(n, TWO_TO_THE_31);
    ParseOfPrint(n, TWO_TO_THE_63);
  }

  /** A duration comes out as asked exactly when it fits 64 bits in nanoseconds; otherwise the product wraps. */
  lemma DurationWrapsIff(value: string)
    requires ParseInt(value, TWO_TO_THE_63).Some?
    ensures var n := ParseInt(value, TWO_TO_THE_63).value;
            Decode(ProbeInterval, value) == Some(Number(n * NANOSECONDS_PER_SECOND)) <==>
            -TWO_TO_THE_63 <= n * NANOSECONDS_PER_SECOND < TWO_TO_THE_63
  {
    hide ParseInt;
  }

  /** The first interval too long: 9223372037 seconds come out negative. */
  lemma LongIntervalWraps()
    ensures Decode(ProbeInterval, Print(9223372037)) == Some(Number(-9223372036709551616))
  {
    hide Print;
    hide ParseInt;
    ParseOfPrint(9223372037, TWO_TO_THE_63);
  }

  /** One call of a health-probe handler, visiting the services of the route in `order`. */
  function HandleProbe(g: HealthChecks, a: Annotation, field: ProbeField, order: seq<NamespacedName>): ProbeOutcome {
    DecodeFits(field, a.value);
    match Decode(field, a.value)
    case None => ProbeOutcome(g, Malformed(field, a), true)
    case Some(v) =>
      var applied := ApplyProbe(g, a, field, v, order);
      ProbeOutcome(applied.policies, applied.annotation, ApplyFails(applied.failures))
  }

  /** The check and the write of each handler on the settings of one policy. */
  method SetField(
    spec: HealthCheckConfig, field: ProbeField, v: ProbeValue) returns (conflict: bool, r: HealthCheckConfig)
    requires Fits(field, v)
    ensures conflict == Conflicts(spec, field, v) && r == Written(spec, field, v)
  {
    r := spec;
    match field {
      case ProbeInterval =>
        if r.interval != 0 && v.number != r.interval { return true, r; }
        r := r.(interval := v.number);
      case ProbeTimeout =>
        if r.timeout != 0 && v.number != r.timeout { return true, r; }
        r := r.(timeout := v.number);
      case ProbeUnhealthyThreshold =>
        if r.unhealthyThreshold != 0 && v.number != r.unhealthyThreshold { return true, r; }
        r := r.(unhealthyThreshold := v.number);
      case ProbePort =>
        if r.port != 0 && r.port != v.number { return true, r; }
        r := r.(port := v.number);
      case ProbePath =>
        var http := r.http.GetOr(HTTPSpecifiers("", "", None));
        r := r.(http := Some(http));
        if http.path != "" && http.path != v.text { return true, r; }
        r := r.(http := Some(http.(path := v.text)));
      case ProbeHostname =>
        var http := r.http.GetOr(HTTPSpecifiers("", "", None));
        r := r.(http := Some(http));
        if http.host != "" && http.host != v.text { return true, r; }
        r := r.(http := Some(http.(host := v.text)));
      case ProbeStatusCodes =>
        var http := r.http.GetOr(HTTPSpecifiers("", "", None));
        http := http.(httpMatch := Some(http.httpMatch.GetOr(HTTPMatch(None))));
        r := r.(http := Some(http));
        if http.httpMatch.value.statusCodes.Some? && http.httpMatch.value.statusCodes != v.codes { return true, r; }
        r := r.(http := Some(http.(httpMatch := Some(HTTPMatch(v.codes)))));
    }
    conflict := false;
  }

  /** The function a handler applies to each service: fetch the policy, check the field, write it. */
  method WriteProbe(
    graph: AGCResourceGraph, annotationCtx: IngressAnnotationContext, service: NamespacedName, field: ProbeField,
    v: ProbeValue)
    returns (failed: bool)
    requires graph.Valid() && Fits(field, v)
    modifies graph`healthCheckPolicies, annotationCtx`status, annotationCtx`destinationResources, annotationCtx`issues
    ensures graph.Valid()
    ensures graph.healthCheckPolicies == VisitedPolicies(old(graph.healthCheckPolicies), field, v, service)
    ensures annotationCtx.View()
         == VisitedAnnotation(old(graph.healthCheckPolicies), old(annotationCtx.View()), field, v, service)
    ensures failed == Conflicts(ConfigOf(old(graph.healthCheckPolicies), service), field, v)
  {
    hide Fits;
    hide Written;
    hide Conflicts;
    hide Level;
    hide Next;
    hide PolicyName;
    var policy := graph.GetOrCreateHealthCheckPolicy(service);
    assert policy.spec == ConfigOf(old(graph.healthCheckPolicies), service);
    var spec;
    failed, spec := SetField(policy.spec, field, v);
    graph.healthCheckPolicies := graph.healthCheckPolicies[policy.name := policy.(spec := spec)];
    if failed {
      annotationCtx.RegisterIssue(Issue(HealthCheckConflict, Some(policy.name)));
    } else {
      annotationCtx.AddDestination(ResourceID(ALB_API_VERSION, KIND_HEALTH_CHECK_POLICY, policy.name));
    }
  }

  /** The parsing of each handler. */
  method ParseProbe(field: ProbeField, value: string) returns (r: Option<ProbeValue>)
    ensures r == Decode(field, value)
  {
    hide ParseInt;
    match field {
      case ProbePath | ProbeHostname => r := Some(Text(value));
      case ProbeInterval | ProbeTimeout =>
        var seconds := ParseInt(value, TWO_TO_THE_63);
        r := if seconds.None? then None else Some(Number(WrapInt64(seconds.value * NANOSECONDS_PER_SECOND)));
      case ProbeUnhealthyThreshold | ProbePort =>
        var number := ParseInt(value, TWO_TO_THE_31);
        r := if number.None? then None else Some(Number(number.value));
      case ProbeStatusCodes =>
        var codes := ParseStatusCodes(value);
        r := if codes.None? then None else Some(Codes(codes));
    }
  }

  /** The seven handlers in their own form; `order` is the order in which Go ranges over the services. */
  method HandleHealthProbe(
    graph: AGCResourceGraph, routeCtx: HTTPRouteContext, annotationCtx: IngressAnnotationContext,
    field: ProbeField, order: seq<NamespacedName>) returns (failed: bool)
    requires graph.Valid() && Lists(order, RouteServices(routeCtx.route))
    modifies graph`healthCheckPolicies, annotationCtx`status, annotationCtx`destinationResources, annotationCtx`issues
    ensures graph.Valid()
    ensures ProbeOutcome(graph.healthCheckPolicies, annotationCtx.View(), failed)
         == HandleProbe(old(graph.healthCheckPolicies), old(annotationCtx.View()), field, order)
  {
    hide Decode;
    hide Fits;
    hide VisitedPolicies;
    hide VisitedAnnotation;
    hide Conflicts;
    var group := NewBackendGroup(routeCtx);
    DecodeFits(field, annotationCtx.value);
    var decoded := ParseProbe(field, annotationCtx.value);
    if decoded.None? {
      if field.ProbeStatusCodes? {
        annotationCtx.SetStatus(Error);
      } else {
        annotationCtx.RegisterIssue(Issue(InvalidAnnotationValue, None));
      }
      return true;
    }
    var anyFailed, allAppliesFailed := false, true;
    ghost var g, a := graph.healthCheckPolicies, annotationCtx.View();
    ghost var failures: seq<bool> := [];
    for i := 0 to |order|
      invariant graph.Valid()
      invariant Applied(graph.healthCheckPolicies, annotationCtx.View(), failures)
             == ApplyProbe(g, a, field, decoded.value, order[..i])
      invariant anyFailed == (true in failures) && allAppliesFailed == (false !in failures)
    {
      assert order[..i + 1][..i] == order[..i];
      assert order[i] in order;
      var serviceFailed := WriteProbe(graph, annotationCtx, group[order[i]].name, field, decoded.value);
      failures := failures + [serviceFailed];
      if serviceFailed {
        anyFailed := true;
      } else {
        allAppliesFailed := false;
      }
    }
    assert order[..|order|] == order;
    failed := anyFailed || allAppliesFailed;
  }

  lemma PreparedKeepsFields(c: HealthCheckConfig, field: ProbeField)
    ensures forall f :: Get(Prepared(c, field), f) == Get(c, f)
    ensures Prepared(Prepared(c, field), field) == Prepared(c, field)
  {
  }
}
