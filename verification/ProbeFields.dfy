/** The health-check policies of a conversion, setting by setting, in terms of what the annotations say. */
module ProbeFields {
  import opened Text
  import opened Ordering
  import opened StatusCodes
  import opened Resources
  import opened Probes
  import opened ProbeRuns
  import opened Handlers
  import opened Ingresses
  import opened Routing

  /** Some rule of the ingress has a path to the service that is not dropped. */
  predicate UsesService(ingress: Ingress, service: NamespacedName) {
    && service.namespace == ingress.name.namespace
    && exists i, p | 0 <= i < |ingress.rules| && ingress.rules[i].http.Some? && p in ingress.rules[i].http.value ::
         p.backend.ServiceBackend? && !(p.backend.portName != "" && p.backend.portNumber == 0)
         && p.backend.name == service.name
  }

  /** An ingress says something about the service: it uses it, and carries the annotation with a value that counts. */
  ghost predicate Says(input: Input, service: NamespacedName, key: string, counts: string -> bool) {
    UsesService(input.ingress, service) && key in input.annotations && counts(input.annotations[key].value)
  }

  /** The first ingress, by namespace and name, to say something about the service. */
  ghost predicate SaysFirst(
    inputs: map<NamespacedName, Input>, k: NamespacedName, service: NamespacedName, key: string,
    counts: string -> bool)
  {
    && k in inputs && Says(inputs[k], service, key, counts)
    && forall l | l in inputs && NameLess(l, k) :: !Says(inputs[l], service, key, counts)
  }

  /** The settings of the service's policy. */
  function SpecOf(g: HealthChecks, service: NamespacedName): HealthCheckConfig {
    var name := NamespacedName(service.namespace, service.name + "-policy");
    if name in g then g[name].spec else HealthCheckConfig(0, 0, 0, 0, None)
  }

  lemma {:induction false} ServicesUsed(ingress: Ingress, n: nat, service: NamespacedName)
    requires n <= |ingress.rules|
    ensures service in IngressServices(ingress, n) <==>
              UsesService(Ingress(ingress.name, ingress.tls, ingress.rules[..n]), service)
  {
    var rules := ingress.rules[..n];
    var part := Ingress(ingress.name, ingress.tls, rules);
    if n > 0 {
      var before, rule := ingress.rules[..n - 1], ingress.rules[n - 1];
      ServicesUsed(ingress, n - 1, service);
      assert rules == before + [rule];
      if service in IngressServices(ingress, n - 1) {
        var i, p :| 0 <= i < |before| && before[i].http.Some? && p in before[i].http.value
                    && p.backend.ServiceBackend? && !(p.backend.portName != "" && p.backend.portNumber == 0)
                    && p.backend.name == service.name;
        assert rules[i] == before[i];
      } else if service in IngressServices(ingress, n) {
        var p :|
          p in rule.http.value && !Dropped(p) && service == NamespacedName(ingress.name.namespace, p.backend.name);
        assert rules[n - 1] == rule;
      }
      if UsesService(part, service) {
        var i, p :| 0 <= i < |rules| && rules[i].http.Some? && p in rules[i].http.value
                    && p.backend.ServiceBackend? && !(p.backend.portName != "" && p.backend.portNumber == 0)
                    && p.backend.name == service.name;
        if i < n - 1 {
          assert before[i] == rules[i];
        } else {
          assert service in PathServices(rule.http.value, ingress.name.namespace);
        }
      }
    }
  }

  /** What it takes for an ingress to give a setting. */
  lemma GivesIff(input: Input, service: NamespacedName, field: ProbeField)
    ensures Gives(input, service, field).Some? <==>
              UsesService(input.ingress, service) && ProbeKey(field) in input.annotations
              && Decode(field, input.annotations[ProbeKey(field)].value).Some?
              && !IsZero(Decode(field, input.annotations[ProbeKey(field)].value).value)
    ensures Gives(input, service, field).Some? ==>
              Gives(input, service, field) == Decode(field, input.annotations[ProbeKey(field)].value)
  {
    hide IngressServices;
    hide UsesService;
    hide KeyOf;
    hide Decode;
    var n := |input.ingress.rules|;
    assert input.ingress.rules[..n] == input.ingress.rules;
    ServicesUsed(input.ingress, n, service);
  }

  /** The first ingress to say something is the first to give the setting. */
  lemma FirstToGive(
    inputs: map<NamespacedName, Input>, service: NamespacedName, field: ProbeField, key: string, counts: string -> bool)
    requires key == ProbeKey(field)
    requires forall v :: counts(v) <==> Decode(field, v).Some? && !IsZero(Decode(field, v).value)
    ensures forall k | k in inputs :: Says(inputs[k], service, key, counts) <==> Gives(inputs[k], service, field).Some?
    ensures forall k | SaysFirst(inputs, k, service, key, counts) ::
              && Gives(inputs[k], service, field) == Decode(field, inputs[k].annotations[key].value)
              && forall l | l in inputs && NameLess(l, k) :: Gives(inputs[l], service, field).None?
  {
    hide Gives;
    hide KeyOf;
    hide Decode;
    hide IsZero;
    hide UsesService;
    hide NameLess;
    forall k | k in inputs
      ensures Says(inputs[k], service, key, counts) <==> Gives(inputs[k], service, field).Some?
      ensures Gives(inputs[k], service, field).Some? ==>
                Gives(inputs[k], service, field) == Decode(field, inputs[k].annotations[key].value)
    {
      GivesIff(inputs[k], service, field);
    }
  }

  /** The value of a setting after a conversion, in the terms of the annotations. */
  lemma SettingOf(
    env: Env, options: Options, scrapedWAFID: string,
    inputs: map<NamespacedName, Input>, schedules: NamespacedName -> Schedule, listing: seq<NamespacedName>,
    service: NamespacedName, field: ProbeField, key: string, counts: string -> bool)
    requires ValidInput(inputs, schedules) && Lists(listing, inputs.Keys) && key == ProbeKey(field)
    requires forall v :: counts(v) <==> Decode(field, v).Some? && !IsZero(Decode(field, v).value)
    ensures var g := Convert(env, options, scrapedWAFID, inputs, schedules, listing).world.graph.healthCheckPolicies;
            && (forall k | SaysFirst(inputs, k, service, key, counts) ::
                  Some(Get(SpecOf(g, service), field)) == Decode(field, inputs[k].annotations[key].value))
            && (IsZero(Get(SpecOf(g, service), field)) <==>
                forall k | k in inputs :: !Says(inputs[k], service, key, counts))
  {
    hide Convert;
    hide Gives;
    hide KeyOf;
    hide Decode;
    hide IsZero;
    hide Get;
    hide UsesService;
    hide NameLess;
    hide ValidInput;
    hide Lists;
    var g := Convert(env, options, scrapedWAFID, inputs, schedules, listing).world.graph.healthCheckPolicies;
    assert SpecOf(g, service) == ConfigOf(g, service);
    ConvertFirstWriterWins(env, options, scrapedWAFID, inputs, schedules, listing, service, field);
    FirstToGive(inputs, service, field, key, counts);
    forall k | SaysFirst(inputs, k, service, key, counts)
      ensures Some(Get(SpecOf(g, service), field)) == Decode(field, inputs[k].annotations[key].value)
    {
      assert Says(inputs[k], service, key, counts);
      assert Gives(inputs[k], service, field).Some?;
    }
  }

  // ---------- The seven settings ----------

  function PathOf(c: HealthCheckConfig): string {
    if c.http.Some? then c.http.value.path else ""
  }

  function HostOf(c: HealthCheckConfig): string {
    if c.http.Some? then c.http.value.host else ""
  }

  function CodesOf(c: HealthCheckConfig): Option<seq<CodeRange>> {
    if c.http.Some? && c.http.value.httpMatch.Some? then c.http.value.httpMatch.value.statusCodes else None
  }

  /** The path that is checked is the value of the first annotation that is not empty. */
  lemma ConvertSetsPath(
    env: Env, options: Options, scrapedWAFID: string,
    inputs: map<NamespacedName, Input>, schedules: NamespacedName -> Schedule, listing: seq<NamespacedName>,
    service: NamespacedName)
    requires ValidInput(inputs, schedules) && Lists(listing, inputs.Keys)
    ensures var g := Convert(env, options, scrapedWAFID, inputs, schedules, listing).world.graph.healthCheckPolicies;
            var key, counts := AppGW("health-probe-path"), (v: string) => v != "";
            && (forall k | SaysFirst(inputs, k, service, key, counts) ::
                  PathOf(SpecOf(g, service)) == inputs[k].annotations[key].value)
            && (PathOf(SpecOf(g, service)) == "" <==> forall k | k in inputs :: !Says(inputs[k], service, key, counts))
  {
    hide Convert;
    hide UsesService;
    hide NameLess;
    hide ValidInput;
    hide Lists;
    hide SpecOf;
    hide KeyOf;
    hide ParseInt;
    hide Parse;
    Keys();
    SettingOf(env, options, scrapedWAFID, inputs, schedules, listing, service, ProbePath,
              AppGW("health-probe-path"), (v: string) => v != "");
  }

  /** So is the host that is asked for. */
  lemma ConvertSetsHost(
    env: Env, options: Options, scrapedWAFID: string,
    inputs: map<NamespacedName, Input>, schedules: NamespacedName -> Schedule, listing: seq<NamespacedName>,
    service: NamespacedName)
    requires ValidInput(inputs, schedules) && Lists(listing, inputs.Keys)
    ensures var g := Convert(env, options, scrapedWAFID, inputs, schedules, listing).world.graph.healthCheckPolicies;
            var key, counts := AppGW("health-probe-hostname"), (v: string) => v != "";
            && (forall k | SaysFirst(inputs, k, service, key, counts) ::
                  HostOf(SpecOf(g, service)) == inputs[k].annotations[key].value)
            && (HostOf(SpecOf(g, service)) == "" <==> forall k | k in inputs :: !Says(inputs[k], service, key, counts))
  {
    hide Convert;
    hide UsesService;
    hide NameLess;
    hide ValidInput;
    hide Lists;
    hide SpecOf;
    hide KeyOf;
    hide ParseInt;
    hide Parse;
    Keys();
    SettingOf(env, options, scrapedWAFID, inputs, schedules, listing, service, ProbeHostname,
              AppGW("health-probe-hostname"), (v: string) => v != "");
  }

  /** A number of seconds in nanoseconds, as a 64-bit number; 0 if it is malformed. */
  function Nanoseconds(v: string): int {
    match ParseInt(v, 0x8000_0000_0000_0000)
    case None => 0
    case Some(n) => WrapInt64(n * 1_000_000_000)
  }

  function Number32(v: string): int {
    ParseInt(v, 0x8000_0000).GetOr(0)
  }

  /** The interval between checks is the first one asked for that is not zero, in nanoseconds. */
  lemma ConvertSetsInterval(
    env: Env, options: Options, scrapedWAFID: string,
    inputs: map<NamespacedName, Input>, schedules: NamespacedName -> Schedule, listing: seq<NamespacedName>,
    service: NamespacedName)
    requires ValidInput(inputs, schedules) && Lists(listing, inputs.Keys)
    ensures var g := Convert(env, options, scrapedWAFID, inputs, schedules, listing).world.graph.healthCheckPolicies;
            var key, counts := AppGW("health-probe-interval"), (v: string) => Nanoseconds(v) != 0;
            && (forall k | SaysFirst(inputs, k, service, key, counts) ::
                  SpecOf(g, service).interval == Nanoseconds(inputs[k].annotations[key].value))
            && (SpecOf(g, service).interval == 0 <==> forall k | k in inputs :: !Says(inputs[k], service, key, counts))
  {
    hide Convert;
    hide UsesService;
    hide NameLess;
    hide ValidInput;
    hide Lists;
    hide SpecOf;
    hide KeyOf;
    hide ParseInt;
    hide Parse;
    Keys();
    SettingOf(env, options, scrapedWAFID, inputs, schedules, listing, service, ProbeInterval,
              AppGW("health-probe-interval"), (v: string) => Nanoseconds(v) != 0);
  }

  /** So is the time a check may take. */
  lemma ConvertSetsTimeout(
    env: Env, options: Options, scrapedWAFID: string,
    inputs: map<NamespacedName, Input>, schedules: NamespacedName -> Schedule, listing: seq<NamespacedName>,
    service: NamespacedName)
    requires ValidInput(inputs, schedules) && Lists(listing, inputs.Keys)
    ensures var g := Convert(env, options, scrapedWAFID, inputs, schedules, listing).world.graph.healthCheckPolicies;
            var key, counts := AppGW("health-probe-timeout"), (v: string) => Nanoseconds(v) != 0;
            && (forall k | SaysFirst(inputs, k, service, key, counts) ::
                  SpecOf(g, service).timeout == Nanoseconds(inputs[k].annotations[key].value))
            && (SpecOf(g, service).timeout == 0 <==> forall k | k in inputs :: !Says(inputs[k], service, key, counts))
  {
    hide Convert;
    hide UsesService;
    hide NameLess;
    hide ValidInput;
    hide Lists;
    hide SpecOf;
    hide KeyOf;
    hide ParseInt;
    hide Parse;
    Keys();
    SettingOf(env, options, scrapedWAFID, inputs, schedules, listing, service, ProbeTimeout,
              AppGW("health-probe-timeout"), (v: string) => Nanoseconds(v) != 0);
  }

  /** The unhealthy threshold is the first one asked for that is not zero. */
  lemma ConvertSetsThreshold(
    env: Env, options: Options, scrapedWAFID: string,
    inputs: map<NamespacedName, Input>, schedules: NamespacedName -> Schedule, listing: seq<NamespacedName>,
    service: NamespacedName)
    requires ValidInput(inputs, schedules) && Lists(listing, inputs.Keys)
    ensures var g := Convert(env, options, scrapedWAFID, inputs, schedules, listing).world.graph.healthCheckPolicies;
            var key, counts := AppGW("health-probe-unhealthy-threshold"), (v: string) => Number32(v) != 0;
            && (forall k | SaysFirst(inputs, k, service, key, counts) ::
                  SpecOf(g, service).unhealthyThreshold == Number32(inputs[k].annotations[key].value))
            && (SpecOf(g, service).unhealthyThreshold == 0 <==>
                forall k | k in inputs :: !Says(inputs[k], service, key, counts))
  {
    hide Convert;
    hide UsesService;
    hide NameLess;
    hide ValidInput;
    hide Lists;
    hide SpecOf;
    hide KeyOf;
    hide ParseInt;
    hide Parse;
    Keys();
    SettingOf(env, options, scrapedWAFID, inputs, schedules, listing, service, ProbeUnhealthyThreshold,
              AppGW("health-probe-unhealthy-threshold"), (v: string) => Number32(v) != 0);
  }

  /** So is the port that is checked. */
  lemma ConvertSetsPort(
    env: Env, options: Options, scrapedWAFID: string,
    inputs: map<NamespacedName, Input>, schedules: NamespacedName -> Schedule, listing: seq<NamespacedName>,
    service: NamespacedName)
    requires ValidInput(inputs, schedules) && Lists(listing, inputs.Keys)
    ensures var g := Convert(env, options, scrapedWAFID, inputs, schedules, listing).world.graph.healthCheckPolicies;
            var key, counts := AppGW("health-probe-port"), (v: string) => Number32(v) != 0;
            && (forall k | SaysFirst(inputs, k, service, key, counts) ::
                  SpecOf(g, service).port == Number32(inputs[k].annotations[key].value))
            && (SpecOf(g, service).port == 0 <==> forall k | k in inputs :: !Says(inputs[k], service, key, counts))
  {
    hide Convert;
    hide UsesService;
    hide NameLess;
    hide ValidInput;
    hide Lists;
    hide SpecOf;
    hide KeyOf;
    hide ParseInt;
    hide Parse;
    Keys();
    SettingOf(env, options, scrapedWAFID, inputs, schedules, listing, service, ProbePort,
              AppGW("health-probe-port"), (v: string) => Number32(v) != 0);
  }

  /** The status codes are those of the first annotation that is a list of codes. */
  lemma ConvertSetsCodes(
    env: Env, options: Options, scrapedWAFID: string,
    inputs: map<NamespacedName, Input>, schedules: NamespacedName -> Schedule, listing: seq<NamespacedName>,
    service: NamespacedName)
    requires ValidInput(inputs, schedules) && Lists(listing, inputs.Keys)
    ensures var g := Convert(env, options, scrapedWAFID, inputs, schedules, listing).world.graph.healthCheckPolicies;
            var key, counts := AppGW("health-probe-status-codes"), (v: string) => Parse(v).Some?;
            && (forall k | SaysFirst(inputs, k, service, key, counts) ::
                  CodesOf(SpecOf(g, service)) == Parse(inputs[k].annotations[key].value))
            && (CodesOf(SpecOf(g, service)) == None <==>
                forall k | k in inputs :: !Says(inputs[k], service, key, counts))
  {
    hide Convert;
    hide UsesService;
    hide NameLess;
    hide ValidInput;
    hide Lists;
    hide SpecOf;
    hide KeyOf;
    hide ParseInt;
    hide Parse;
    Keys();
    SettingOf(env, options, scrapedWAFID, inputs, schedules, listing, service, ProbeStatusCodes,
              AppGW("health-probe-status-codes"), (v: string) => Parse(v).Some?);
  }
}
