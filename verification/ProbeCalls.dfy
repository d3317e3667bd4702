/** What a series of health-probe calls leaves behind, whatever their order. */
module ProbeCalls {
  import opened Text
  import opened Ordering
  import opened Annotations
  import opened Resources
  import opened Probes

  /** The well-formed probe settings of one ingress. */
  type Wanted = map<ProbeField, ProbeValue>

  ghost predicate WellFitted(wanted: Wanted) {
    forall f | f in wanted :: Fits(f, wanted[f])
  }

  /** A pair of a service and a field that a handler has been applied to. */
  type Setting = (NamespacedName, ProbeField)

  function FieldsOf(done: set<Setting>, service: NamespacedName): set<ProbeField> {
    set d | d in done && d.0 == service :: d.1
  }

  /** First writer wins, field by field: a field that holds a value keeps it. */
  function Pick(c: HealthCheckConfig, wanted: Wanted, fields: set<ProbeField>, field: ProbeField): ProbeValue {
    if field in fields && field in wanted && IsZero(Get(c, field)) then wanted[field] else Get(c, field)
  }

  /** The settings of a service once the given fields have been written, in closed form. */
  function Filled(c: HealthCheckConfig, wanted: Wanted, fields: set<ProbeField>): HealthCheckConfig
    requires WellFitted(wanted) && fields <= wanted.Keys
  {
    HealthCheckConfig(
      Pick(c, wanted, fields, ProbeInterval).number,
      Pick(c, wanted, fields, ProbeTimeout).number,
      Pick(c, wanted, fields, ProbeUnhealthyThreshold).number,
      Pick(c, wanted, fields, ProbePort).number,
      if c.http.None? && fields !! {ProbePath, ProbeHostname, ProbeStatusCodes} then None
      else
        Some(HTTPSpecifiers(
               Pick(c, wanted, fields, ProbeHostname).text,
               Pick(c, wanted, fields, ProbePath).text,
               if (c.http.None? || c.http.value.httpMatch.None?) && ProbeStatusCodes !in fields then None
               else Some(HTTPMatch(Pick(c, wanted, fields, ProbeStatusCodes).codes)))))
  }

  lemma FilledNothing(c: HealthCheckConfig, wanted: Wanted)
    requires WellFitted(wanted)
    ensures Filled(c, wanted, {}) == c
  {
  }

  lemma FilledGet(c: HealthCheckConfig, wanted: Wanted, fields: set<ProbeField>, field: ProbeField)
    requires WellFitted(wanted) && fields <= wanted.Keys
    ensures Get(Filled(c, wanted, fields), field) == Pick(c, wanted, fields, field)
  {
  }

  /** One more write extends the closed form, and finds a conflict exactly where the original settings had one. */
  lemma WriteFills(c: HealthCheckConfig, wanted: Wanted, fields: set<ProbeField>, field: ProbeField)
    requires WellFitted(wanted) && fields <= wanted.Keys && field in wanted
    ensures Written(Filled(c, wanted, fields), field, wanted[field]) == Filled(c, wanted, fields + {field})
    ensures Conflicts(Filled(c, wanted, fields), field, wanted[field]) <==> Conflicts(c, field, wanted[field])
  {
    var f, v := Filled(c, wanted, fields), wanted[field];
    FilledGet(c, wanted, fields, field);
    PreparedKeepsFields(f, field);
    assert Fits(field, v);
  }

  // ---------- The policies ----------

  /** The policy of a service before it is written: the stored one, or a new one. */
  function Base(g: HealthChecks, service: NamespacedName): Policy<HealthCheckConfig> {
    if PolicyName(service) in g then g[PolicyName(service)] else NewHealthCheckPolicy(service)
  }

  /** The policies `g` come from `g0` by writing exactly the pairs in `done`. */
  ghost predicate Progress(g0: HealthChecks, g: HealthChecks, wanted: Wanted, done: set<Setting>) {
    && WellFitted(wanted)
    && (forall d | d in done :: d.1 in wanted)
    && (forall d | d in done ::
          && PolicyName(d.0) in g
          && g[PolicyName(d.0)] == Base(g0, d.0).(spec := Filled(ConfigOf(g0, d.0), wanted, FieldsOf(done, d.0))))
    && (forall k | k in g && (forall d | d in done :: PolicyName(d.0) != k) :: k in g0 && g[k] == g0[k])
    && g0.Keys <= g.Keys
  }

  lemma NoProgress(g: HealthChecks, wanted: Wanted)
    requires WellFitted(wanted)
    ensures Progress(g, g, wanted, {})
  {
  }

  /** The result depends on what was written, not on when. */
  lemma ProgressUnique(g0: HealthChecks, g: HealthChecks, h: HealthChecks, wanted: Wanted, done: set<Setting>)
    requires Progress(g0, g, wanted, done) && Progress(g0, h, wanted, done)
    ensures g == h
  {
    hide Filled;
    hide PolicyName;
    forall k ensures k in g <==> k in h {
    }
    forall k | k in g ensures g[k] == h[k] {
    }
  }

  /** The settings of any service at that point. */
  lemma ProgressConfig(g0: HealthChecks, g: HealthChecks, wanted: Wanted, done: set<Setting>, service: NamespacedName)
    requires Progress(g0, g, wanted, done)
    ensures FieldsOf(done, service) <= wanted.Keys
    ensures ConfigOf(g, service) == Filled(ConfigOf(g0, service), wanted, FieldsOf(done, service))
    ensures (PolicyName(service) in g || FieldsOf(done, service) == {})
    ensures Base(g, service) == Base(g0, service).(spec := ConfigOf(g, service))
  {
    hide Filled;
    hide PolicyName;
    if FieldsOf(done, service) == {} {
      FilledNothing(ConfigOf(g0, service), wanted);
      forall d | d in done ensures PolicyName(d.0) != PolicyName(service) {
        assert d.1 in FieldsOf(done, d.0);
        if PolicyName(d.0) == PolicyName(service) {
          PolicyNameInjective(d.0, service);
        }
      }
    } else {
      var f :| f in FieldsOf(done, service);
      assert (service, f) in done;
    }
  }

  lemma FieldsSnoc(done: set<Setting>, service: NamespacedName, field: ProbeField)
    ensures forall s ::
              FieldsOf(done + {(service, field)}, s) == FieldsOf(done, s) + if s == service then {field} else {}
  {
    forall s
      ensures FieldsOf(done + {(service, field)}, s) == FieldsOf(done, s) + if s == service then {field} else {}
    {
      forall f
        ensures f in FieldsOf(done + {(service, field)}, s) <==> f in FieldsOf(done, s) || (s == service && f == field)
      {
        assert (s, f) in done + {(service, field)} <==> (s, f) in done || (s, f) == (service, field);
      }
    }
  }

  /** A new value under the name of one service leaves the others as they were. */
  lemma StoreProgresses(
    g0: HealthChecks, g: HealthChecks, r: HealthChecks, wanted: Wanted, done: set<Setting>, field: ProbeField,
    service: NamespacedName)
    requires Progress(g0, g, wanted, done) && field in wanted
    requires FieldsOf(done, service) + {field} <= wanted.Keys
    requires r == g[PolicyName(service) :=
                    Base(g0, service).(spec := Filled(ConfigOf(g0, service), wanted,
                                                      FieldsOf(done, service) + {field}))]
    ensures Progress(g0, r, wanted, done + {(service, field)})
  {
    hide Filled;
    hide PolicyName;
    hide ConfigOf;
    hide Base;
    hide FieldsOf;
    hide WellFitted;
    var all := done + {(service, field)};
    FieldsSnoc(done, service, field);
    forall d | d in all
      ensures PolicyName(d.0) in r && FieldsOf(all, d.0) <= wanted.Keys
      ensures r[PolicyName(d.0)] == Base(g0, d.0).(spec := Filled(ConfigOf(g0, d.0), wanted, FieldsOf(all, d.0)))
    {
      if d.0 != service {
        if PolicyName(d.0) == PolicyName(service) {
          PolicyNameInjective(d.0, service);
        }
        ProgressConfig(g0, g, wanted, done, d.0);
        assert FieldsOf(all, d.0) == FieldsOf(done, d.0);
      }
    }
    assert (service, field) in all;
  }

  lemma VisitProgresses(
    g0: HealthChecks, g: HealthChecks, wanted: Wanted, done: set<Setting>, field: ProbeField, service: NamespacedName)
    requires Progress(g0, g, wanted, done) && field in wanted
    ensures Progress(g0, VisitedPolicies(g, field, wanted[field], service), wanted, done + {(service, field)})
    ensures Conflicts(ConfigOf(g, service), field, wanted[field]) <==>
              Conflicts(ConfigOf(g0, service), field, wanted[field])
  {
    hide Filled;
    hide Conflicts;
    hide Written;
    hide PolicyName;
    hide FieldsOf;
    ProgressConfig(g0, g, wanted, done, service);
    WriteFills(ConfigOf(g0, service), wanted, FieldsOf(done, service), field);
    var r := VisitedPolicies(g, field, wanted[field], service);
    var written := Written(ConfigOf(g, service), field, wanted[field]);
    assert r == g[PolicyName(service) := Base(g, service).(spec := written)];
    StoreProgresses(g0, g, r, wanted, done, field, service);
  }

  function PairsOf(services: set<NamespacedName>, field: ProbeField): set<Setting> {
    set s | s in services :: (s, field)
  }

  // ---------- The annotation ----------

  /** The services that hold another value for the field. */
  ghost function Conflicting(
    g0: HealthChecks, field: ProbeField, v: ProbeValue, visited: set<NamespacedName>): set<NamespacedName> {
    set s | s in visited && Conflicts(ConfigOf(g0, s), field, v)
  }

  function PolicyIDs(services: set<NamespacedName>): set<ResourceID> {
    set s | s in services :: PolicyID(s)
  }

  function ConflictIssues(services: set<NamespacedName>): set<Issue> {
    set s | s in services :: ConflictIssue(s)
  }

  /** An annotation with a well-formed value after the services in `visited` have been written, compared with `a0`
      before. */
  ghost predicate AnnotationAfter(
    g0: HealthChecks, field: ProbeField, v: ProbeValue, a0: Annotation, a: Annotation, visited: set<NamespacedName>)
  {
    var conflicting := Conflicting(g0, field, v, visited);
    && a.key == a0.key && a.value == a0.value
    && a.status == (if a0.status == Error || conflicting != {} then Error
                    else if a0.status == Warning then Warning
                    else if visited == {} then a0.status else Completed)
    && a.destinations == a0.destinations + PolicyIDs(visited - conflicting)
    && SetOf(a.issues) == SetOf(a0.issues) + ConflictIssues(conflicting)
  }

  lemma VisitUpdatesAnnotation(
    g0: HealthChecks, g: HealthChecks, wanted: Wanted, done: set<Setting>, field: ProbeField,
    a0: Annotation, a: Annotation, visited: set<NamespacedName>, service: NamespacedName)
    requires Progress(g0, g, wanted, done) && field in wanted
    requires AnnotationAfter(g0, field, wanted[field], a0, a, visited)
    ensures AnnotationAfter(g0, field, wanted[field], a0, VisitedAnnotation(g, a, field, wanted[field], service),
                            visited + {service})
  {
    hide Conflicts;
    hide ConfigOf;
    hide VisitedPolicies;
    hide Progress;
    VisitProgresses(g0, g, wanted, done, field, service);
    if Conflicts(ConfigOf(g, service), field, wanted[field]) {
      ConflictRecorded(g0, field, wanted[field], a0, a, visited, service);
    } else {
      DestinationRecorded(g0, field, wanted[field], a0, a, visited, service);
    }
  }

  lemma ConflictingSnoc(
    g0: HealthChecks, field: ProbeField, v: ProbeValue, visited: set<NamespacedName>, service: NamespacedName)
    ensures Conflicting(g0, field, v, visited + {service}) ==
            Conflicting(g0, field, v, visited) + if Conflicts(ConfigOf(g0, service), field, v) then {service} else {}
  {
  }

  lemma ConflictRecorded(
    g0: HealthChecks, field: ProbeField, v: ProbeValue, a0: Annotation, a: Annotation, visited: set<NamespacedName>,
    service: NamespacedName)
    requires AnnotationAfter(g0, field, v, a0, a, visited) && Conflicts(ConfigOf(g0, service), field, v)
    ensures AnnotationAfter(g0, field, v, a0, a.RegisterIssue(ConflictIssue(service)), visited + {service})
  {
    var before := Conflicting(g0, field, v, visited);
    ConflictingSnoc(g0, field, v, visited, service);
    VisitedConflict(g0, field, v, visited, service);
    hide Conflicting;
    hide Conflicts;
    hide PolicyIDs;
    hide ConflictIssues;
    hide ConflictIssue;
    assert visited + {service} - (before + {service}) == visited - before;
    IssuesSnoc(before, service);
    SetOfSnoc(a.issues, ConflictIssue(service));
    hide SetOf;
    assert SetOf(a0.issues) + (ConflictIssues(before) + {ConflictIssue(service)})
        == SetOf(a0.issues) + ConflictIssues(before) + {ConflictIssue(service)};
    assert Level(ConflictIssue(service).code) == LevelError by { ConflictsAreErrors(service); }
  }

  lemma ConflictsAreErrors(service: NamespacedName)
    ensures Level(ConflictIssue(service).code) == LevelError
  {
  }

  lemma IssuesSnoc(services: set<NamespacedName>, service: NamespacedName)
    ensures ConflictIssues(services + {service}) == ConflictIssues(services) + {ConflictIssue(service)}
  {
  }

  lemma VisitedConflict(
    g0: HealthChecks, field: ProbeField, v: ProbeValue, visited: set<NamespacedName>, service: NamespacedName)
    requires Conflicts(ConfigOf(g0, service), field, v)
    ensures service in visited <==> service in Conflicting(g0, field, v, visited)
  {
  }

  lemma DestinationRecorded(
    g0: HealthChecks, field: ProbeField, v: ProbeValue, a0: Annotation, a: Annotation, visited: set<NamespacedName>,
    service: NamespacedName)
    requires AnnotationAfter(g0, field, v, a0, a, visited) && !Conflicts(ConfigOf(g0, service), field, v)
    ensures AnnotationAfter(g0, field, v, a0, a.AddDestination(PolicyID(service)), visited + {service})
  {
    var all, before := visited + {service}, Conflicting(g0, field, v, visited);
    ConflictingSnoc(g0, field, v, visited, service);
    assert service !in before;
    hide Conflicting;
    hide Conflicts;
    assert before + {} == before;
    assert all - before == (visited - before) + {service};
    assert PolicyIDs((visited - before) + {service}) == PolicyIDs(visited - before) + {PolicyID(service)};
  }

  /** The state after part of one `Apply`: the given services have been written. */
  ghost predicate PartlyApplied(
    g0: HealthChecks, wanted: Wanted, done: set<Setting>, field: ProbeField,
    a0: Annotation, visited: set<NamespacedName>, services: set<NamespacedName>, r: Applied)
  {
    && field in wanted
    && Progress(g0, r.policies, wanted, done + PairsOf(services, field))
    && AnnotationAfter(g0, field, wanted[field], a0, r.annotation, visited + services)
    && (true in r.failures <==> Conflicting(g0, field, wanted[field], services) != {})
  }

  lemma OneMoreService(
    g0: HealthChecks, wanted: Wanted, done: set<Setting>, field: ProbeField,
    a0: Annotation, visited: set<NamespacedName>, services: set<NamespacedName>, r: Applied, last: NamespacedName)
    requires PartlyApplied(g0, wanted, done, field, a0, visited, services, r)
    requires Fits(field, wanted[field])
    ensures PartlyApplied(
              g0, wanted, done, field, a0, visited, services + {last},
              Applied(
                VisitedPolicies(r.policies, field, wanted[field], last),
                VisitedAnnotation(r.policies, r.annotation, field, wanted[field], last),
                r.failures + [Conflicts(ConfigOf(r.policies, last), field, wanted[field])]))
  {
    hide Progress;
    hide AnnotationAfter;
    hide Conflicts;
    hide ConfigOf;
    hide VisitedPolicies;
    hide VisitedAnnotation;
    var pairs := done + PairsOf(services, field);
    VisitProgresses(g0, r.policies, wanted, pairs, field, last);
    VisitUpdatesAnnotation(g0, r.policies, wanted, pairs, field, a0, r.annotation, visited + services, last);
    assert done + PairsOf(services + {last}, field) == pairs + {(last, field)};
    assert visited + (services + {last}) == (visited + services) + {last};
    ConflictingSnoc(g0, field, wanted[field], services, last);
  }

  /** One handler call on a well-formed value: the whole `Apply`, in whatever order of services. */
  lemma {:induction false} ApplyProgresses(
    g0: HealthChecks, g: HealthChecks, wanted: Wanted, done: set<Setting>, field: ProbeField,
    a0: Annotation, a: Annotation, visited: set<NamespacedName>, order: seq<NamespacedName>)
    requires Progress(g0, g, wanted, done) && field in wanted
    requires AnnotationAfter(g0, field, wanted[field], a0, a, visited)
    ensures Fits(field, wanted[field])
    ensures PartlyApplied(
              g0, wanted, done, field, a0, visited, SetOf(order), ApplyProbe(g, a, field, wanted[field], order))
    ensures |ApplyProbe(g, a, field, wanted[field], order).failures| == |order|
  {
    hide Fits;
    hide VisitedPolicies;
    hide VisitedAnnotation;
    hide PartlyApplied;
    hide Conflicts;
    hide ConfigOf;
    FittedField(g0, g, wanted, done, field);
    hide Progress;
    if order == [] {
      assert SetOf(order) == {};
      NothingApplied(g0, g, wanted, done, field, a0, a, visited);
    } else {
      var init, last := order[..|order| - 1], order[|order| - 1];
      ApplyProgresses(g0, g, wanted, done, field, a0, a, visited, init);
      OneMoreService(g0, wanted, done, field, a0, visited, SetOf(init), ApplyProbe(g, a, field, wanted[field], init),
                     last);
      assert order == init + [last];
      assert SetOf(order) == SetOf(init) + {last};
    }
  }

  lemma NothingApplied(
    g0: HealthChecks, g: HealthChecks, wanted: Wanted, done: set<Setting>, field: ProbeField,
    a0: Annotation, a: Annotation, visited: set<NamespacedName>)
    requires Progress(g0, g, wanted, done) && field in wanted
    requires AnnotationAfter(g0, field, wanted[field], a0, a, visited)
    ensures PartlyApplied(g0, wanted, done, field, a0, visited, {}, Applied(g, a, []))
  {
    hide Progress;
    hide AnnotationAfter;
    assert done + PairsOf({}, field) == done && visited + {} == visited;
  }

  lemma FittedField(g0: HealthChecks, g: HealthChecks, wanted: Wanted, done: set<Setting>, field: ProbeField)
    requires Progress(g0, g, wanted, done) && field in wanted
    ensures Fits(field, wanted[field])
  {
  }
}
