/** What the report says of an annotation whose fate depends on its key and value alone. */
module Outcomes {
  import opened Text
  import opened Ordering
  import opened StatusCodes
  import opened Annotations
  import opened Resources
  import opened Gateways
  import opened Filters
  import opened RuleSets
  import opened Probes
  import opened BackendTLS
  import opened Handlers
  import opened Ingresses
  import opened Routing
  import opened Report

  /** The status an annotation ends with, and the codes of the issues shown with it. */
  datatype Note = Note(status: MigrationStatus, codes: set<IssueCode>)

  const SUPPORTED_KEYS: set<string> := {
    AppGW("request-timeout"), AppGW("cookie-based-affinity"), AppGW("health-probe-hostname"),
    AppGW("health-probe-path"), AppGW("health-probe-interval"), AppGW("health-probe-port"),
    AppGW("health-probe-status-codes"), AppGW("health-probe-timeout"), AppGW("health-probe-unhealthy-threshold"),
    AppGW("hostname-extension"), AppGW("backend-hostname"), AppGW("rewrite-rule-set-custom-resource"),
    AppGW("waf-policy-for-path"), AppGW("backend-path-prefix"), AppGW("ssl-redirect"), AppGW("backend-protocol"),
    AppGW("appgw-trusted-root-certificate"), AppGW("appgw-ssl-profile")}

  /** Where the key and the value settle it: the note on an annotation. */
  predicate NoteOn(env: Env, ingress: Ingress, key: string, value: string, note: Note) {
    var completed, invalid := Note(Completed, {}), Note(Error, {InvalidAnnotationValue});
    || (key == "kubectl.kubernetes.io/last-applied-configuration" && note == Note(Ignored, {}))
    || (key != "kubectl.kubernetes.io/last-applied-configuration" && key !in SUPPORTED_KEYS
        && note == Note(NotSupported, {UnsupportedAnnotationGeneric}))
    || (key in {AppGW("backend-hostname"), AppGW("backend-path-prefix"), AppGW("hostname-extension")}
        && note == completed)
    || (key == AppGW("appgw-trusted-root-certificate")
        && note == Note(NotSupported, {AppGWTrustedRootCertificatesNotSupported}))
    || (key == AppGW("waf-policy-for-path") && note == Note(Warning, {WAFPotentialIncompatibility}))
    || (key == AppGW("request-timeout")
        && note == if ParseInt(value, 0x8000_0000_0000_0000).Some? then completed else invalid)
    || (key == AppGW("cookie-based-affinity")
        && note == if value in {"1", "t", "T", "TRUE", "true", "True", "0", "f", "F", "FALSE", "false", "False"}
                   then completed else invalid)
    || (key in {AppGW("health-probe-interval"), AppGW("health-probe-timeout")}
        && ParseInt(value, 0x8000_0000_0000_0000).None? && note == invalid)
    || (key in {AppGW("health-probe-port"), AppGW("health-probe-unhealthy-threshold")}
        && ParseInt(value, 0x8000_0000).None? && note == invalid)
    || (key == AppGW("health-probe-status-codes") && Parse(value).None? && note == Note(Error, {}))
    || (key == AppGW("rewrite-rule-set-custom-resource")
        && NamespacedName(ingress.name.namespace, value) !in env.rewrites
        && note == Note(Error, {CouldNotFindAppGWRewriteCustomResource}))
    || (key == AppGW("backend-protocol") && ToLower(value) == "http" && note == completed)
    || (key == AppGW("backend-protocol") && ToLower(value) != "http" && ToLower(value) != "https"
        && note == Note(Error, {UnsupportBackendProtocol}))
  }

  /** A visit of the annotation adds the note. */
  predicate Noted(before: Annotation, after: Annotation, note: Note) {
    after.status == Next(before.status, note.status) && CodesOf(after.issues) == CodesOf(before.issues) + note.codes
  }

  lemma SupportedIff(key: string)
    ensures key in SUPPORTED_KEYS <==> HandlerFor(key).Some?
    ensures key in SUPPORTED_KEYS ==> key != LAST_APPLIED
  {
    hide HandlerFor;
    hide AppGW;
    Keys();
    if key in SUPPORTED_KEYS {
      assert exists h :: key == KeyOf(h);
      var h :| key == KeyOf(h);
      Dispatch(key, h);
    }
  }

  lemma OneMoreIssue(a: Annotation, issue: Issue)
    ensures CodesOf(a.RegisterIssue(issue).issues) == CodesOf(a.issues) + {issue.code}
  {
    assert forall i :: i in a.issues + [issue] <==> i in a.issues || i == issue;
  }

  lemma BoolValues(value: string)
    ensures ParseBool(value).Some? <==>
            value in {"1", "t", "T", "TRUE", "true", "True", "0", "f", "F", "FALSE", "false", "False"}
  {
  }

  /** The note on an annotation that no handler is called for. */
  lemma UnhandledNote(env: Env, ingress: Ingress, key: string, value: string, note: Note)
    requires NoteOn(env, ingress, key, value, note) && key !in SUPPORTED_KEYS
    ensures note == if key == LAST_APPLIED then Note(Ignored, {})
                    else Note(NotSupported, {UnsupportedAnnotationGeneric})
  {
    hide AppGW;
    hide ParseInt;
    hide ToLower;
    hide Parse;
  }

  /** The note by handler. */
  function NoteOf(env: Env, ingress: Ingress, h: Handler, value: string): Option<Note> {
    var completed, invalid := Some(Note(Completed, {})), Some(Note(Error, {InvalidAnnotationValue}));
    match h
    case BackendHostname | BackendPathPrefix | HostnameExtension => completed
    case TrustedRootCertificate => Some(Note(NotSupported, {AppGWTrustedRootCertificatesNotSupported}))
    case WAFPolicyForPath => Some(Note(Warning, {WAFPotentialIncompatibility}))
    case RequestTimeout => if ParseInt(value, TWO_TO_THE_63).Some? then completed else invalid
    case CookieBasedAffinity => if ParseBool(value).Some? then completed else invalid
    case Probe(field) =>
      if Decode(field, value).Some? then None
      else if field.ProbeStatusCodes? then Some(Note(Error, {})) else invalid
    case BackendProtocol =>
      if ToLower(value) == "http" then completed
      else if ToLower(value) == "https" then None else Some(Note(Error, {UnsupportBackendProtocol}))
    case RewriteRuleSetCustomResource =>
      if NamespacedName(ingress.name.namespace, value) in env.rewrites then None
      else Some(Note(Error, {CouldNotFindAppGWRewriteCustomResource}))
    case SSLRedirect | SSLProfile => None
  }

  lemma NotedHandler(env: Env, ingress: Ingress, key: string, value: string, note: Note) returns (h: Handler)
    requires NoteOn(env, ingress, key, value, note) && key in SUPPORTED_KEYS
    ensures KeyOf(h) == key && NoteOf(env, ingress, h, value) == Some(note)
  {
    hide KeyOf;
    hide AppGW;
    hide HandlerFor;
    hide SUPPORTED_KEYS;
    hide ParseInt;
    hide ParseBool;
    hide ToLower;
    hide Parse;
    Keys();
    BoolValues(value);
    SupportedIff(key);
    var completed, invalid := Note(Completed, {}), Note(Error, {InvalidAnnotationValue});
    if {
      case key == AppGW("backend-hostname") && note == completed => h := BackendHostname;
      case key == AppGW("backend-path-prefix") && note == completed => h := BackendPathPrefix;
      case key == AppGW("hostname-extension") && note == completed => h := HostnameExtension;
      case key == AppGW("appgw-trusted-root-certificate")
           && note == Note(NotSupported, {AppGWTrustedRootCertificatesNotSupported}) => h := TrustedRootCertificate;
      case key == AppGW("waf-policy-for-path") && note == Note(Warning, {WAFPotentialIncompatibility}) =>
        h := WAFPolicyForPath;
      case key == AppGW("request-timeout") && NoteOf(env, ingress, RequestTimeout, value) == Some(note) =>
        h := RequestTimeout;
      case key == AppGW("cookie-based-affinity") && NoteOf(env, ingress, CookieBasedAffinity, value) == Some(note) =>
        h := CookieBasedAffinity;
      case key == AppGW("health-probe-interval") && NoteOf(env, ingress, Probe(ProbeInterval), value) == Some(note) =>
        h := Probe(ProbeInterval);
      case key == AppGW("health-probe-timeout") && NoteOf(env, ingress, Probe(ProbeTimeout), value) == Some(note) =>
        h := Probe(ProbeTimeout);
      case key == AppGW("health-probe-port") && NoteOf(env, ingress, Probe(ProbePort), value) == Some(note) =>
        h := Probe(ProbePort);
      case key == AppGW("health-probe-unhealthy-threshold")
           && NoteOf(env, ingress, Probe(ProbeUnhealthyThreshold), value) == Some(note) =>
        h := Probe(ProbeUnhealthyThreshold);
      case key == AppGW("health-probe-status-codes")
           && NoteOf(env, ingress, Probe(ProbeStatusCodes), value) == Some(note) =>
        h := Probe(ProbeStatusCodes);
      case key == AppGW("rewrite-rule-set-custom-resource")
           && NoteOf(env, ingress, RewriteRuleSetCustomResource, value) == Some(note) =>
        h := RewriteRuleSetCustomResource;
      case key == AppGW("backend-protocol") && NoteOf(env, ingress, BackendProtocol, value) == Some(note) =>
        h := BackendProtocol;
    }
  }

  lemma ProbeIsNoted(
    env: Env, ingress: Ingress, sections: set<string>, w: World, route: HTTPRoute, a: Annotation, h: Handler,
    orders: Orders)
    requires h.Probe? && NoteOf(env, ingress, h, a.value).Some?
    ensures var o := Handle(env, ingress, sections, w, route, a, h, orders);
            var note := NoteOf(env, ingress, h, a.value).value;
            Noted(a, o.annotation, note) && o.failed == (note.status == Error)
  {
    hide ApplyProbe;
    hide Decode;
    OneMoreIssue(a, Issue(InvalidAnnotationValue, None));
  }

  lemma ProtocolIsNoted(
    env: Env, ingress: Ingress, sections: set<string>, w: World, route: HTTPRoute, a: Annotation, h: Handler,
    orders: Orders)
    requires h.BackendProtocol? && NoteOf(env, ingress, h, a.value).Some?
    ensures var o := Handle(env, ingress, sections, w, route, a, h, orders);
            var note := NoteOf(env, ingress, h, a.value).value;
            Noted(a, o.annotation, note) && o.failed == (note.status == Error)
  {
    hide ToLower;
    hide ApplyPorts;
    hide CodesOf;
    OneMoreIssue(a.SetStatus(Error), Issue(UnsupportBackendProtocol, None));
  }

  lemma PolicyIsNoted(
    env: Env, ingress: Ingress, sections: set<string>, w: World, route: HTTPRoute, a: Annotation, h: Handler,
    orders: Orders)
    requires h.RequestTimeout? || h.CookieBasedAffinity? || h.WAFPolicyForPath?
    requires NoteOf(env, ingress, h, a.value).Some?
    ensures var o := Handle(env, ingress, sections, w, route, a, h, orders);
            var note := NoteOf(env, ingress, h, a.value).value;
            Noted(a, o.annotation, note) && o.failed == (note.status == Error)
  {
    hide ParseInt;
    hide ParseBool;
    hide Inserted;
    hide CodesOf;
    OneMoreIssue(a, Issue(InvalidAnnotationValue, None));
    OneMoreIssue(a, Issue(WAFPotentialIncompatibility, None));
  }

  lemma CallIsNoted(
    env: Env, ingress: Ingress, sections: set<string>, w: World, route: HTTPRoute, a: Annotation, h: Handler,
    orders: Orders)
    requires NoteOf(env, ingress, h, a.value).Some?
    ensures var o := Handle(env, ingress, sections, w, route, a, h, orders);
            var note := NoteOf(env, ingress, h, a.value).value;
            Noted(a, o.annotation, note) && o.failed == (note.status == Error)
  {
    hide ExtendListeners;
    hide HostNames;
    hide ApplyOp;
    hide CodesOf;
    hide PerformAll;
    OneMoreIssue(a, Issue(AppGWTrustedRootCertificatesNotSupported, None));
    OneMoreIssue(a, Issue(CouldNotFindAppGWRewriteCustomResource, None));
    match h {
      case Probe(_) => ProbeIsNoted(env, ingress, sections, w, route, a, h, orders);
      case BackendProtocol => ProtocolIsNoted(env, ingress, sections, w, route, a, h, orders);
      case RequestTimeout | CookieBasedAffinity | WAFPolicyForPath =>
        PolicyIsNoted(env, ingress, sections, w, route, a, h, orders);
      case _ =>
    }
  }

  lemma VisitIsNoted(
    env: Env, ingress: Ingress, sections: set<string>, w: World, route: HTTPRoute, key: string, a: Annotation,
    orders: Orders, note: Note)
    requires NoteOn(env, ingress, key, a.value, note)
    ensures var o := Visit(env, ingress, sections, w, route, key, a, orders);
            Noted(a, o.annotation, note) && o.failed == (note.status == Error)
  {
    hide HandlerFor;
    hide Handle;
    hide NoteOf;
    SupportedIff(key);
    OneMoreIssue(a, Issue(UnsupportedAnnotationGeneric, None));
    if key in SUPPORTED_KEYS {
      var h := NotedHandler(env, ingress, key, a.value, note);
      VisitIsCall(env, ingress, sections, w, route, a, orders, h);
      CallIsNoted(env, ingress, sections, w, route, a, h, orders);
    } else {
      UnhandledNote(env, ingress, key, a.value, note);
    }
  }

  /** One pass over the annotations adds the note once. */
  lemma {:induction false} VisitAllNoted(
    env: Env, ingress: Ingress, sections: set<string>, schedule: Schedule, i: nat, p: Pass, order: seq<string>,
    key: string, note: Note)
    requires NoDuplicates(order) && forall k | k in order :: k in p.annotations
    requires key in p.annotations && NoteOn(env, ingress, key, p.annotations[key].value, note)
    ensures var r := VisitAll(env, ingress, sections, schedule, i, p, order);
            && r.annotations[key].value == p.annotations[key].value
            && (if key in order then Noted(p.annotations[key], r.annotations[key], note)
                else r.annotations[key] == p.annotations[key])
            && (key in r.failed <==> key in p.failed || (key in order && note.status == Error))
  {
    hide Visit;
    hide NoteOn;
    hide Noted;
    if order != [] {
      var init, last := order[..|order| - 1], order[|order| - 1];
      assert order == init + [last];
      VisitAllNoted(env, ingress, sections, schedule, i, p, init, key, note);
      if last == key {
        var q := VisitAll(env, ingress, sections, schedule, i, p, init);
        var orders := OrdersAt(schedule, i, key, q.world, q.route);
        assert key !in init;
        VisitIsNoted(env, ingress, sections, q.world, q.route, key, q.annotations[key], orders, note);
        VisitKeepsValue(env, ingress, sections, q.world, q.route, key, q.annotations[key], orders);
      }
    }
  }

  /** The annotation holds the note if any rule had paths, and is untouched otherwise. */
  predicate HoldsNote(r: IngressRun, key: string, note: Note, visited: bool) {
    && key in r.annotations
    && r.annotations[key].status == (if visited then note.status else NotStarted)
    && CodesOf(r.annotations[key].issues) == (if visited then note.codes else {})
    && (key in r.failed <==> visited && note.status == Error)
  }

  lemma RuleNoted(env: Env, ingress: Ingress, schedule: Schedule, s: IngressRun, i: nat, key: string, note: Note)
    requires i < |ingress.rules| && ValidSchedule(schedule, s.annotations.Keys)
    requires HoldsNote(s, key, note, HasPaths(ingress, i)) && NoteOn(env, ingress, key, s.annotations[key].value, note)
    ensures var r := HandleRule(env, ingress, schedule, s, i);
            HoldsNote(r, key, note, HasPaths(ingress, i + 1)) && r.annotations[key].value == s.annotations[key].value
  {
    hide VisitAll;
    hide RouteFor;
    hide TranslatePaths;
    hide NoteOn;
    hide CodesOf;
    if ingress.rules[i].http.Some? {
      var start, order := PassStart(env.naming, ingress, s, i), schedule.annotations(i);
      assert Lists(order, s.annotations.Keys);
      VisitAllNoted(env, ingress, SectionsOf(start.route.parentRefs), schedule, i, start, order, key, note);
    }
  }

  lemma {:induction false} RulesNoted(
    env: Env, ingress: Ingress, schedule: Schedule, s: IngressRun, n: nat, key: string, note: Note)
    requires n <= |ingress.rules| && ValidSchedule(schedule, s.annotations.Keys)
    requires HoldsNote(s, key, note, false) && NoteOn(env, ingress, key, s.annotations[key].value, note)
    ensures var r := HandleRules(env, ingress, schedule, s, n);
            HoldsNote(r, key, note, HasPaths(ingress, n)) && r.annotations[key].value == s.annotations[key].value
  {
    hide HandleRule;
    hide ValidSchedule;
    hide HoldsNote;
    hide NoteOn;
    if n > 0 {
      RulesNoted(env, ingress, schedule, s, n - 1, key, note);
      RuleNoted(env, ingress, schedule, HandleRules(env, ingress, schedule, s, n - 1), n - 1, key, note);
    }
  }

  /** The status of such an annotation after a conversion, the codes of its issues, and whether it failed its ingress:
      the note if the ingress has a rule with paths; otherwise nothing is reported, whatever the annotation says. */
  lemma ConvertNotes(
    env: Env, options: Options, scrapedWAFID: string,
    inputs: map<NamespacedName, Input>, schedules: NamespacedName -> Schedule, listing: seq<NamespacedName>,
    k: NamespacedName, key: string, value: string, note: Note)
    requires ValidInput(inputs, schedules) && Lists(listing, inputs.Keys) && k in inputs
    requires key in inputs[k].annotations && inputs[k].annotations[key] == Annotation(key, value, NotStarted, {}, [])
    requires NoteOn(env, inputs[k].ingress, key, value, note)
    ensures var results := Convert(env, options, scrapedWAFID, inputs, schedules, listing).results;
            k in results
            && HoldsNote(results[k], key, note, exists i | 0 <= i < |inputs[k].ingress.rules| ::
                           inputs[k].ingress.rules[i].http.Some?)
  {
    hide HandleIngresses;
    hide StartWorld;
    hide HandleRules;
    hide NameLess;
    hide Sort;
    hide GrantTLS;
    hide NoteOn;
    NameLessIsStrictOrder();
    SortOfListing(listing, listing, inputs.Keys, NameLess);
    var sorted := Sort(listing, NameLess);
    var j :| 0 <= j < |sorted| && sorted[j] == k;
    var start := StartWorld(options, scrapedWAFID, sorted);
    ResultAt(env, inputs, schedules, start, sorted, j);
    var w := HandleIngresses(env, inputs, schedules, start, sorted[..j]).world;
    var ingress := inputs[k].ingress;
    SomeRuleHasPaths(ingress, |ingress.rules|);
    RulesNoted(env, ingress, schedules(k), IngressStart(w, ingress, inputs[k].annotations), |ingress.rules|, key, note);
  }
}
