/** Migration statuses, the issue library and the tracking of one ingress annotation. */
module Annotations {
  import opened Text
  import opened Ordering

  datatype MigrationStatus = NotStarted | NotSupported | Ignored | Completed | Error | Warning

  datatype IssueLevel = LevelNotSupported | LevelWarning | LevelError

  datatype IssueCode =
    | UnsupportBackendProtocol
    | CreatingBackendTLSPolicy
    | AppGWTrustedRootCertificatesNotSupported
    | InvalidAnnotationValue
    | HealthCheckConflict
    | CouldNotFindAppGWRewriteCustomResource
    | RewriteRuleSetRuleSequenceNotSupported
    | RewriteRuleSetConditionsNotSupported
    | RewriteRuleSetRerouteNotSupported
    | FrontendTLSPolicyProfileConflict
    | FrontendTLSPolicyProfileCipherWarning
    | NoHTTPSListenersForSSLProfile
    | UnsupportedAnnotationGeneric
    | WAFPotentialIncompatibility
    | NGINXRewriteTargetCaptureGroups
    | NGINXUseRegexLimitedSupport

  /** The `Level` column of the issue library. */
  function Level(code: IssueCode): IssueLevel {
    match code
    case UnsupportBackendProtocol => LevelNotSupported
    case AppGWTrustedRootCertificatesNotSupported => LevelNotSupported
    case UnsupportedAnnotationGeneric => LevelNotSupported
    case RewriteRuleSetConditionsNotSupported => LevelWarning
    case RewriteRuleSetRerouteNotSupported => LevelWarning
    case FrontendTLSPolicyProfileCipherWarning => LevelWarning
    case WAFPotentialIncompatibility => LevelWarning
    case NGINXRewriteTargetCaptureGroups => LevelWarning
    case NGINXUseRegexLimitedSupport => LevelWarning
    case _ => LevelError
  }

  function LevelStatus(level: IssueLevel): MigrationStatus {
    match level
    case LevelNotSupported => NotSupported
    case LevelWarning => Warning
    case LevelError => Error
  }

  /** An issue and the policy its message names, if any. */
  datatype Issue = Issue(code: IssueCode, about: Option<NamespacedName>)

  /** `K8sResourceID`. */
  datatype ResourceID = ResourceID(apiVersion: string, kind: string, name: NamespacedName)

  // ---------- The status machine ----------

  /** `SetStatus` on the status alone. */
  function Next(current: MigrationStatus, newStatus: MigrationStatus): MigrationStatus {
    if current == NotStarted then newStatus
    else if current == Error then current
    else if current == Warning then (if newStatus == Error then newStatus else current)
    else newStatus
  }

  /** The status after setting the given ones in order. */
  function Settle(start: MigrationStatus, statuses: seq<MigrationStatus>): MigrationStatus {
    if statuses == [] then start
    else Next(Settle(start, statuses[..|statuses| - 1]), statuses[|statuses| - 1])
  }

  /** Error wins over everything ever set, Warning over all but Error, and otherwise the last one set stands. */
  lemma {:induction false} SettledStatus(start: MigrationStatus, statuses: seq<MigrationStatus>)
    ensures Settle(start, statuses) ==
            if start == Error || Error in statuses then Error
            else if start == Warning || Warning in statuses then Warning
            else if statuses == [] then start
            else statuses[|statuses| - 1]
  {
    if statuses != [] {
      var init, last := statuses[..|statuses| - 1], statuses[|statuses| - 1];
      SettledStatus(start, init);
      assert statuses == init + [last];
    }
  }

  /** What the conversion knows of one annotation. */
  datatype Annotation = Annotation(
    key: string,
    value: string,
    status: MigrationStatus,
    destinations: set<ResourceID>,
    issues: seq<Issue>)
  {
    function SetStatus(newStatus: MigrationStatus): Annotation {
      this.(status := Next(status, newStatus))
    }

    function RegisterIssue(issue: Issue): Annotation {
      this.(issues := issues + [issue]).SetStatus(LevelStatus(Level(issue.code)))
    }

    function AddDestination(resource: ResourceID): Annotation {
      this.(destinations := destinations + {resource}).SetStatus(Completed)
    }
  }

  function NewAnnotation(key: string, value: string): Annotation {
    Annotation(key, value, NotStarted, {}, [])
  }

  /** One call on an annotation context. */
  datatype Event =
    | StatusSet(status: MigrationStatus)
    | IssueRegistered(issue: Issue)
    | DestinationAdded(resource: ResourceID)

  function Step(a: Annotation, e: Event): Annotation {
    match e
    case StatusSet(s) => a.SetStatus(s)
    case IssueRegistered(i) => a.RegisterIssue(i)
    case DestinationAdded(r) => a.AddDestination(r)
  }

  function Run(a: Annotation, events: seq<Event>): Annotation {
    if events == [] then a else Step(Run(a, events[..|events| - 1]), events[|events| - 1])
  }

  /** The status an event asks for. */
  function Asked(e: Event): MigrationStatus {
    match e
    case StatusSet(s) => s
    case IssueRegistered(i) => LevelStatus(Level(i.code))
    case DestinationAdded(_) => Completed
  }

  function AskedAll(events: seq<Event>): (r: seq<MigrationStatus>)
    ensures |r| == |events|
    ensures forall i | 0 <= i < |events| :: r[i] == Asked(events[i])
  {
    seq(|events|, i requires 0 <= i < |events| => Asked(events[i]))
  }

  lemma {:induction false} RunSettles(a: Annotation, events: seq<Event>)
    ensures Run(a, events).status == Settle(a.status, AskedAll(events))
    ensures Run(a, events).key == a.key && Run(a, events).value == a.value
    ensures forall i | i in Run(a, events).issues :: i in a.issues || IssueRegistered(i) in events
  {
    if events != [] {
      var init, last := events[..|events| - 1], events[|events| - 1];
      RunSettles(a, init);
      assert AskedAll(events)[..|events| - 1] == AskedAll(init);
      assert events == init + [last];
    }
  }

  /** Over every history of a fresh annotation: which status it ends with. */
  lemma StatusOfHistory(key: string, value: string, events: seq<Event>)
    ensures Run(NewAnnotation(key, value), events).status ==
            if Error in AskedAll(events) then Error
            else if Warning in AskedAll(events) then Warning
            else if events == [] then NotStarted
            else Asked(events[|events| - 1])
  {
    RunSettles(NewAnnotation(key, value), events);
    SettledStatus(NotStarted, AskedAll(events));
  }

  /** Once an Error-level issue is registered the annotation stays at Error, whatever happens later. */
  lemma ErrorIssueIsFinal(key: string, value: string, events: seq<Event>, issue: Issue)
    requires issue in Run(NewAnnotation(key, value), events).issues
    requires Level(issue.code) == LevelError
    ensures Run(NewAnnotation(key, value), events).status == Error
  {
    RunSettles(NewAnnotation(key, value), events);
    var i :| 0 <= i < |events| && events[i] == IssueRegistered(issue);
    assert AskedAll(events)[i] == Error;
    StatusOfHistory(key, value, events);
  }

  /** `IngressAnnotationContext`. */
  class IngressAnnotationContext {
    const key: string
    const value: string
    var status: MigrationStatus
    var destinationResources: set<ResourceID>
    var issues: seq<Issue>

    function View(): Annotation
      reads this
    {
      Annotation(key, value, status, destinationResources, issues)
    }

    constructor (key: string, value: string)
      ensures View() == NewAnnotation(key, value)
    {
      this.key, this.value := key, value;
      status, destinationResources, issues := NotStarted, {}, [];
    }

    method SetStatus(newStatus: MigrationStatus)
      modifies this`status
      ensures View() == old(View()).SetStatus(newStatus)
    {
      if status == NotStarted {
        status := newStatus;
        return;
      }
      match status {
        case Error =>
        case Warning =>
          if newStatus == Error {
            status := newStatus;
          }
        case NotSupported | Ignored | Completed => status := newStatus;
      }
    }

    method RegisterIssue(issue: Issue)
      modifies this`status, this`issues
      ensures View() == old(View()).RegisterIssue(issue)
    {
      issues := issues + [issue];
      SetStatus(LevelStatus(Level(issue.code)));
    }

    method AddDestination(resource: ResourceID)
      modifies this`status, this`destinationResources
      ensures View() == old(View()).AddDestination(resource)
    {
      destinationResources := destinationResources + {resource};
      SetStatus(Completed);
    }
  }
}
