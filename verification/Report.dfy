/** The migration report: what became of each annotation, and the names of what was created. */
module Report {
  import opened Text
  import opened Ordering
  import opened Annotations
  import opened Resources
  import opened Gateways
  import opened Conversion

  // ---------- One annotation ----------

  /** An annotation that did not go through, with the issues to show; their texts follow from the issue codes. */
  datatype FailedAnnotation = FailedAnnotation(keyValue: string, issues: seq<Issue>)

  function KeyValue(a: Annotation): string {
    a.key + "=" + a.value
  }

  /** No earlier issue has the code of issue `i`. */
  predicate IsFirst(issues: seq<Issue>, i: nat)
    requires i < |issues|
  {
    forall j | 0 <= j < i :: issues[j].code != issues[i].code
  }

  /** The first issue of each code among the first `n`, in the order in which they came up. */
  function FirstIssues(issues: seq<Issue>, n: nat): seq<Issue>
    requires n <= |issues|
  {
    if n == 0 then [] else FirstIssues(issues, n - 1) + if IsFirst(issues, n - 1) then [issues[n - 1]] else []
  }

  /** The annotation with the first issue of each code. */
  function Shown(a: Annotation): FailedAnnotation {
    FailedAnnotation(KeyValue(a), FirstIssues(a.issues, |a.issues|))
  }

  /** `newFailedAnnotation`. */
  method NewFailedAnnotation(a: Annotation) returns (r: FailedAnnotation)
    ensures r == Shown(a)
  {
    hide IsFirst;
    hide CodesOf;
    NoCodes();
    var codes: set<IssueCode> := {};
    var issues: seq<Issue> := [];
    assert a.issues[..0] == [];
    for i := 0 to |a.issues|
      invariant issues == FirstIssues(a.issues, i) && codes == CodesOf(a.issues[..i])
    {
      OneMoreCode(a.issues, i);
      if a.issues[i].code in codes {
        continue;
      }
      codes := codes + {a.issues[i].code};
      issues := issues + [a.issues[i]];
    }
    r := FailedAnnotation(a.key + "=" + a.value, issues);
  }

  lemma NoCodes()
    ensures CodesOf([]) == {}
  {
  }

  function CodesOf(issues: seq<Issue>): set<IssueCode> {
    set i | i in issues :: i.code
  }

  lemma OneMoreCode(issues: seq<Issue>, n: nat)
    requires n < |issues|
    ensures CodesOf(issues[..n + 1]) == CodesOf(issues[..n]) + {issues[n].code}
    ensures IsFirst(issues, n) <==> issues[n].code !in CodesOf(issues[..n])
    ensures issues[n].code in CodesOf(issues[..n]) ==> CodesOf(issues[..n + 1]) == CodesOf(issues[..n])
  {
    assert issues[..n + 1] == issues[..n] + [issues[n]];
    assert forall j | 0 <= j < n :: issues[..n][j] in issues[..n];
  }

  /** The indices of the first issues of each code. */
  function FirstIndices(issues: seq<Issue>, n: nat): (r: seq<nat>)
    requires n <= |issues|
    ensures forall k | 0 <= k < |r| :: r[k] < n && IsFirst(issues, r[k])
    ensures forall k, l | 0 <= k < l < |r| :: r[k] < r[l]
    ensures forall i | 0 <= i < n && IsFirst(issues, i) :: i in r
  {
    if n == 0 then [] else FirstIndices(issues, n - 1) + if IsFirst(issues, n - 1) then [n - 1] else []
  }

  /** The issues kept are those at the indices that are the first of their code, by increasing index. */
  lemma {:induction false} KeptByIndex(issues: seq<Issue>, n: nat)
    requires n <= |issues|
    ensures |FirstIssues(issues, n)| == |FirstIndices(issues, n)|
    ensures forall k | 0 <= k < |FirstIndices(issues, n)| ::
              FirstIssues(issues, n)[k] == issues[FirstIndices(issues, n)[k]]
  {
    hide IsFirst;
    if n > 0 {
      KeptByIndex(issues, n - 1);
    }
  }

  /** One issue is shown for each code, and it is the earliest with that code. */
  lemma ShownOncePerCode(a: Annotation)
    ensures forall k, l | 0 <= k < l < |Shown(a).issues| :: Shown(a).issues[k].code != Shown(a).issues[l].code
    ensures forall i | i in a.issues :: exists s :: s in Shown(a).issues && s.code == i.code
    ensures forall s | s in Shown(a).issues :: s in a.issues
  {
    hide FirstIndices;
    hide FirstIssues;
    var issues, kept := a.issues, FirstIndices(a.issues, |a.issues|);
    var shown := Shown(a).issues;
    KeptByIndex(issues, |issues|);
    forall k, l | 0 <= k < l < |shown| ensures shown[k].code != shown[l].code {
      assert IsFirst(issues, kept[l]) && kept[k] < kept[l];
    }
    hide IsFirst;
    forall i | i in issues ensures exists s :: s in shown && s.code == i.code {
      var j :| 0 <= j < |issues| && issues[j] == i;
      var f := FirstWithCode(issues, j);
      var k :| 0 <= k < |kept| && kept[k] == f;
      assert shown[k] in shown && shown[k].code == i.code;
    }
    forall s | s in shown ensures s in issues {
      var k :| 0 <= k < |shown| && shown[k] == s;
      assert issues[kept[k]] == s;
    }
  }

  lemma {:induction false} FirstWithCode(issues: seq<Issue>, j: nat) returns (f: nat)
    requires j < |issues|
    ensures f <= j && IsFirst(issues, f) && issues[f].code == issues[j].code
    decreases j
  {
    if IsFirst(issues, j) {
      f := j;
    } else {
      var i :| 0 <= i < j && issues[i].code == issues[j].code;
      f := FirstWithCode(issues, i);
    }
  }

  // ---------- One ingress ----------

  datatype AnnotationLists = AnnotationLists(
    completed: seq<string>, warnings: seq<FailedAnnotation>, failed: seq<FailedAnnotation>,
    unsupported: seq<FailedAnnotation>)

  const NO_ANNOTATIONS := AnnotationLists([], [], [], [])

  /** The list an annotation goes to is that of its status; Ignored and NotStarted have none. */
  function Filed(lists: AnnotationLists, a: Annotation): AnnotationLists {
    match a.status
    case Completed => lists.(completed := lists.completed + [KeyValue(a)])
    case Warning => lists.(warnings := lists.warnings + [Shown(a)])
    case Error => lists.(failed := lists.failed + [Shown(a)])
    case NotSupported => lists.(unsupported := lists.unsupported + [Shown(a)])
    case Ignored | NotStarted => lists
  }

  function FiledAll(annotations: map<string, Annotation>, keys: seq<string>): AnnotationLists
    requires forall k | k in keys :: k in annotations
  {
    if keys == [] then NO_ANNOTATIONS
    else Filed(FiledAll(annotations, keys[..|keys| - 1]), annotations[keys[|keys| - 1]])
  }

  /** The keys with a given status, in order. */
  function WithStatus(
    annotations: map<string, Annotation>, keys: seq<string>, status: MigrationStatus): (r: seq<string>)
    requires forall k | k in keys :: k in annotations
    ensures forall k :: k in r <==> k in keys && annotations[k].status == status
  {
    if keys == [] then []
    else
      var last := keys[|keys| - 1];
      WithStatus(annotations, keys[..|keys| - 1], status) + if annotations[last].status == status then [last] else []
  }

  function KeyValues(annotations: map<string, Annotation>, keys: seq<string>): (r: seq<string>)
    requires forall k | k in keys :: k in annotations
    ensures |r| == |keys|
    ensures forall i | 0 <= i < |keys| :: r[i] == annotations[keys[i]].key + "=" + annotations[keys[i]].value
  {
    seq(|keys|, i requires 0 <= i < |keys| => KeyValue(annotations[keys[i]]))
  }

  function AllShown(annotations: map<string, Annotation>, keys: seq<string>): (r: seq<FailedAnnotation>)
    requires forall k | k in keys :: k in annotations
    ensures |r| == |keys|
    ensures forall i | 0 <= i < |keys| :: r[i] == Shown(annotations[keys[i]])
  {
    seq(|keys|, i requires 0 <= i < |keys| => Shown(annotations[keys[i]]))
  }

  /** Each list holds exactly the annotations of its status, in the order of their keys. So every annotation is in one
      list, but for the ignored ones and those no handler touched, which are in none. */
  lemma {:induction false} EachInItsList(annotations: map<string, Annotation>, keys: seq<string>)
    requires forall k | k in keys :: k in annotations
    ensures FiledAll(annotations, keys) == AnnotationLists(
                KeyValues(annotations, WithStatus(annotations, keys, Completed)),
                AllShown(annotations, WithStatus(annotations, keys, Warning)),
                AllShown(annotations, WithStatus(annotations, keys, Error)),
                AllShown(annotations, WithStatus(annotations, keys, NotSupported)))
  {
    hide KeyValues;
    hide AllShown;
    hide Shown;
    hide KeyValue;
    NothingToShow(annotations);
    if keys != [] {
      var init, last := keys[..|keys| - 1], keys[|keys| - 1];
      EachInItsList(annotations, init);
      ShowOneMore(annotations, WithStatus(annotations, init, annotations[last].status), last);
    }
  }

  lemma NothingToShow(annotations: map<string, Annotation>)
    ensures KeyValues(annotations, []) == [] && AllShown(annotations, []) == []
  {
  }

  lemma ShowOneMore(annotations: map<string, Annotation>, keys: seq<string>, key: string)
    requires key in annotations && forall k | k in keys :: k in annotations
    ensures KeyValues(annotations, keys + [key]) == KeyValues(annotations, keys) + [KeyValue(annotations[key])]
    ensures AllShown(annotations, keys + [key]) == AllShown(annotations, keys) + [Shown(annotations[key])]
  {
  }

  /** The kinds of resource that have a list in the report. */
  const LISTED_KINDS: set<string> := {
    KIND_ROUTE_POLICY, KIND_HEALTH_CHECK_POLICY, KIND_WAF_POLICY, KIND_HTTP_ROUTE, KIND_BACKEND_TLS_POLICY,
    KIND_FRONTEND_TLS_POLICY}

  function NamesOfKind(resources: set<ResourceID>, kind: string): set<NamespacedName> {
    set r | r in resources && r.kind == kind :: r.name
  }

  /** The destinations of one kind, over the annotations in `keys`. */
  function DestinationsOf(annotations: map<string, Annotation>, keys: set<string>, kind: string): set<NamespacedName>
    requires keys <= annotations.Keys
  {
    set k, r | k in keys && r in annotations[k].destinations && r.kind == kind :: r.name
  }

  /** A list is what it was at first, followed by each name of a set once. */
  ghost predicate Extends(list: seq<NamespacedName>, base: seq<NamespacedName>, added: set<NamespacedName>) {
    |base| <= |list| && list[..|base|] == base && Lists(list[|base|..], added)
  }

  lemma ExtendsAnother(
    list: seq<NamespacedName>, base: seq<NamespacedName>, added: set<NamespacedName>, name: NamespacedName)
    requires Extends(list, base, added) && name !in added
    ensures Extends(list + [name], base, added + {name})
  {
    hide Lists;
    ListsSnoc(list[|base|..], added, name);
    assert (list + [name])[|base|..] == list[|base|..] + [name];
    assert (list + [name])[..|base|] == list[..|base|];
  }

  /** The list of each kind extends what it was at first. */
  ghost predicate Collected(
    names: map<string, seq<NamespacedName>>, base: map<string, seq<NamespacedName>>,
    added: map<string, set<NamespacedName>>)
  {
    && names.Keys == base.Keys == added.Keys == LISTED_KINDS
    && forall kind | kind in LISTED_KINDS :: Extends(names[kind], base[kind], added[kind])
  }

  lemma CollectedAnother(
    names: map<string, seq<NamespacedName>>, base: map<string, seq<NamespacedName>>,
    added: map<string, set<NamespacedName>>,
    kind: string, name: NamespacedName)
    requires Collected(names, base, added) && kind in LISTED_KINDS && name !in added[kind]
    ensures Collected(names[kind := names[kind] + [name]], base, added[kind := added[kind] + {name}])
  {
    hide LISTED_KINDS;
    hide Extends;
    ExtendsAnother(names[kind], base[kind], added[kind], name);
  }

  /** The names seen once some more resources have been listed. */
  function SeenWith(
    seen: map<string, set<NamespacedName>>, resources: set<ResourceID>): map<string, set<NamespacedName>> {
    map kind | kind in seen :: seen[kind] + NamesOfKind(resources, kind)
  }

  lemma NamesOfOne(resource: ResourceID, kind: string)
    ensures NamesOfKind({resource}, kind) == if kind == resource.kind then {resource.name} else {}
    ensures NamesOfKind({}, kind) == {}
  {
  }

  lemma NamesOfOneMore(resources: set<ResourceID>, resource: ResourceID, kind: string)
    ensures NamesOfKind(resources + {resource}, kind) == NamesOfKind(resources, kind) + NamesOfKind({resource}, kind)
  {
  }

  lemma SeenWithNone(seen: map<string, set<NamespacedName>>)
    ensures SeenWith(seen, {}) == seen
  {
    forall kind | kind in seen ensures SeenWith(seen, {})[kind] == seen[kind] {
      assert NamesOfKind({}, kind) == {};
    }
  }

  lemma SeenWithOneMore(seen: map<string, set<NamespacedName>>, resources: set<ResourceID>, resource: ResourceID)
    ensures SeenWith(SeenWith(seen, resources), {resource}) == SeenWith(seen, resources + {resource})
  {
    hide NamesOfKind;
    forall kind | kind in seen
      ensures SeenWith(SeenWith(seen, resources), {resource})[kind] == SeenWith(seen, resources + {resource})[kind]
    {
      NamesOfOneMore(resources, resource, kind);
    }
  }

  /** A destination goes to the list of its kind, once. */
  method ListDestination(
    names: map<string, seq<NamespacedName>>, seen: map<string, set<NamespacedName>>, resource: ResourceID,
    ghost base: map<string, seq<NamespacedName>>)
    returns (listed: map<string, seq<NamespacedName>>, nowSeen: map<string, set<NamespacedName>>)
    requires Collected(names, base, seen)
    ensures Collected(listed, base, nowSeen) && nowSeen == SeenWith(seen, {resource})
  {
    hide LISTED_KINDS;
    hide Extends;
    hide NamesOfKind;
    if resource.kind in LISTED_KINDS && resource.name !in seen[resource.kind] {
      CollectedAnother(names, base, seen, resource.kind, resource.name);
      listed := names[resource.kind := names[resource.kind] + [resource.name]];
      nowSeen := seen[resource.kind := seen[resource.kind] + {resource.name}];
    } else {
      listed, nowSeen := names, seen;
    }
    forall kind | kind in seen ensures nowSeen[kind] == SeenWith(seen, {resource})[kind] {
      NamesOfOne(resource, kind);
    }
  }

  /** The loop over the destinations of one annotation, in whatever order Go picks. */
  method ListDestinations(
    names: map<string, seq<NamespacedName>>, seen: map<string, set<NamespacedName>>, destinations: set<ResourceID>,
    ghost base: map<string, seq<NamespacedName>>)
    returns (listed: map<string, seq<NamespacedName>>, nowSeen: map<string, set<NamespacedName>>)
    requires Collected(names, base, seen)
    ensures Collected(listed, base, nowSeen) && nowSeen == SeenWith(seen, destinations)
  {
    hide *;
    listed, nowSeen := names, seen;
    var rest := destinations;
    ghost var done: set<ResourceID> := {};
    SeenWithNone(seen);
    while rest != {}
      invariant done + rest == destinations && Collected(listed, base, nowSeen) && nowSeen == SeenWith(seen, done)
      decreases rest
    {
      var resource :| resource in rest;
      SeenWithOneMore(seen, done, resource);
      rest, done := rest - {resource}, done + {resource};
      listed, nowSeen := ListDestination(listed, nowSeen, resource, base);
    }
    assert done == destinations;
  }

  datatype IngressReport = IngressReport(
    name: NamespacedName, names: map<string, seq<NamespacedName>>, annotations: AnnotationLists,
    result: MigrationStatus)

  /** The lists at first: the routes recorded by the conversion, and nothing else. */
  function FirstNames(recorded: seq<NamespacedName>): map<string, seq<NamespacedName>> {
    map kind | kind in LISTED_KINDS :: if kind == KIND_HTTP_ROUTE then recorded else []
  }

  function DestinationsByKind(annotations: map<string, Annotation>, keys: set<string>): map<string, set<NamespacedName>>
    requires keys <= annotations.Keys
  {
    map kind | kind in LISTED_KINDS :: DestinationsOf(annotations, keys, kind)
  }

  /** The report on an ingress: each list of names is duplicate-free and holds exactly the destinations of its kind, the
      list of routes after the routes recorded by the conversion; the annotations are filed by status in key order. */
  ghost predicate Reports(r: IngressReport, recorded: seq<NamespacedName>, annotations: map<string, Annotation>) {
    && Collected(r.names, FirstNames(recorded), DestinationsByKind(annotations, annotations.Keys))
    && forall keys | Lists(keys, annotations.Keys) && StrictlySorted(keys, StringLess) ::
         r.annotations == FiledAll(annotations, keys)
  }

  lemma DestinationsOfOneMore(annotations: map<string, Annotation>, keys: set<string>, key: string, kind: string)
    requires keys <= annotations.Keys && key in annotations
    ensures DestinationsOf(annotations, keys + {key}, kind)
         == DestinationsOf(annotations, keys, kind) + NamesOfKind(annotations[key].destinations, kind)
  {
  }

  function NoneSeen(): map<string, set<NamespacedName>> {
    map kind | kind in LISTED_KINDS :: {}
  }

  lemma NothingListed(recorded: seq<NamespacedName>, annotations: map<string, Annotation>)
    ensures Collected(FirstNames(recorded), FirstNames(recorded), NoneSeen())
    ensures SetOf<string>([]) == {}
    ensures forall kind | kind in LISTED_KINDS ::
              kind in NoneSeen() && NoneSeen()[kind] == DestinationsOf(annotations, {}, kind)
    ensures FiledAll(annotations, []) == NO_ANNOTATIONS
  {
  }

  /** The first keys of a list, and the next one. */
  lemma OneMoreKey(annotations: map<string, Annotation>, keys: seq<string>, n: nat)
    requires n < |keys| && forall k | k in keys :: k in annotations
    ensures keys[n] in annotations && SetOf(keys[..n]) <= annotations.Keys && SetOf(keys[..n + 1]) <= annotations.Keys
    ensures FiledAll(annotations, keys[..n + 1]) == Filed(FiledAll(annotations, keys[..n]), annotations[keys[n]])
    ensures forall kind ::
              DestinationsOf(annotations, SetOf(keys[..n + 1]), kind)
              == DestinationsOf(annotations, SetOf(keys[..n]), kind)
                + NamesOfKind(annotations[keys[n]].destinations, kind)
  {
    hide Filed;
    hide DestinationsOf;
    assert keys[..n + 1][..n] == keys[..n];
    assert SetOf(keys[..n + 1]) == SetOf(keys[..n]) + {keys[n]};
    forall kind {
      DestinationsOfOneMore(annotations, SetOf(keys[..n]), keys[n], kind);
    }
  }

  lemma SeenIsAll(
    names: map<string, seq<NamespacedName>>, base: map<string, seq<NamespacedName>>,
    seen: map<string, set<NamespacedName>>,
    annotations: map<string, Annotation>, keys: set<string>)
    requires keys <= annotations.Keys && Collected(names, base, seen)
    requires forall kind | kind in LISTED_KINDS :: kind in seen && seen[kind] == DestinationsOf(annotations, keys, kind)
    ensures Collected(names, base, DestinationsByKind(annotations, keys))
  {
    hide LISTED_KINDS;
    hide Extends;
    hide DestinationsOf;
  }

  /** There is one way to list a set in strictly increasing order. */
  lemma OneSortedListing<T(!new)>(xs: seq<T>, ys: seq<T>, s: set<T>, less: (T, T) -> bool)
    requires StrictOrder(less) && Lists(xs, s) && Lists(ys, s) && StrictlySorted(xs, less) && StrictlySorted(ys, less)
    ensures xs == ys
  {
    ListedMultiset(xs, s);
    ListedMultiset(ys, s);
    StrictIsSorted(xs, less);
    StrictIsSorted(ys, less);
    SortedIsUnique(xs, ys, less);
  }

  lemma StrictIsSorted<T(!new)>(xs: seq<T>, less: (T, T) -> bool)
    requires StrictOrder(less) && StrictlySorted(xs, less)
    ensures Sorted(xs, less)
  {
    forall i, j | 0 <= i < j < |xs| ensures !less(xs[j], xs[i]) {
      assert less(xs[i], xs[j]) && !less(xs[i], xs[i]);
    }
  }

  /** The switch on the status. */
  method FileAnnotation(lists: AnnotationLists, a: Annotation) returns (r: AnnotationLists)
    ensures r == Filed(lists, a)
  {
    match a.status {
      case Completed => r := lists.(completed := lists.completed + [KeyValue(a)]);
      case Warning =>
        var shown := NewFailedAnnotation(a);
        r := lists.(warnings := lists.warnings + [shown]);
      case Error =>
        var shown := NewFailedAnnotation(a);
        r := lists.(failed := lists.failed + [shown]);
      case NotSupported =>
        var shown := NewFailedAnnotation(a);
        r := lists.(unsupported := lists.unsupported + [shown]);
      case Ignored | NotStarted => r := lists;
    }
  }

  /** One round of the loop over the annotations. */
  method FileOne(
    ctx: IngressContext, key: string, names: map<string, seq<NamespacedName>>, lists: AnnotationLists,
    seen: map<string, set<NamespacedName>>, ghost base: map<string, seq<NamespacedName>>)
    returns (moreNames: map<string, seq<NamespacedName>>, moreLists: AnnotationLists,
             moreSeen: map<string, set<NamespacedName>>)
    requires key in ctx.annotations && Collected(names, base, seen)
    ensures Collected(moreNames, base, moreSeen)
    ensures forall kind | kind in LISTED_KINDS ::
              kind in moreSeen && moreSeen[kind] == seen[kind] + NamesOfKind(ctx.Tracked()[key].destinations, kind)
    ensures moreLists == Filed(lists, ctx.Tracked()[key])
  {
    hide LISTED_KINDS;
    hide Extends;
    hide Filed;
    hide NamesOfKind;
    var annotation := ctx.annotations[key];
    moreNames, moreSeen := ListDestinations(names, seen, annotation.destinationResources, base);
    moreLists := FileAnnotation(lists, annotation.View());
  }

  /** The loop over the sorted annotation keys. */
  method FileAll(
    ctx: IngressContext, keys: seq<string>) returns (names: map<string, seq<NamespacedName>>, lists: AnnotationLists)
    requires forall i | 0 <= i < |keys| :: keys[i] in ctx.annotations
    ensures SetOf(keys) <= ctx.Tracked().Keys
    ensures Collected(names, FirstNames(ctx.httpRoutes), DestinationsByKind(ctx.Tracked(), SetOf(keys)))
    ensures lists == FiledAll(ctx.Tracked(), keys)
  {
    hide *;
    ghost var annotations := ctx.Tracked();
    names, lists := FirstNames(ctx.httpRoutes), NO_ANNOTATIONS;
    var seen := NoneSeen();
    NothingListed(ctx.httpRoutes, annotations);
    assert keys[..0] == [];
    for i := 0 to |keys|
      invariant SetOf(keys[..i]) <= annotations.Keys && forall k | k in keys[..i] :: k in annotations
      invariant Collected(names, FirstNames(ctx.httpRoutes), seen)
      invariant forall kind | kind in LISTED_KINDS ::
                  kind in seen && seen[kind] == DestinationsOf(annotations, SetOf(keys[..i]), kind)
      invariant lists == FiledAll(annotations, keys[..i])
    {
      OneMoreKey(annotations, keys, i);
      names, lists, seen := FileOne(ctx, keys[i], names, lists, seen, FirstNames(ctx.httpRoutes));
    }
    assert keys[..|keys|] == keys;
    SeenIsAll(names, FirstNames(ctx.httpRoutes), seen, annotations, SetOf(keys));
  }

  /** `newIngress`. */
  method NewIngress(ctx: IngressContext) returns (r: IngressReport)
    ensures r.name == ctx.ingress.name && r.result == ctx.status
    ensures Reports(r, ctx.httpRoutes, ctx.Tracked())
  {
    hide *;
    StringLessIsStrictOrder();
    var keys := SortedKeys(ctx.annotations.Keys, StringLess);
    ListedOnce(keys, ctx.annotations.Keys);
    var names, lists := FileAll(ctx, keys);
    r := IngressReport(ctx.ingress.name, names, lists, ctx.status);
    ReportIs(r, ctx.httpRoutes, ctx.Tracked(), keys);
  }

  lemma ReportIs(
    r: IngressReport, recorded: seq<NamespacedName>, annotations: map<string, Annotation>, keys: seq<string>)
    requires Lists(keys, annotations.Keys) && StrictlySorted(keys, StringLess) && SetOf(keys) <= annotations.Keys
    requires Collected(r.names, FirstNames(recorded), DestinationsByKind(annotations, SetOf(keys)))
    requires r.annotations == FiledAll(annotations, keys)
    ensures Reports(r, recorded, annotations)
  {
    hide StringLess;
    hide Collected;
    hide FiledAll;
    hide DestinationsByKind;
    assert SetOf(keys) == annotations.Keys;
    StringLessIsStrictOrder();
    forall other | Lists(other, annotations.Keys) && StrictlySorted(other, StringLess)
      ensures other == keys
    {
      OneSortedListing(keys, other, annotations.Keys, StringLess);
    }
  }

  // ---------- Sorting the contents ----------

  /** The report on an ingress once its lists are sorted: the routes recorded and the destinations of each kind, by
      name. */
  ghost predicate SortedReport(r: IngressReport, recorded: seq<NamespacedName>, annotations: map<string, Annotation>) {
    && r.names.Keys == LISTED_KINDS
    && (forall kind | kind in LISTED_KINDS ::
          && Sorted(r.names[kind], NameLess)
          && multiset(r.names[kind])
             == multiset(FirstNames(recorded)[kind]) + multiset(DestinationsOf(annotations, annotations.Keys, kind)))
    && forall keys | Lists(keys, annotations.Keys) && StrictlySorted(keys, StringLess) ::
         r.annotations == FiledAll(annotations, keys)
  }

  lemma CollectedMultiset(list: seq<NamespacedName>, base: seq<NamespacedName>, added: set<NamespacedName>)
    requires Extends(list, base, added)
    ensures multiset(list) == multiset(base) + multiset(added)
  {
    ListedMultiset(list[|base|..], added);
    assert list == list[..|base|] + list[|base|..];
  }

  /** `sortContents` of one ingress. */
  method SortIngress(r: IngressReport, ghost recorded: seq<NamespacedName>, ghost annotations: map<string, Annotation>)
    returns (s: IngressReport)
    requires Reports(r, recorded, annotations)
    ensures s.name == r.name && s.result == r.result && SortedReport(s, recorded, annotations)
  {
    hide LISTED_KINDS;
    hide NameLess;
    hide Extends;
    hide DestinationsOf;
    hide FiledAll;
    s := r.(names := map kind | kind in r.names :: Sort(r.names[kind], NameLess));
    NameLessIsStrictOrder();
    forall kind | kind in LISTED_KINDS
      ensures Sorted(s.names[kind], NameLess)
      ensures multiset(s.names[kind])
           == multiset(FirstNames(recorded)[kind]) + multiset(DestinationsOf(annotations, annotations.Keys, kind))
    {
      SortSorts(r.names[kind], NameLess);
      CollectedMultiset(r.names[kind], FirstNames(recorded)[kind], DestinationsOf(annotations, annotations.Keys, kind));
    }
  }

  /** The sorted report is a function of the ingress: nothing in it depends on the order in which Go ranges over a
      map. */
  lemma ReportIsCanonical(
    r: IngressReport, s: IngressReport, recorded: seq<NamespacedName>, annotations: map<string, Annotation>)
    requires SortedReport(r, recorded, annotations) && SortedReport(s, recorded, annotations)
    ensures r.names == s.names && r.annotations == s.annotations
  {
    hide LISTED_KINDS;
    hide NameLess;
    hide StringLess;
    hide DestinationsOf;
    hide FiledAll;
    NameLessIsStrictOrder();
    StringLessIsStrictOrder();
    forall kind | kind in LISTED_KINDS ensures r.names[kind] == s.names[kind] {
      SortedIsUnique(r.names[kind], s.names[kind], NameLess);
    }
    var listing := SomeListing(annotations.Keys);
    SortOfListing(listing, listing, annotations.Keys, StringLess);
  }

  /** Each list of policies in the sorted report holds exactly the policies of its kind, once each. */
  lemma PolicyListsAreSets(
    r: IngressReport, recorded: seq<NamespacedName>, annotations: map<string, Annotation>, kind: string)
    requires SortedReport(r, recorded, annotations) && kind in LISTED_KINDS && kind != KIND_HTTP_ROUTE
    ensures Lists(r.names[kind], DestinationsOf(annotations, annotations.Keys, kind))
    ensures StrictlySorted(r.names[kind], NameLess)
  {
    hide LISTED_KINDS;
    hide NameLess;
    hide DestinationsOf;
    NameLessIsStrictOrder();
    assert multiset(FirstNames(recorded)[kind]) == multiset{};
    MultisetOfSetLists(r.names[kind], DestinationsOf(annotations, annotations.Keys, kind));
  }

  /** The kinds listed, and the routes: those recorded by the conversion besides those named by annotations. */
  lemma RoutesAreListed(r: IngressReport, recorded: seq<NamespacedName>, annotations: map<string, Annotation>)
    requires SortedReport(r, recorded, annotations)
    ensures r.names.Keys == {"HTTPRoute", "RoutePolicy", "HealthCheckPolicy", "BackendTLSPolicy", "FrontendTLSPolicy",
                             "WebApplicationFirewallPolicy"}
    ensures multiset(r.names["HTTPRoute"])
         == multiset(recorded) + multiset(DestinationsOf(annotations, annotations.Keys, "HTTPRoute"))
  {
    hide Sorted;
    assert "HTTPRoute" in LISTED_KINDS;
  }

  lemma {:induction false} SomeListing<T>(s: set<T>) returns (xs: seq<T>)
    ensures Lists(xs, s)
    decreases s
  {
    if s == {} {
      xs := [];
    } else {
      var x :| x in s;
      var rest := SomeListing(s - {x});
      ListsSnoc(rest, s - {x}, x);
      xs := rest + [x];
      assert s == (s - {x}) + {x};
    }
  }

  // ---------- The whole report ----------

  datatype AGCResources = AGCResources(
    applicationLoadBalancer: Option<NamespacedName>,
    gateway: NamespacedName,
    httpRoutes: seq<NamespacedName>,
    referenceGrants: seq<NamespacedName>,
    healthCheckPolicies: seq<NamespacedName>,
    routePolicies: seq<NamespacedName>,
    wafPolicies: seq<NamespacedName>,
    frontendTLSPolicies: seq<NamespacedName>,
    backendTLSPolicies: seq<NamespacedName>)

  /** The keys of a map, in increasing order. */
  ghost predicate SortedListing(names: seq<NamespacedName>, keys: set<NamespacedName>) {
    Lists(names, keys) && StrictlySorted(names, NameLess)
  }

  /** The names of the output resources: sorted, but for the reference grants. */
  method Summarize(graph: AGCResourceGraph, gateway: GatewayContext) returns (r: AGCResources)
    ensures r.gateway == gateway.name
    ensures r.applicationLoadBalancer.Some? <==> graph.applicationLoadBalancer.Some?
    ensures r.applicationLoadBalancer.Some? ==>
              r.applicationLoadBalancer.value == graph.applicationLoadBalancer.value.name
    ensures SortedListing(r.httpRoutes, graph.httpRoutes.Keys)
    ensures Lists(r.referenceGrants, graph.referenceGrants.Keys)
    ensures SortedListing(r.healthCheckPolicies, graph.healthCheckPolicies.Keys)
    ensures SortedListing(r.routePolicies, graph.routePolicies.Keys)
    ensures SortedListing(r.wafPolicies, graph.wafPolicies.Keys)
    ensures SortedListing(r.frontendTLSPolicies, graph.frontendTLSPolicies.Keys)
    ensures SortedListing(r.backendTLSPolicies, graph.backendTLSPolicies.Keys)
  {
    hide NameLess;
    hide Lists;
    hide StrictlySorted;
    NameLessIsStrictOrder();
    var httpRoutes := SortedKeys(graph.httpRoutes.Keys, NameLess);
    var referenceGrants := ListKeys(graph.referenceGrants.Keys);
    var healthCheckPolicies := SortedKeys(graph.healthCheckPolicies.Keys, NameLess);
    var routePolicies := SortedKeys(graph.routePolicies.Keys, NameLess);
    var wafPolicies := SortedKeys(graph.wafPolicies.Keys, NameLess);
    var frontendTLSPolicies := SortedKeys(graph.frontendTLSPolicies.Keys, NameLess);
    var backendTLSPolicies := SortedKeys(graph.backendTLSPolicies.Keys, NameLess);
    var alb := None;
    if graph.applicationLoadBalancer.Some? {
      alb := Some(graph.applicationLoadBalancer.value.name);
    }
    r := AGCResources(
      alb, gateway.name, httpRoutes, referenceGrants, healthCheckPolicies, routePolicies, wafPolicies,
      frontendTLSPolicies,
      backendTLSPolicies);
  }

  /** Two reports on the same graph list the same names in the same order. */
  lemma SummaryIsCanonical(a: seq<NamespacedName>, b: seq<NamespacedName>, keys: set<NamespacedName>)
    requires SortedListing(a, keys) && SortedListing(b, keys)
    ensures a == b
  {
    hide NameLess;
    NameLessIsStrictOrder();
    OneSortedListing(a, b, keys, NameLess);
  }

  /** `Ingresses` of the report: one sorted report per ingress, in the order of their names. */
  ghost predicate ReportsAll(reports: seq<IngressReport>, inputs: map<NamespacedName, IngressContext>)
    reads inputs.Values, set k, a | k in inputs && a in inputs[k].annotations.Values :: a
  {
    SortedListing(ReportNames(reports), inputs.Keys) && forall r | r in reports :: ReportsOne(r, inputs)
  }

  /** The report on one of the ingresses. */
  ghost predicate ReportsOne(r: IngressReport, inputs: map<NamespacedName, IngressContext>)
    reads inputs.Values, set k, a | k in inputs && a in inputs[k].annotations.Values :: a
  {
    && r.name in inputs
    && r.result == inputs[r.name].status
    && SortedReport(r, inputs[r.name].httpRoutes, inputs[r.name].Tracked())
  }

  function ReportNames(reports: seq<IngressReport>): (r: seq<NamespacedName>)
    ensures |r| == |reports|
    ensures forall i | 0 <= i < |reports| :: r[i] == reports[i].name
  {
    seq(|reports|, i requires 0 <= i < |reports| => reports[i].name)
  }

  /** The reports in the order of their names, as the comparison by name leaves them. */
  predicate ByName(a: IngressReport, b: IngressReport) {
    NameLess(a.name, b.name)
  }

  lemma {:induction false} InsertByName(reports: seq<IngressReport>, r: IngressReport)
    ensures ReportNames(Insert(reports, r, ByName)) == Insert(ReportNames(reports), r.name, NameLess)
    ensures forall x | x in Insert(reports, r, ByName) :: x == r || x in reports
  {
    hide NameLess;
    if reports != [] && !ByName(r, reports[0]) {
      InsertByName(reports[1..], r);
      assert ReportNames(reports)[1..] == ReportNames(reports[1..]);
    }
  }

  lemma {:induction false} SortByName(reports: seq<IngressReport>)
    ensures ReportNames(Sort(reports, ByName)) == Sort(ReportNames(reports), NameLess)
    ensures forall x | x in Sort(reports, ByName) :: x in reports
  {
    hide ByName;
    if reports != [] {
      SortByName(reports[1..]);
      InsertByName(Sort(reports[1..], ByName), reports[0]);
      assert ReportNames(reports)[1..] == ReportNames(reports[1..]);
    }
  }

  /** `NewReport`: the part on the ingresses. */
  method ReportIngresses(inputs: map<NamespacedName, IngressContext>) returns (reports: seq<IngressReport>)
    requires forall k | k in inputs :: inputs[k].ingress.name == k
    ensures ReportsAll(reports, inputs)
  {
    hide *;
    var listing := ListKeys(inputs.Keys);
    ListedOnce(listing, inputs.Keys);
    reports := [];
    for i := 0 to |listing|
      invariant ReportNames(reports) == listing[..i]
      invariant forall r | r in reports :: ReportsOne(r, inputs)
    {
      var r := ReportIngress(inputs, listing[i]);
      assert ReportNames(reports + [r]) == ReportNames(reports) + [r.name];
      reports := reports + [r];
    }
    assert listing[..|listing|] == listing;
    SortByName(reports);
    reports := Sort(reports, ByName);
    SortedNames(listing, inputs.Keys);
    AllReported(reports, inputs);
  }

  method ReportIngress(inputs: map<NamespacedName, IngressContext>, k: NamespacedName) returns (r: IngressReport)
    requires k in inputs && inputs[k].ingress.name == k
    ensures r.name == k && ReportsOne(r, inputs)
  {
    hide Reports;
    hide SortedReport;
    r := NewIngress(inputs[k]);
    r := SortIngress(r, inputs[k].httpRoutes, inputs[k].Tracked());
  }

  lemma SortedNames(listing: seq<NamespacedName>, keys: set<NamespacedName>)
    requires Lists(listing, keys)
    ensures SortedListing(Sort(listing, NameLess), keys)
  {
    hide NameLess;
    hide Sort;
    NameLessIsStrictOrder();
    SortOfListing(listing, listing, keys, NameLess);
  }

  lemma AllReported(reports: seq<IngressReport>, inputs: map<NamespacedName, IngressContext>)
    requires SortedListing(ReportNames(reports), inputs.Keys) && forall r | r in reports :: ReportsOne(r, inputs)
    ensures ReportsAll(reports, inputs)
  {
  }

  /** The reports on the ingresses, too, come out the same whatever the map orders. */
  lemma ReportsAreCanonical(a: seq<IngressReport>, b: seq<IngressReport>, inputs: map<NamespacedName, IngressContext>)
    requires ReportsAll(a, inputs) && ReportsAll(b, inputs)
    ensures a == b
  {
    hide SortedReport;
    hide SortedListing;
    SummaryIsCanonical(ReportNames(a), ReportNames(b), inputs.Keys);
    assert |a| == |ReportNames(a)| == |ReportNames(b)| == |b|;
    forall i | 0 <= i < |a| ensures a[i] == b[i] {
      assert a[i].name == ReportNames(a)[i] == ReportNames(b)[i] == b[i].name;
      assert ReportsOne(a[i], inputs) && ReportsOne(b[i], inputs);
      var ctx := inputs[a[i].name];
      ReportIsCanonical(a[i], b[i], ctx.httpRoutes, ctx.Tracked());
    }
  }
}
