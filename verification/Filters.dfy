/** The filters of a route: the insert-or-modify step and the handlers built on it. */
module Filters {
  import opened Text
  import opened Annotations
  import opened Resources
  import opened Gateways

  /** What a handler does to one filter. */
  datatype FilterOp =
    | RewritePrefix(value: string)
    | RewriteHostname(value: string)
    | RewriteFullPath(value: string)
    | SetRequestHeader(header: Header)
    | DeleteRequestHeader(name: string)
    | SetResponseHeader(header: Header)
    | DeleteResponseHeader(name: string)

  const NO_URL_REWRITE := URLRewrite(None, None)
  const NO_PATH_MODIFIER := PathModifier(Unset, None, None)
  const NO_HEADERS := HeaderFilter([], [])

  function TypeOf(op: FilterOp): FilterType {
    match op
    case RewritePrefix(_) => URLRewriteType
    case RewriteHostname(_) => URLRewriteType
    case RewriteFullPath(_) => URLRewriteType
    case SetRequestHeader(_) => RequestHeaderType
    case DeleteRequestHeader(_) => RequestHeaderType
    case SetResponseHeader(_) => ResponseHeaderType
    case DeleteResponseHeader(_) => ResponseHeaderType
  }

  /** The `modifyFn` of each handler. */
  function Modify(op: FilterOp, f: Filter): Filter {
    var rewrite := f.urlRewrite.GetOr(NO_URL_REWRITE);
    var path := rewrite.path.GetOr(NO_PATH_MODIFIER);
    var request := f.requestHeaders.GetOr(NO_HEADERS);
    var response := f.responseHeaders.GetOr(NO_HEADERS);
    match op
    case RewritePrefix(v) =>
      f.(urlRewrite := Some(rewrite.(path := Some(path.(prefixMatch := Some(v), modifierType := ReplacePrefixMatch)))))
    case RewriteHostname(v) => f.(urlRewrite := Some(rewrite.(hostname := Some(v))))
    case RewriteFullPath(v) =>
      f.(urlRewrite := Some(rewrite.(path := Some(path.(modifierType := ReplaceFullPath, fullPath := Some(v))))))
    case SetRequestHeader(h) => f.(requestHeaders := Some(request.(setHeaders := request.setHeaders + [h])))
    case DeleteRequestHeader(n) => f.(requestHeaders := Some(request.(remove := request.remove + [n])))
    case SetResponseHeader(h) => f.(responseHeaders := Some(response.(setHeaders := response.setHeaders + [h])))
    case DeleteResponseHeader(n) => f.(responseHeaders := Some(response.(remove := response.remove + [n])))
  }

  function NewFilter(t: FilterType): Filter {
    Filter(t, None, None, None, None)
  }

  /** The index of the first filter of a type, or the number of filters. */
  function IndexOf(filters: seq<Filter>, t: FilterType): (i: nat)
    ensures i <= |filters|
    ensures forall j | 0 <= j < i :: filters[j].filterType != t
    ensures i < |filters| ==> filters[i].filterType == t
  {
    if filters == [] then 0
    else if filters[0].filterType == t then 0
    else 1 + IndexOf(filters[1..], t)
  }

  function Upsert(filters: seq<Filter>, t: FilterType, modifyFn: Filter -> Filter): seq<Filter> {
    var i := IndexOf(filters, t);
    if i < |filters| then filters[i := modifyFn(filters[i])] else filters + [modifyFn(NewFilter(t))]
  }

  function UpsertAll(rules: seq<RouteRule>, t: FilterType, modifyFn: Filter -> Filter): (r: seq<RouteRule>)
    ensures |r| == |rules|
    ensures forall i | 0 <= i < |rules| :: r[i] == rules[i].(filters := Upsert(rules[i].filters, t, modifyFn))
  {
    seq(|rules|, i requires 0 <= i < |rules| => rules[i].(filters := Upsert(rules[i].filters, t, modifyFn)))
  }

  /** `insertOrModifyHTTPRouteFilter`. */
  method InsertOrModifyHTTPRouteFilter(routeCtx: HTTPRouteContext, t: FilterType, modifyFn: Filter -> Filter)
    modifies routeCtx`route
    ensures routeCtx.route == old(routeCtx.route).(rules := UpsertAll(old(routeCtx.route.rules), t, modifyFn))
  {
    ghost var was := routeCtx.route;
    var rules := routeCtx.route.rules;
    for ruleIdx := 0 to |rules|
      invariant |rules| == |was.rules|
      invariant forall i | 0 <= i < ruleIdx :: rules[i] == UpsertAll(was.rules, t, modifyFn)[i]
      invariant forall i | ruleIdx <= i < |rules| :: rules[i] == was.rules[i]
    {
      var found := false;
      var rule := rules[ruleIdx];
      for j := 0 to |rule.filters|
        invariant !found && forall k | 0 <= k < j :: rule.filters[k].filterType != t
      {
        if rule.filters[j].filterType == t {
          assert IndexOf(rule.filters, t) == j;
          rules := rules[ruleIdx := rule.(filters := rule.filters[j := modifyFn(rule.filters[j])])];
          found := true;
          break;
        }
      }
      if !found {
        assert IndexOf(rule.filters, t) == |rule.filters|;
        rules := rules[ruleIdx := rule.(filters := rule.filters + [modifyFn(NewFilter(t))])];
      }
    }
    assert rules == UpsertAll(was.rules, t, modifyFn);
    routeCtx.route := routeCtx.route.(rules := rules);
  }

  function ApplyOp(rules: seq<RouteRule>, op: FilterOp): seq<RouteRule> {
    UpsertAll(rules, TypeOf(op), f => Modify(op, f))
  }

  /** `handleHTTPFilter`. */
  method HandleHTTPFilter(routeCtx: HTTPRouteContext, annotationCtx: IngressAnnotationContext, op: FilterOp)
    modifies routeCtx`route, annotationCtx`status
    ensures routeCtx.route == old(routeCtx.route).(rules := ApplyOp(old(routeCtx.route.rules), op))
    ensures annotationCtx.View() == old(annotationCtx.View()).SetStatus(Completed)
  {
    InsertOrModifyHTTPRouteFilter(routeCtx, TypeOf(op), f => Modify(op, f));
    annotationCtx.SetStatus(Completed);
  }

  // ---------- At most one filter of each type ----------

  /** The payload sits in the field of the filter's own type, and nowhere else. */
  predicate PayloadMatches(f: Filter) {
    && (f.urlRewrite.Some? <==> f.filterType.URLRewriteType?)
    && (f.requestHeaders.Some? <==> f.filterType.RequestHeaderType?)
    && (f.responseHeaders.Some? <==> f.filterType.ResponseHeaderType?)
    && (f.requestRedirect.Some? <==> f.filterType.RequestRedirectType?)
  }

  ghost predicate WellFormed(filters: seq<Filter>) {
    && (forall f | f in filters :: PayloadMatches(f))
    && (forall i, j | 0 <= i < j < |filters| :: filters[i].filterType != filters[j].filterType)
  }

  /** One step keeps the filters well formed, modifies the filter of its type once, and leaves the others in place. */
  lemma UpsertKeepsWellFormed(filters: seq<Filter>, op: FilterOp)
    requires WellFormed(filters)
    ensures var r := Upsert(filters, TypeOf(op), f => Modify(op, f));
            && WellFormed(r)
            && |filters| <= |r| <= |filters| + 1
            && (forall i | 0 <= i < |filters| && filters[i].filterType != TypeOf(op) :: r[i] == filters[i])
            && (forall i | 0 <= i < |filters| && filters[i].filterType == TypeOf(op) ::
                  |r| == |filters| && r[i] == Modify(op, filters[i]))
            && ((forall f | f in filters :: f.filterType != TypeOf(op)) ==>
                  r == filters + [Modify(op, NewFilter(TypeOf(op)))])
  {
    hide Modify;
    hide PayloadMatches;
    var t := TypeOf(op);
    var i := IndexOf(filters, t);
    if i < |filters| {
      assert filters[i] in filters;
      ModifyKeepsPayload(op, filters[i]);
    } else {
      ModifyMakesPayload(op);
    }
  }

  lemma ModifyKeepsPayload(op: FilterOp, f: Filter)
    requires f.filterType == TypeOf(op) && PayloadMatches(f)
    ensures Modify(op, f).filterType == TypeOf(op) && PayloadMatches(Modify(op, f))
  {
  }

  lemma ModifyMakesPayload(op: FilterOp)
    ensures Modify(op, NewFilter(TypeOf(op))).filterType == TypeOf(op)
    ensures PayloadMatches(Modify(op, NewFilter(TypeOf(op))))
  {
  }

  function ApplyOps(rules: seq<RouteRule>, ops: seq<FilterOp>): seq<RouteRule> {
    if ops == [] then rules else ApplyOp(ApplyOps(rules, ops[..|ops| - 1]), ops[|ops| - 1])
  }

  /** Over any sequence of filter handlers, every rule keeps at most one filter of each type with a matching payload. */
  lemma {:induction false} FilterInvariant(rules: seq<RouteRule>, ops: seq<FilterOp>)
    requires forall r | r in rules :: WellFormed(r.filters)
    ensures forall r | r in ApplyOps(rules, ops) :: WellFormed(r.filters)
    ensures |ApplyOps(rules, ops)| == |rules|
    ensures forall i | 0 <= i < |rules| ::
              ApplyOps(rules, ops)[i].matches == rules[i].matches
              && ApplyOps(rules, ops)[i].backendRefs == rules[i].backendRefs
  {
    hide WellFormed;
    hide Upsert;
    if ops != [] {
      var before, op := ApplyOps(rules, ops[..|ops| - 1]), ops[|ops| - 1];
      FilterInvariant(rules, ops[..|ops| - 1]);
      forall r | r in ApplyOps(rules, ops) ensures WellFormed(r.filters) {
        var i :| 0 <= i < |before| && ApplyOps(rules, ops)[i] == r;
        assert before[i] in before;
        UpsertKeepsWellFormed(before[i].filters, op);
      }
    }
  }

  // ---------- Handlers in either order ----------

  /** Go may visit the hostname and prefix annotations in either order: the filters come out the same, in value and
      place. */
  lemma HostnameAndPrefixCommute(rules: seq<RouteRule>, hostname: string, prefix: string)
    ensures ApplyOp(ApplyOp(rules, RewriteHostname(hostname)), RewritePrefix(prefix))
         == ApplyOp(ApplyOp(rules, RewritePrefix(prefix)), RewriteHostname(hostname))
  {
    hide Upsert;
    var a, b := ApplyOp(ApplyOp(rules, RewriteHostname(hostname)), RewritePrefix(prefix)),
                ApplyOp(ApplyOp(rules, RewritePrefix(prefix)), RewriteHostname(hostname));
    forall i | 0 <= i < |rules| ensures a[i] == b[i] {
      CommuteOnFilters(rules[i].filters, hostname, prefix);
    }
  }

  /** The first filter of a type, or a new one. */
  function FirstOrNew(filters: seq<Filter>, t: FilterType): Filter {
    var i := IndexOf(filters, t);
    if i < |filters| then filters[i] else NewFilter(t)
  }

  /** The filters with another in the place of the first one of its type, or at the end. */
  function Placed(filters: seq<Filter>, f: Filter, t: FilterType): seq<Filter> {
    var i := IndexOf(filters, t);
    if i < |filters| then filters[i := f] else filters + [f]
  }

  lemma PlacedIsFound(filters: seq<Filter>, f: Filter, t: FilterType)
    requires f.filterType == t
    ensures IndexOf(Placed(filters, f, t), t) == IndexOf(filters, t) < |Placed(filters, f, t)|
    ensures FirstOrNew(Placed(filters, f, t), t) == f
    ensures forall g :: Placed(Placed(filters, f, t), g, t) == Placed(filters, g, t)
  {
    var i, placed := IndexOf(filters, t), Placed(filters, f, t);
    assert placed[i] == f && forall j | 0 <= j < i :: placed[j] == filters[j];
    assert IndexOf(placed, t) == i;
  }

  lemma UpsertPlaces(filters: seq<Filter>, op: FilterOp)
    ensures Upsert(filters, TypeOf(op), f => Modify(op, f))
         == Placed(filters, Modify(op, FirstOrNew(filters, TypeOf(op))), TypeOf(op))
    ensures Modify(op, FirstOrNew(filters, TypeOf(op))).filterType == TypeOf(op)
  {
  }

  /** The second of two steps on one type works on the filter the first one left. */
  lemma UpsertTwice(filters: seq<Filter>, a: FilterOp, b: FilterOp)
    requires TypeOf(a) == TypeOf(b)
    ensures Upsert(Upsert(filters, TypeOf(a), f => Modify(a, f)), TypeOf(b), f => Modify(b, f))
         == Placed(filters, Modify(b, Modify(a, FirstOrNew(filters, TypeOf(a)))), TypeOf(a))
  {
    hide Modify;
    hide Upsert;
    hide Placed;
    hide FirstOrNew;
    UpsertPlaces(filters, a);
    UpsertPlaces(Placed(filters, Modify(a, FirstOrNew(filters, TypeOf(a))), TypeOf(a)), b);
    PlacedIsFound(filters, Modify(a, FirstOrNew(filters, TypeOf(a))), TypeOf(a));
  }

  lemma CommuteOnFilters(filters: seq<Filter>, hostname: string, prefix: string)
    ensures Upsert(Upsert(filters, URLRewriteType, f => Modify(RewriteHostname(hostname), f)), URLRewriteType,
                   f => Modify(RewritePrefix(prefix), f))
         == Upsert(Upsert(filters, URLRewriteType, f => Modify(RewritePrefix(prefix), f)), URLRewriteType,
                   f => Modify(RewriteHostname(hostname), f))
  {
    hide Upsert;
    hide Placed;
    UpsertTwice(filters, RewriteHostname(hostname), RewritePrefix(prefix));
    UpsertTwice(filters, RewritePrefix(prefix), RewriteHostname(hostname));
  }

  /** The rewrite both make: the hostname and the prefix are set, and whatever full path there was is kept. */
  lemma HostnameAndPrefixBoth(filters: seq<Filter>, hostname: string, prefix: string)
    ensures var r := Upsert(Upsert(filters, URLRewriteType, f => Modify(RewriteHostname(hostname), f)), URLRewriteType,
                            f => Modify(RewritePrefix(prefix), f));
            var rewrite := FirstOrNew(r, URLRewriteType).urlRewrite;
            var before := FirstOrNew(filters, URLRewriteType).urlRewrite;
            && r == Placed(filters, FirstOrNew(r, URLRewriteType), URLRewriteType)
            && rewrite.Some? && rewrite.value.hostname == Some(hostname) && rewrite.value.path.Some?
            && rewrite.value.path.value.modifierType == ReplacePrefixMatch
            && rewrite.value.path.value.prefixMatch == Some(prefix)
            && (before.Some? && before.value.path.Some? ==>
                  rewrite.value.path.value.fullPath == before.value.path.value.fullPath)
  {
    hide Upsert;
    hide Placed;
    hide FirstOrNew;
    var h, p := RewriteHostname(hostname), RewritePrefix(prefix);
    UpsertTwice(filters, h, p);
    FirstHasType(filters, URLRewriteType);
    PlacedIsFound(filters, Modify(p, Modify(h, FirstOrNew(filters, URLRewriteType))), URLRewriteType);
  }

  lemma FirstHasType(filters: seq<Filter>, t: FilterType)
    ensures FirstOrNew(filters, t).filterType == t
  {
  }

  /** A prefix and a full-path rewrite do not commute on any rule: the later one decides which of the two is in
      force. */
  lemma PrefixAndFullPathDiffer(rules: seq<RouteRule>, prefix: string, path: string)
    ensures ApplyOp(ApplyOp(rules, RewritePrefix(prefix)), RewriteFullPath(path))
         == ApplyOp(ApplyOp(rules, RewriteFullPath(path)), RewritePrefix(prefix))
       <==> rules == []
  {
    hide Upsert;
    if rules != [] {
      DifferOnFilters(rules[0].filters, prefix, path);
      assert ApplyOp(ApplyOp(rules, RewritePrefix(prefix)), RewriteFullPath(path))[0]
          != ApplyOp(ApplyOp(rules, RewriteFullPath(path)), RewritePrefix(prefix))[0];
    }
  }

  lemma DifferOnFilters(filters: seq<Filter>, prefix: string, path: string)
    ensures Upsert(Upsert(filters, URLRewriteType, f => Modify(RewritePrefix(prefix), f)), URLRewriteType,
                   f => Modify(RewriteFullPath(path), f))
         != Upsert(Upsert(filters, URLRewriteType, f => Modify(RewriteFullPath(path), f)), URLRewriteType,
                   f => Modify(RewritePrefix(prefix), f))
  {
    hide Upsert;
    hide Placed;
    hide FirstOrNew;
    var p, q, first := RewritePrefix(prefix), RewriteFullPath(path), FirstOrNew(filters, URLRewriteType);
    UpsertTwice(filters, p, q);
    UpsertTwice(filters, q, p);
    FirstHasType(filters, URLRewriteType);
    PlacedIsFound(filters, Modify(q, Modify(p, first)), URLRewriteType);
    PlacedIsFound(filters, Modify(p, Modify(q, first)), URLRewriteType);
    assert Modify(q, Modify(p, first)).urlRewrite.value.path.value.modifierType == ReplaceFullPath;
    assert Modify(p, Modify(q, first)).urlRewrite.value.path.value.modifierType == ReplacePrefixMatch;
  }
}
