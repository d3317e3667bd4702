/** Rewrite rule sets: the handler that turns one into filters, and what the filters amount to. */
module RuleSets {
  import opened Text
  import opened Annotations
  import opened Resources
  import opened Gateways
  import opened Filters

  datatype HeaderConfiguration = HeaderConfiguration(actionType: string, headerName: string, headerValue: string)

  datatype UrlConfiguration = UrlConfiguration(modifiedPath: string, reroute: bool)

  datatype RewriteRule = RewriteRule(
    conditions: nat,
    ruleSequence: int,
    requestHeaders: seq<HeaderConfiguration>,
    responseHeaders: seq<HeaderConfiguration>,
    url: Option<UrlConfiguration>)

  /** One effect of a rule set: a filter step, an unsupported action, or a remark on the annotation. */
  datatype Action = Apply(op: FilterOp) | Unsupported | Remark(code: IssueCode)

  function RequestAction(c: HeaderConfiguration): Action {
    if ToLower(c.actionType) == "set" then Apply(SetRequestHeader(Header(c.headerName, c.headerValue)))
    else if ToLower(c.actionType) == "delete" then Apply(DeleteRequestHeader(c.headerName))
    else Unsupported
  }

  function ResponseAction(c: HeaderConfiguration): Action {
    if ToLower(c.actionType) == "set" then Apply(SetResponseHeader(Header(c.headerName, c.headerValue)))
    else if ToLower(c.actionType) == "delete" then Apply(DeleteResponseHeader(c.headerName))
    else Unsupported
  }

  function RequestActions(configs: seq<HeaderConfiguration>): (r: seq<Action>)
    ensures |r| == |configs|
    ensures forall i | 0 <= i < |configs| :: r[i] == RequestAction(configs[i])
  {
    seq(|configs|, i requires 0 <= i < |configs| => RequestAction(configs[i]))
  }

  function ResponseActions(configs: seq<HeaderConfiguration>): (r: seq<Action>)
    ensures |r| == |configs|
    ensures forall i | 0 <= i < |configs| :: r[i] == ResponseAction(configs[i])
  {
    seq(|configs|, i requires 0 <= i < |configs| => ResponseAction(configs[i]))
  }

  function UrlActions(url: Option<UrlConfiguration>): seq<Action> {
    if url.None? then []
    else
      (if url.value.reroute then [Remark(RewriteRuleSetRerouteNotSupported)] else [])
      + (if url.value.modifiedPath != "" then [Apply(RewriteFullPath(url.value.modifiedPath))] else [])
  }

  /** Whether the rules up to `n` do not all have the sequence of the first. */
  predicate SequencesDiffer(rules: seq<RewriteRule>, n: nat)
    requires n <= |rules|
  {
    exists i | 0 <= i < n :: rules[i].ruleSequence != rules[0].ruleSequence
  }

  function RemarkActions(rules: seq<RewriteRule>, n: nat): seq<Action>
    requires n < |rules|
  {
    (if rules[n].conditions > 0 then [Remark(RewriteRuleSetConditionsNotSupported)] else [])
    + (if SequencesDiffer(rules, n + 1) && !SequencesDiffer(rules, n)
       then [Remark(RewriteRuleSetRuleSequenceNotSupported)] else [])
  }

  function RuleActions(rules: seq<RewriteRule>, n: nat): seq<Action>
    requires n < |rules|
  {
    RemarkActions(rules, n) + RequestActions(rules[n].requestHeaders) + ResponseActions(rules[n].responseHeaders)
    + UrlActions(rules[n].url)
  }

  /** The effects of the first `n` rules, in order. */
  function RuleSetActions(rules: seq<RewriteRule>, n: nat): seq<Action>
    requires n <= |rules|
  {
    if n == 0 then [] else RuleSetActions(rules, n - 1) + RuleActions(rules, n - 1)
  }

  datatype FilterRun = FilterRun(rules: seq<RouteRule>, annotation: Annotation, failed: bool)

  function Perform(r: FilterRun, action: Action): FilterRun {
    match action
    case Apply(op) => FilterRun(ApplyOp(r.rules, op), r.annotation.SetStatus(Completed), r.failed)
    case Unsupported => r.(failed := true)
    case Remark(code) => r.(annotation := r.annotation.RegisterIssue(Issue(code, None)))
  }

  function PerformAll(r: FilterRun, actions: seq<Action>): FilterRun {
    if actions == [] then r else Perform(PerformAll(r, actions[..|actions| - 1]), actions[|actions| - 1])
  }

  /** `handleRewriteRuleSetCustomResource`; `ruleSet` is None when the resource is missing from the input. */
  function HandleRuleSet(rules: seq<RouteRule>, a: Annotation, ruleSet: Option<seq<RewriteRule>>): FilterRun {
    match ruleSet
    case None =>
      FilterRun(rules, a.RegisterIssue(Issue(CouldNotFindAppGWRewriteCustomResource, None)), true)
    case Some(rewriteRules) =>
      var r := PerformAll(FilterRun(rules, a, false), RuleSetActions(rewriteRules, |rewriteRules|));
      if !r.failed && r.annotation.status == NotStarted then r.(annotation := r.annotation.SetStatus(Completed)) else r
  }

  lemma PerformAllSnoc(r: FilterRun, actions: seq<Action>, action: Action)
    ensures PerformAll(r, actions + [action]) == Perform(PerformAll(r, actions), action)
  {
    assert (actions + [action])[..|actions|] == actions;
  }

  /** `handleRequestHeaderModifier` and `handleResponseHeaderModifier`: the handling of one action. */
  method PerformHeaderAction(
    routeCtx: HTTPRouteContext, annotationCtx: IngressAnnotationContext, request: bool, config: HeaderConfiguration)
    returns (failed: bool)
    modifies routeCtx`route, annotationCtx`status
    ensures FilterRun(routeCtx.route.rules, annotationCtx.View(), failed)
         == Perform(FilterRun(old(routeCtx.route.rules), old(annotationCtx.View()), false),
                    if request then RequestAction(config) else ResponseAction(config))
    ensures routeCtx.route == old(routeCtx.route).(rules := routeCtx.route.rules)
  {
    hide ApplyOp;
    var actionType := ToLower(config.actionType);
    if actionType == "set" {
      var header := Header(config.headerName, config.headerValue);
      HandleHTTPFilter(routeCtx, annotationCtx,
                       if request then SetRequestHeader(header) else SetResponseHeader(header));
      return false;
    } else if actionType == "delete" {
      HandleHTTPFilter(routeCtx, annotationCtx,
                       if request then DeleteRequestHeader(config.headerName)
                       else DeleteResponseHeader(config.headerName));
      return false;
    }
    failed := true;
  }

  /** The handler in its own form. */
  method HandleRewriteRuleSet(
    routeCtx: HTTPRouteContext, annotationCtx: IngressAnnotationContext, ruleSet: Option<seq<RewriteRule>>)
    returns (failed: bool)
    modifies routeCtx`route, annotationCtx`status, annotationCtx`issues
    ensures FilterRun(routeCtx.route.rules, annotationCtx.View(), failed)
         == HandleRuleSet(old(routeCtx.route.rules), old(annotationCtx.View()), ruleSet)
    ensures routeCtx.route == old(routeCtx.route).(rules := routeCtx.route.rules)
  {
    hide Perform;
    hide PerformAll;
    hide RequestAction;
    hide ResponseAction;
    hide RemarkActions;
    hide UrlActions;
    hide SequencesDiffer;
    if ruleSet.None? {
      annotationCtx.RegisterIssue(Issue(CouldNotFindAppGWRewriteCustomResource, None));
      return true;
    }
    var rules := ruleSet.value;
    ghost var r0 := FilterRun(routeCtx.route.rules, annotationCtx.View(), false);
    NothingPerformed(r0, rules);
    var firstRuleSequence: Option<int> := None;
    var ruleSequenceWarningIssued := false;
    failed := false;
    for n := 0 to |rules|
      invariant firstRuleSequence == if n == 0 then None else Some(rules[0].ruleSequence)
      invariant ruleSequenceWarningIssued == SequencesDiffer(rules, n)
      invariant routeCtx.route == old(routeCtx.route).(rules := routeCtx.route.rules)
      invariant FilterRun(routeCtx.route.rules, annotationCtx.View(), failed)
             == PerformAll(r0, RuleSetActions(rules, n))
    {
      var rule := rules[n];
      ghost var done := RuleSetActions(rules, n);
      firstRuleSequence, ruleSequenceWarningIssued, done := PerformRemarks(
        routeCtx, annotationCtx, rules, n, firstRuleSequence, ruleSequenceWarningIssued, r0, done, failed);
      failed, done := PerformHeaders(routeCtx, annotationCtx, true, rule.requestHeaders, r0, done, failed);
      failed, done := PerformHeaders(routeCtx, annotationCtx, false, rule.responseHeaders, r0, done, failed);
      done := PerformUrl(routeCtx, annotationCtx, rule.url, r0, done, failed);
      assert done == RuleSetActions(rules, n + 1) by {
        assert done == RuleSetActions(rules, n) + RuleActions(rules, n);
      }
    }
    if !failed && annotationCtx.status == NotStarted {
      annotationCtx.SetStatus(Completed);
    }
  }

  lemma NothingPerformed(r: FilterRun, rules: seq<RewriteRule>)
    ensures PerformAll(r, []) == r && !SequencesDiffer(rules, 0)
  {
  }

  /** The condition and sequence remarks of one rule. */
  method PerformRemarks(
    routeCtx: HTTPRouteContext, annotationCtx: IngressAnnotationContext, rules: seq<RewriteRule>, n: nat,
    firstRuleSequence: Option<int>, ruleSequenceWarningIssued: bool,
    ghost r0: FilterRun, ghost done: seq<Action>, ghost failed: bool)
    returns (firstSequence: Option<int>, warningIssued: bool, ghost all: seq<Action>)
    requires n < |rules|
    requires firstRuleSequence == if n == 0 then None else Some(rules[0].ruleSequence)
    requires ruleSequenceWarningIssued == SequencesDiffer(rules, n)
    requires FilterRun(routeCtx.route.rules, annotationCtx.View(), failed) == PerformAll(r0, done)
    modifies annotationCtx`status, annotationCtx`issues
    ensures firstSequence == Some(rules[0].ruleSequence) && warningIssued == SequencesDiffer(rules, n + 1)
    ensures all == done + RemarkActions(rules, n)
    ensures FilterRun(routeCtx.route.rules, annotationCtx.View(), failed) == PerformAll(r0, all)
  {
    var rule := rules[n];
    all, firstSequence, warningIssued := done, firstRuleSequence, ruleSequenceWarningIssued;
    if rule.conditions > 0 {
      annotationCtx.RegisterIssue(Issue(RewriteRuleSetConditionsNotSupported, None));
      PerformAllSnoc(r0, all, Remark(RewriteRuleSetConditionsNotSupported));
      all := all + [Remark(RewriteRuleSetConditionsNotSupported)];
    }
    assert SequencesDiffer(rules, n + 1) <==>
             SequencesDiffer(rules, n) || rules[n].ruleSequence != rules[0].ruleSequence;
    if firstSequence.None? {
      firstSequence := Some(rule.ruleSequence);
    } else if !warningIssued && rule.ruleSequence != firstSequence.value {
      warningIssued := true;
      annotationCtx.RegisterIssue(Issue(RewriteRuleSetRuleSequenceNotSupported, None));
      PerformAllSnoc(r0, all, Remark(RewriteRuleSetRuleSequenceNotSupported));
      all := all + [Remark(RewriteRuleSetRuleSequenceNotSupported)];
    }
  }

  /** The header loop over one list of configurations. */
  method PerformHeaders(
    routeCtx: HTTPRouteContext, annotationCtx: IngressAnnotationContext, request: bool,
    configs: seq<HeaderConfiguration>,
    ghost r0: FilterRun, ghost done: seq<Action>, failedBefore: bool) returns (failed: bool, ghost all: seq<Action>)
    requires FilterRun(routeCtx.route.rules, annotationCtx.View(), failedBefore) == PerformAll(r0, done)
    modifies routeCtx`route, annotationCtx`status
    ensures all == done + if request then RequestActions(configs) else ResponseActions(configs)
    ensures FilterRun(routeCtx.route.rules, annotationCtx.View(), failed) == PerformAll(r0, all)
    ensures routeCtx.route == old(routeCtx.route).(rules := routeCtx.route.rules)
  {
    hide RequestAction;
    hide ResponseAction;
    hide PerformAll;
    failed := failedBefore;
    ghost var actions := if request then RequestActions(configs) else ResponseActions(configs);
    assert done + actions[..0] == done;
    for i := 0 to |configs|
      invariant routeCtx.route == old(routeCtx.route).(rules := routeCtx.route.rules)
      invariant FilterRun(routeCtx.route.rules, annotationCtx.View(), failed) == PerformAll(r0, done + actions[..i])
    {
      PerformAllSnoc(r0, done + actions[..i], actions[i]);
      assert done + actions[..i + 1] == (done + actions[..i]) + [actions[i]];
      var actionFailed := PerformHeaderAction(routeCtx, annotationCtx, request, configs[i]);
      failed := failed || actionFailed;
    }
    assert actions[..|configs|] == actions;
    all := done + actions;
  }

  /** The URL configuration of one rule. */
  method PerformUrl(
    routeCtx: HTTPRouteContext, annotationCtx: IngressAnnotationContext, url: Option<UrlConfiguration>,
    ghost r0: FilterRun, ghost done: seq<Action>, ghost failed: bool) returns (ghost all: seq<Action>)
    requires FilterRun(routeCtx.route.rules, annotationCtx.View(), failed) == PerformAll(r0, done)
    modifies routeCtx`route, annotationCtx`status, annotationCtx`issues
    ensures all == done + UrlActions(url)
    ensures FilterRun(routeCtx.route.rules, annotationCtx.View(), failed) == PerformAll(r0, all)
    ensures routeCtx.route == old(routeCtx.route).(rules := routeCtx.route.rules)
  {
    hide ApplyOp;
    all := done;
    if url.Some? {
      if url.value.reroute {
        annotationCtx.RegisterIssue(Issue(RewriteRuleSetRerouteNotSupported, None));
        PerformAllSnoc(r0, all, Remark(RewriteRuleSetRerouteNotSupported));
        all := all + [Remark(RewriteRuleSetRerouteNotSupported)];
      }
      if url.value.modifiedPath != "" {
        HandleHTTPFilter(routeCtx, annotationCtx, RewriteFullPath(url.value.modifiedPath));
        PerformAllSnoc(r0, all, Apply(RewriteFullPath(url.value.modifiedPath)));
        all := all + [Apply(RewriteFullPath(url.value.modifiedPath))];
      }
    }
  }

  // ---------- What a rule set amounts to ----------

  /** What the filters of a rule do, whatever their order. */
  datatype Effects = Effects(request: Option<HeaderFilter>, response: Option<HeaderFilter>, url: Option<URLRewrite>)

  const NO_EFFECTS := Effects(None, None, None)

  predicate Present(filters: seq<Filter>, t: FilterType) {
    IndexOf(filters, t) < |filters|
  }

  function EffectsOf(filters: seq<Filter>): Effects {
    Effects(
      if Present(filters, RequestHeaderType) then FirstOrNew(filters, RequestHeaderType).requestHeaders else None,
      if Present(filters, ResponseHeaderType) then FirstOrNew(filters, ResponseHeaderType).responseHeaders else None,
      if Present(filters, URLRewriteType) then FirstOrNew(filters, URLRewriteType).urlRewrite else None)
  }

  function Set(h: Option<HeaderFilter>, header: Header): Option<HeaderFilter> {
    var f := h.GetOr(NO_HEADERS);
    Some(f.(setHeaders := f.setHeaders + [header]))
  }

  function Delete(h: Option<HeaderFilter>, name: string): Option<HeaderFilter> {
    var f := h.GetOr(NO_HEADERS);
    Some(f.(remove := f.remove + [name]))
  }

  /** A rewrite with a new full path, in force; what else it says stays. */
  function WithFullPath(url: Option<URLRewrite>, path: string): URLRewrite {
    var rewrite := url.GetOr(NO_URL_REWRITE);
    var prefix := if rewrite.path.Some? then rewrite.path.value.prefixMatch else None;
    URLRewrite(rewrite.hostname, Some(PathModifier(ReplaceFullPath, Some(path), prefix)))
  }

  /** A rewrite with a new prefix, in force; what else it says stays. */
  function WithPrefix(url: Option<URLRewrite>, prefix: string): URLRewrite {
    var rewrite := url.GetOr(NO_URL_REWRITE);
    var path := if rewrite.path.Some? then rewrite.path.value.fullPath else None;
    URLRewrite(rewrite.hostname, Some(PathModifier(ReplacePrefixMatch, path, Some(prefix))))
  }

  /** One filter step on effects. */
  function AfterOp(e: Effects, op: FilterOp): Effects {
    match op
    case SetRequestHeader(h) => e.(request := Set(e.request, h))
    case DeleteRequestHeader(n) => e.(request := Delete(e.request, n))
    case SetResponseHeader(h) => e.(response := Set(e.response, h))
    case DeleteResponseHeader(n) => e.(response := Delete(e.response, n))
    case RewriteFullPath(p) => e.(url := Some(WithFullPath(e.url, p)))
    case RewritePrefix(p) => e.(url := Some(WithPrefix(e.url, p)))
    case RewriteHostname(h) => e.(url := Some(e.url.GetOr(NO_URL_REWRITE).(hostname := Some(h))))
  }

  function After(e: Effects, action: Action): Effects {
    if action.Apply? then AfterOp(e, action.op) else e
  }

  function AfterAll(e: Effects, actions: seq<Action>): Effects {
    if actions == [] then e else After(AfterAll(e, actions[..|actions| - 1]), actions[|actions| - 1])
  }

  lemma IndexAfterUpdate(filters: seq<Filter>, i: nat, f: Filter, t: FilterType)
    requires i < |filters| && f.filterType == filters[i].filterType
    ensures IndexOf(filters[i := f], t) == IndexOf(filters, t)
  {
    var g := filters[i := f];
    assert forall j | 0 <= j < |filters| :: g[j].filterType == filters[j].filterType;
  }

  lemma IndexAfterAppend(filters: seq<Filter>, f: Filter, t: FilterType)
    ensures IndexOf(filters + [f], t)
         == if IndexOf(filters, t) < |filters| then IndexOf(filters, t)
            else if f.filterType == t then |filters| else |filters| + 1
  {
    var a, b := IndexOf(filters + [f], t), IndexOf(filters, t);
    assert forall j | 0 <= j < |filters| :: (filters + [f])[j] == filters[j];
    assert (filters + [f])[|filters|] == f;
  }

  /** The first filter of every type after one step. */
  lemma UpsertLooksUp(filters: seq<Filter>, op: FilterOp, t: FilterType)
    ensures var r := Upsert(filters, TypeOf(op), f => Modify(op, f));
            var i, j := IndexOf(filters, t), IndexOf(r, t);
            if t == TypeOf(op)
            then j < |r| && r[j] == Modify(op, if i < |filters| then filters[i] else NewFilter(t))
            else (j < |r| <==> i < |filters|) && (j < |r| ==> r[j] == filters[i])
  {
    var k := IndexOf(filters, TypeOf(op));
    if k < |filters| {
      assert Modify(op, filters[k]).filterType == filters[k].filterType;
      IndexAfterUpdate(filters, k, Modify(op, filters[k]), t);
    } else {
      assert Modify(op, NewFilter(TypeOf(op))).filterType == TypeOf(op);
      IndexAfterAppend(filters, Modify(op, NewFilter(TypeOf(op))), t);
    }
  }

  /** The filters of one rule after one step. */
  function Stepped(filters: seq<Filter>, op: FilterOp): seq<Filter> {
    Upsert(filters, TypeOf(op), f => Modify(op, f))
  }

  /** The step on the effects is the effect of the step. */
  lemma StepOnEffects(filters: seq<Filter>, op: FilterOp)
    ensures EffectsOf(Stepped(filters, op)) == AfterOp(EffectsOf(filters), op)
  {
    hide Upsert;
    UpsertLooksUp(filters, op, RequestHeaderType);
    UpsertLooksUp(filters, op, ResponseHeaderType);
    UpsertLooksUp(filters, op, URLRewriteType);
  }

  /** The filters of one rule after some actions. */
  function FiltersAfter(filters: seq<Filter>, actions: seq<Action>): seq<Filter> {
    if actions == [] then filters
    else
      var before, last := FiltersAfter(filters, actions[..|actions| - 1]), actions[|actions| - 1];
      if last.Apply? then Stepped(before, last.op) else before
  }

  /** Each rule's filters go their own way; the call fails if an action is unsupported. */
  lemma {:induction false} PerformedFilters(r: FilterRun, actions: seq<Action>)
    ensures |PerformAll(r, actions).rules| == |r.rules|
    ensures forall i | 0 <= i < |r.rules| ::
              PerformAll(r, actions).rules[i] == r.rules[i].(filters := FiltersAfter(r.rules[i].filters, actions))
    ensures PerformAll(r, actions).failed == (r.failed || Unsupported in actions)
  {
    hide Upsert;
    if actions != [] {
      var init, last := actions[..|actions| - 1], actions[|actions| - 1];
      assert actions == init + [last];
      PerformedFilters(r, init);
    }
  }

  lemma {:induction false} EffectsAfter(filters: seq<Filter>, actions: seq<Action>)
    ensures EffectsOf(FiltersAfter(filters, actions)) == AfterAll(EffectsOf(filters), actions)
  {
    hide EffectsOf;
    hide Stepped;
    if actions != [] {
      var init, last := actions[..|actions| - 1], actions[|actions| - 1];
      EffectsAfter(filters, init);
      if last.Apply? {
        StepOnEffects(FiltersAfter(filters, init), last.op);
      }
    }
  }

  // The declarative reading of a rule set

  /** The "set" headers of a list of configurations, in order. */
  function SetHeaders(configs: seq<HeaderConfiguration>): seq<Header> {
    if configs == [] then []
    else
      var last := configs[|configs| - 1];
      SetHeaders(configs[..|configs| - 1])
      + if ToLower(last.actionType) == "set" then [Header(last.headerName, last.headerValue)] else []
  }

  /** The "delete" header names of a list of configurations, in order. */
  function DeletedHeaders(configs: seq<HeaderConfiguration>): seq<string> {
    if configs == [] then []
    else
      var last := configs[|configs| - 1];
      DeletedHeaders(configs[..|configs| - 1]) + if ToLower(last.actionType) == "delete" then [last.headerName] else []
  }

  /** All request, or all response, configurations of the first `n` rules. */
  function AllConfigs(rules: seq<RewriteRule>, n: nat, request: bool): seq<HeaderConfiguration>
    requires n <= |rules|
  {
    if n == 0 then []
    else
      AllConfigs(rules, n - 1, request)
      + if request then rules[n - 1].requestHeaders else rules[n - 1].responseHeaders
  }

  /** The last non-empty modified path. */
  function LastPath(rules: seq<RewriteRule>, n: nat): Option<string>
    requires n <= |rules|
  {
    if n == 0 then None
    else
      var url := rules[n - 1].url;
      if url.Some? && url.value.modifiedPath != "" then Some(url.value.modifiedPath) else LastPath(rules, n - 1)
  }

  predicate IsUnsupported(c: HeaderConfiguration) {
    ToLower(c.actionType) != "set" && ToLower(c.actionType) != "delete"
  }

  /** A header modifier with the headers of a list of configurations added: as it was when nothing is set or deleted. */
  function AddHeaders(h: Option<HeaderFilter>, configs: seq<HeaderConfiguration>): Option<HeaderFilter> {
    if SetHeaders(configs) == [] && DeletedHeaders(configs) == [] then h
    else
      var f := h.GetOr(NO_HEADERS);
      Some(HeaderFilter(f.setHeaders + SetHeaders(configs), f.remove + DeletedHeaders(configs)))
  }

  /** What the first `n` rules make of the effects there were. */
  function RuleSetEffects(e: Effects, rules: seq<RewriteRule>, n: nat): Effects
    requires n <= |rules|
  {
    Effects(
      AddHeaders(e.request, AllConfigs(rules, n, true)),
      AddHeaders(e.response, AllConfigs(rules, n, false)),
      match LastPath(rules, n) case None => e.url case Some(p) => Some(WithFullPath(e.url, p)))
  }

  lemma {:induction false} AfterConcat(e: Effects, a: seq<Action>, b: seq<Action>)
    ensures AfterAll(e, a + b) == AfterAll(AfterAll(e, a), b)
  {
    if b == [] {
      assert a + b == a;
    } else {
      AfterConcat(e, a, b[..|b| - 1]);
      assert (a + b)[..|a + b| - 1] == a + b[..|b| - 1];
    }
  }

  lemma AddHeadersSnoc(h: Option<HeaderFilter>, configs: seq<HeaderConfiguration>, c: HeaderConfiguration)
    ensures AddHeaders(h, configs + [c]) ==
            if ToLower(c.actionType) == "set" then Set(AddHeaders(h, configs), Header(c.headerName, c.headerValue))
            else if ToLower(c.actionType) == "delete" then Delete(AddHeaders(h, configs), c.headerName)
            else AddHeaders(h, configs)
  {
    hide ToLower;
    assert (configs + [c])[..|configs|] == configs;
    var sets, deletes, f := SetHeaders(configs), DeletedHeaders(configs), h.GetOr(NO_HEADERS);
    var header := Header(c.headerName, c.headerValue);
    assert "set" != "delete";
    assert sets + [] == sets && deletes + [] == deletes && f.setHeaders + [] == f.setHeaders
           && f.remove + [] == f.remove;
    assert [] + [header] == [header] && [] + [c.headerName] == [c.headerName];
    assert f.setHeaders + (sets + [header]) == f.setHeaders + sets + [header];
    assert f.remove + (deletes + [c.headerName]) == f.remove + deletes + [c.headerName];
  }

  lemma {:induction false} HeadersCollected(
    e: Effects, h: Option<HeaderFilter>, before: seq<HeaderConfiguration>, configs: seq<HeaderConfiguration>,
    request: bool)
    requires (if request then e.request else e.response) == AddHeaders(h, before)
    ensures AfterAll(e, if request then RequestActions(configs) else ResponseActions(configs)) ==
            if request then e.(request := AddHeaders(h, before + configs))
            else e.(response := AddHeaders(h, before + configs))
  {
    hide AddHeaders;
    hide ToLower;
    var actions := if request then RequestActions(configs) else ResponseActions(configs);
    if configs == [] {
      assert before + configs == before;
    } else {
      var init, last := configs[..|configs| - 1], configs[|configs| - 1];
      HeadersCollected(e, h, before, init, request);
      assert actions[..|actions| - 1] == if request then RequestActions(init) else ResponseActions(init);
      AddHeadersSnoc(h, before + init, last);
      assert before + configs == (before + init) + [last];
    }
  }

  lemma AfterOne(e: Effects, action: Action)
    ensures AfterAll(e, [action]) == After(e, action) && AfterAll(e, []) == e
  {
    assert [action][..0] == [];
  }

  lemma RemarksChangeNothing(e: Effects, rules: seq<RewriteRule>, n: nat)
    requires n < |rules|
    ensures AfterAll(e, RemarkActions(rules, n)) == e
  {
    hide SequencesDiffer;
    hide AfterAll;
    var c, q := Remark(RewriteRuleSetConditionsNotSupported), Remark(RewriteRuleSetRuleSequenceNotSupported);
    var conditions := if rules[n].conditions > 0 then [c] else [];
    var sequence := if SequencesDiffer(rules, n + 1) && !SequencesDiffer(rules, n) then [q] else [];
    AfterOne(e, c);
    AfterOne(e, q);
    AfterConcat(e, conditions, sequence);
    assert RemarkActions(rules, n) == conditions + sequence;
  }

  lemma UrlOnEffects(e: Effects, url: Option<UrlConfiguration>)
    ensures AfterAll(e, UrlActions(url)) ==
            if url.Some? && url.value.modifiedPath != ""
            then e.(url := Some(WithFullPath(e.url, url.value.modifiedPath))) else e
  {
    hide AfterAll;
    hide WithFullPath;
    if url.None? {
      AfterOne(e, Unsupported);
    } else {
      var r, p := Remark(RewriteRuleSetRerouteNotSupported), Apply(RewriteFullPath(url.value.modifiedPath));
      var reroute := if url.value.reroute then [r] else [];
      var path := if url.value.modifiedPath != "" then [p] else [];
      AfterOne(e, r);
      AfterOne(e, p);
      AfterConcat(e, reroute, path);
      assert UrlActions(url) == reroute + path;
    }
  }

  lemma {:induction false} ActionsCollect(e: Effects, rules: seq<RewriteRule>, n: nat)
    requires n <= |rules|
    ensures AfterAll(e, RuleSetActions(rules, n)) == RuleSetEffects(e, rules, n)
  {
    hide AddHeaders;
    hide After;
    hide RemarkActions;
    hide UrlActions;
    hide RuleActions;
    if n == 0 {
      NoConfigs(e);
    } else {
      ActionsCollect(e, rules, n - 1);
      AfterConcat(e, RuleSetActions(rules, n - 1), RuleActions(rules, n - 1));
      RuleCollects(e, rules, n - 1);
    }
  }

  /** The effects of one more rule. */
  lemma RuleCollects(e: Effects, rules: seq<RewriteRule>, n: nat)
    requires n < |rules|
    ensures AfterAll(RuleSetEffects(e, rules, n), RuleActions(rules, n)) == RuleSetEffects(e, rules, n + 1)
  {
    hide AddHeaders;
    hide After;
    hide AfterAll;
    hide RemarkActions;
    hide UrlActions;
    var before, rule := RuleSetEffects(e, rules, n), rules[n];
    var remarks, requests, responses, url :=
      RemarkActions(rules, n), RequestActions(rule.requestHeaders), ResponseActions(rule.responseHeaders),
      UrlActions(rule.url);
    AfterConcat(before, remarks + requests + responses, url);
    AfterConcat(before, remarks + requests, responses);
    AfterConcat(before, remarks, requests);
    RemarksChangeNothing(before, rules, n);
    HeadersCollected(before, e.request, AllConfigs(rules, n, true), rule.requestHeaders, true);
    var requested := AfterAll(before, requests);
    HeadersCollected(requested, e.response, AllConfigs(rules, n, false), rule.responseHeaders, false);
    UrlOnEffects(AfterAll(requested, responses), rule.url);
  }

  lemma NoConfigs(e: Effects)
    ensures AddHeaders(e.request, []) == e.request && AddHeaders(e.response, []) == e.response
  {
  }

  lemma MembersOfStep(rules: seq<RewriteRule>, n: nat, a: Action)
    requires 0 < n <= |rules|
    ensures a in RuleSetActions(rules, n) <==>
            || a in RuleSetActions(rules, n - 1)
            || a in RemarkActions(rules, n - 1)
            || a in RequestActions(rules[n - 1].requestHeaders)
            || a in ResponseActions(rules[n - 1].responseHeaders)
            || a in UrlActions(rules[n - 1].url)
  {
    hide RemarkActions;
    hide UrlActions;
    hide RequestAction;
    hide ResponseAction;
  }

  lemma RemarksAreSupported(rules: seq<RewriteRule>, n: nat)
    requires n < |rules|
    ensures Unsupported !in RemarkActions(rules, n) && Unsupported !in UrlActions(rules[n].url)
  {
    hide SequencesDiffer;
  }

  lemma NoActionsYet(rules: seq<RewriteRule>)
    ensures RuleSetActions(rules, 0) == []
  {
  }

  predicate HasUnsupported(configs: seq<HeaderConfiguration>) {
    exists c | c in configs :: IsUnsupported(c)
  }

  lemma UnsupportedActions(configs: seq<HeaderConfiguration>)
    ensures Unsupported in RequestActions(configs) <==> HasUnsupported(configs)
    ensures Unsupported in ResponseActions(configs) <==> HasUnsupported(configs)
  {
    hide ToLower;
    forall c | c in configs && IsUnsupported(c)
      ensures Unsupported in RequestActions(configs) && Unsupported in ResponseActions(configs)
    {
      var i :| 0 <= i < |configs| && configs[i] == c;
      assert RequestActions(configs)[i] == Unsupported == ResponseActions(configs)[i];
    }
    if Unsupported in RequestActions(configs) {
      var i :| 0 <= i < |configs| && RequestActions(configs)[i] == Unsupported;
      assert configs[i] in configs && IsUnsupported(configs[i]);
    }
    if Unsupported in ResponseActions(configs) {
      var i :| 0 <= i < |configs| && ResponseActions(configs)[i] == Unsupported;
      assert configs[i] in configs && IsUnsupported(configs[i]);
    }
  }

  /** Some header action of the rule set is neither "set" nor "delete". */
  predicate AnyUnsupported(rules: seq<RewriteRule>, n: nat)
    requires n <= |rules|
  {
    exists i | 0 <= i < n :: HasUnsupported(rules[i].requestHeaders) || HasUnsupported(rules[i].responseHeaders)
  }

  lemma {:induction false} UnsupportedInRuleSet(rules: seq<RewriteRule>, n: nat)
    requires n <= |rules|
    ensures Unsupported in RuleSetActions(rules, n) <==> AnyUnsupported(rules, n)
  {
    hide RuleSetActions;
    hide RemarkActions;
    hide RequestActions;
    hide ResponseActions;
    hide UrlActions;
    hide HasUnsupported;
    if n == 0 {
      NoActionsYet(rules);
    } else {
      UnsupportedInRuleSet(rules, n - 1);
      MembersOfStep(rules, n, Unsupported);
      UnsupportedActions(rules[n - 1].requestHeaders);
      UnsupportedActions(rules[n - 1].responseHeaders);
      RemarksAreSupported(rules, n - 1);
    }
  }

  /** One call: to what every rule's filters did, the flat list of set headers, the flat list of deleted ones and the
      last non-empty path are added; the call fails exactly when some header action is unsupported. */
  lemma RuleSetRefinement(rules: seq<RouteRule>, a: Annotation, ruleSet: seq<RewriteRule>)
    ensures var r := HandleRuleSet(rules, a, Some(ruleSet));
            && |r.rules| == |rules|
            && (forall i | 0 <= i < |rules| ::
                  EffectsOf(r.rules[i].filters) == RuleSetEffects(EffectsOf(rules[i].filters), ruleSet, |ruleSet|))
            && (r.failed <==> AnyUnsupported(ruleSet, |ruleSet|))
  {
    hide EffectsOf;
    hide RuleSetEffects;
    hide AnyUnsupported;
    hide PerformAll;
    hide FiltersAfter;
    hide RuleSetActions;
    var start, actions := FilterRun(rules, a, false), RuleSetActions(ruleSet, |ruleSet|);
    UnsupportedInRuleSet(ruleSet, |ruleSet|);
    PerformedFilters(start, actions);
    forall i | 0 <= i < |rules|
      ensures EffectsOf(FiltersAfter(rules[i].filters, actions))
           == RuleSetEffects(EffectsOf(rules[i].filters), ruleSet, |ruleSet|)
    {
      EffectsAfter(rules[i].filters, actions);
      ActionsCollect(EffectsOf(rules[i].filters), ruleSet, |ruleSet|);
    }
  }

  /** On filterless rules the headers are exactly the flat lists and the rewrite is to the last path. */
  lemma RuleSetOnFilterless(rules: seq<RouteRule>, a: Annotation, ruleSet: seq<RewriteRule>, i: nat)
    requires i < |rules| && rules[i].filters == []
    ensures var n, r := |ruleSet|, HandleRuleSet(rules, a, Some(ruleSet)).rules;
            var requests, responses := AllConfigs(ruleSet, n, true), AllConfigs(ruleSet, n, false);
            i < |r| && EffectsOf(r[i].filters) == Effects(
                if SetHeaders(requests) == [] && DeletedHeaders(requests) == [] then None
                else Some(HeaderFilter(SetHeaders(requests), DeletedHeaders(requests))),
                if SetHeaders(responses) == [] && DeletedHeaders(responses) == [] then None
                else Some(HeaderFilter(SetHeaders(responses), DeletedHeaders(responses))),
                match LastPath(ruleSet, n)
                case None => None
                case Some(p) => Some(URLRewrite(None, Some(PathModifier(ReplaceFullPath, Some(p), None)))))
  {
    hide HandleRuleSet;
    hide SetHeaders;
    hide DeletedHeaders;
    hide LastPath;
    hide AllConfigs;
    RuleSetRefinement(rules, a, ruleSet);
    assert EffectsOf([]) == NO_EFFECTS;
    assert NO_HEADERS.setHeaders == [] && NO_HEADERS.remove == [];
    assert forall s: seq<Header> :: [] + s == s;
    assert forall s: seq<string> :: [] + s == s;
  }

  // ---------- The status of the annotation ----------

  /** The status an action asks for, if any. */
  function AskedBy(action: Action): seq<MigrationStatus> {
    match action
    case Apply(_) => [Completed]
    case Unsupported => []
    case Remark(code) => [LevelStatus(Level(code))]
  }

  function AskedByAll(actions: seq<Action>): seq<MigrationStatus> {
    if actions == [] then []
    else AskedByAll(actions[..|actions| - 1]) + AskedBy(actions[|actions| - 1])
  }

  lemma {:induction false} AskedByConcat(a: seq<Action>, b: seq<Action>)
    ensures AskedByAll(a + b) == AskedByAll(a) + AskedByAll(b)
  {
    hide AskedBy;
    if b == [] {
      assert a + b == a;
    } else {
      var init, last := b[..|b| - 1], b[|b| - 1];
      AskedByConcat(a, init);
      assert (a + b)[..|a + b| - 1] == a + init && (a + b)[|a + b| - 1] == last;
      assert AskedByAll(a + b) == AskedByAll(a + init) + AskedBy(last);
      assert AskedByAll(b) == AskedByAll(init) + AskedBy(last);
    }
  }

  lemma {:induction false} PerformedStatus(r: FilterRun, actions: seq<Action>)
    ensures PerformAll(r, actions).annotation.status == Settle(r.annotation.status, AskedByAll(actions))
  {
    hide ApplyOp;
    hide Level;
    if actions != [] {
      var init, last := actions[..|actions| - 1], actions[|actions| - 1];
      PerformedStatus(r, init);
      var asked := AskedByAll(init);
      if AskedBy(last) != [] {
        assert (asked + AskedBy(last))[..|asked|] == asked;
      } else {
        assert asked + [] == asked;
      }
    }
  }

  /** Some rule has conditions or asks for a reroute. */
  predicate Remarked(rules: seq<RewriteRule>, n: nat)
    requires n <= |rules|
  {
    exists i | 0 <= i < n :: rules[i].conditions > 0 || (rules[i].url.Some? && rules[i].url.value.reroute)
  }

  predicate HasSupported(configs: seq<HeaderConfiguration>) {
    exists c | c in configs :: !IsUnsupported(c)
  }

  /** Some rule does something that can be converted. */
  predicate Converts(rules: seq<RewriteRule>, n: nat)
    requires n <= |rules|
  {
    exists i | 0 <= i < n ::
      HasSupported(rules[i].requestHeaders) || HasSupported(rules[i].responseHeaders)
      || (rules[i].url.Some? && rules[i].url.value.modifiedPath != "")
  }

  lemma AskedByHeader(c: HeaderConfiguration)
    ensures AskedBy(RequestAction(c)) == AskedBy(ResponseAction(c)) == if IsUnsupported(c) then [] else [Completed]
  {
    hide ToLower;
  }

  lemma SupportedSnoc(configs: seq<HeaderConfiguration>, c: HeaderConfiguration)
    ensures HasSupported(configs + [c]) <==> HasSupported(configs) || !IsUnsupported(c)
    ensures !HasSupported([])
  {
    hide IsUnsupported;
    assert forall x :: x in configs + [c] <==> x in configs || x == c;
  }

  lemma {:induction false} AskedByHeaders(configs: seq<HeaderConfiguration>, s: MigrationStatus)
    ensures s in AskedByAll(RequestActions(configs)) <==> s == Completed && HasSupported(configs)
    ensures s in AskedByAll(ResponseActions(configs)) <==> s == Completed && HasSupported(configs)
  {
    hide RequestAction;
    hide ResponseAction;
    hide IsUnsupported;
    hide HasSupported;
    hide AskedBy;
    if configs == [] {
      SupportedSnoc([], HeaderConfiguration("", "", ""));
    } else {
      var init, last := configs[..|configs| - 1], configs[|configs| - 1];
      AskedByHeaders(init, s);
      SupportedSnoc(init, last);
      AskedByHeader(last);
      assert configs == init + [last];
      assert RequestActions(configs)[..|configs| - 1] == RequestActions(init);
      assert ResponseActions(configs)[..|configs| - 1] == ResponseActions(init);
    }
  }

  lemma AskedByOne(a: Action)
    ensures AskedByAll([a]) == AskedBy(a) && AskedByAll([]) == []
  {
    assert [a][..0] == [];
  }

  lemma AskedByRemarks(rules: seq<RewriteRule>, n: nat, s: MigrationStatus)
    requires n < |rules|
    ensures s in AskedByAll(RemarkActions(rules, n)) <==>
            || (s == Warning && rules[n].conditions > 0)
            || (s == Error && SequencesDiffer(rules, n + 1) && !SequencesDiffer(rules, n))
  {
    hide SequencesDiffer;
    hide AskedByAll;
    var c, q := Remark(RewriteRuleSetConditionsNotSupported), Remark(RewriteRuleSetRuleSequenceNotSupported);
    AskedByOne(c);
    AskedByOne(q);
    var conditions := if rules[n].conditions > 0 then [c] else [];
    var sequence := if SequencesDiffer(rules, n + 1) && !SequencesDiffer(rules, n) then [q] else [];
    AskedByConcat(conditions, sequence);
    assert RemarkActions(rules, n) == conditions + sequence;
  }

  lemma AskedByUrl(url: Option<UrlConfiguration>, s: MigrationStatus)
    ensures s in AskedByAll(UrlActions(url)) <==>
            url.Some? && ((s == Warning && url.value.reroute) || (s == Completed && url.value.modifiedPath != ""))
  {
    hide AskedByAll;
    if url.None? {
      NothingAsked();
    } else {
      var r, p := Remark(RewriteRuleSetRerouteNotSupported), Apply(RewriteFullPath(url.value.modifiedPath));
      AskedByOne(r);
      AskedByOne(p);
      var reroute := if url.value.reroute then [r] else [];
      var path := if url.value.modifiedPath != "" then [p] else [];
      AskedByConcat(reroute, path);
      assert UrlActions(url) == reroute + path;
    }
  }

  lemma {:induction false} AskedByRuleSet(rules: seq<RewriteRule>, n: nat, s: MigrationStatus)
    requires n <= |rules|
    ensures s in AskedByAll(RuleSetActions(rules, n)) <==>
            || (s == Error && SequencesDiffer(rules, n))
            || (s == Warning && Remarked(rules, n))
            || (s == Completed && Converts(rules, n))
  {
    hide HasSupported;
    hide RemarkActions;
    hide UrlActions;
    hide AskedByAll;
    if n == 0 {
      NothingAsked();
    } else {
      var rule := rules[n - 1];
      AskedByRuleSet(rules, n - 1, s);
      AskedByRemarks(rules, n - 1, s);
      AskedByUrl(rule.url, s);
      AskedByHeaders(rule.requestHeaders, s);
      AskedByHeaders(rule.responseHeaders, s);
      var m, q := RemarkActions(rules, n - 1), RequestActions(rule.requestHeaders);
      var p, u := ResponseActions(rule.responseHeaders), UrlActions(rule.url);
      AskedByConcat(RuleSetActions(rules, n - 1), m + q + p + u);
      AskedByConcat(m + q + p, u);
      AskedByConcat(m + q, p);
      AskedByConcat(m, q);
      OneMoreRewriteRule(rules, n - 1);
    }
  }

  lemma NothingAsked()
    ensures AskedByAll([]) == []
  {
  }

  lemma OneMoreRewriteRule(rules: seq<RewriteRule>, n: nat)
    requires n < |rules|
    ensures SequencesDiffer(rules, n) ==> SequencesDiffer(rules, n + 1)
    ensures Remarked(rules, n + 1) <==>
            Remarked(rules, n) || rules[n].conditions > 0 || (rules[n].url.Some? && rules[n].url.value.reroute)
    ensures Converts(rules, n + 1) <==>
            || Converts(rules, n)
            || HasSupported(rules[n].requestHeaders) || HasSupported(rules[n].responseHeaders)
            || (rules[n].url.Some? && rules[n].url.value.modifiedPath != "")
  {
    hide HasSupported;
  }

  /** The status a rule set leaves on a fresh annotation. Rules of different sequence are an error although all of them
      are applied; and where nothing could be converted and some header action is unsupported, the call fails but the
      annotation stays as if no handler had seen it. */
  lemma RuleSetStatus(rules: seq<RouteRule>, a: Annotation, ruleSet: seq<RewriteRule>)
    requires a.status == NotStarted
    ensures var r, n := HandleRuleSet(rules, a, Some(ruleSet)), |ruleSet|;
            r.annotation.status ==
            if SequencesDiffer(ruleSet, n) then Error
            else if Remarked(ruleSet, n) then Warning
            else if Converts(ruleSet, n) || !AnyUnsupported(ruleSet, n) then Completed
            else NotStarted
  {
    hide ApplyOp;
    hide SequencesDiffer;
    hide Remarked;
    hide Converts;
    hide AnyUnsupported;
    hide RuleSetEffects;
    hide EffectsOf;
    hide PerformAll;
    RuleSetRefinement(rules, a, ruleSet);
    var n, start := |ruleSet|, FilterRun(rules, a, false);
    var actions := RuleSetActions(ruleSet, n);
    var asked := AskedByAll(actions);
    PerformedStatus(start, actions);
    SettledStatus(NotStarted, asked);
    forall s ensures s in asked <==>
                     (s == Error && SequencesDiffer(ruleSet, n)) || (s == Warning && Remarked(ruleSet, n))
                     || (s == Completed && Converts(ruleSet, n))
    {
      AskedByRuleSet(ruleSet, n, s);
    }
    assert Error in asked <==> SequencesDiffer(ruleSet, n);
    assert Warning in asked <==> Remarked(ruleSet, n);
    assert Completed in asked <==> Converts(ruleSet, n);
    if asked != [] {
      assert asked[|asked| - 1] in asked;
    }
    assert Settle(NotStarted, asked) ==
           if Error in asked then Error
           else if Warning in asked then Warning
           else if Completed in asked then Completed
           else NotStarted;
  }

  lemma {:induction false} PerformedIssues(r: FilterRun, actions: seq<Action>, code: IssueCode)
    ensures Issue(code, None) in PerformAll(r, actions).annotation.issues <==>
              Issue(code, None) in r.annotation.issues || Remark(code) in actions
  {
    hide ApplyOp;
    hide Next;
    hide Level;
    if actions != [] {
      var init, last := actions[..|actions| - 1], actions[|actions| - 1];
      PerformedIssues(r, init, code);
      assert actions == init + [last];
    }
  }

  /** Which remarks a rule set asks for. */
  predicate RemarkDue(rules: seq<RewriteRule>, n: nat, code: IssueCode)
    requires n <= |rules|
  {
    || (code == RewriteRuleSetConditionsNotSupported && exists i | 0 <= i < n :: rules[i].conditions > 0)
    || (code == RewriteRuleSetRerouteNotSupported
        && exists i | 0 <= i < n :: rules[i].url.Some? && rules[i].url.value.reroute)
    || (code == RewriteRuleSetRuleSequenceNotSupported
        && exists i | 0 <= i < n :: rules[i].ruleSequence != rules[0].ruleSequence)
  }

  lemma {:induction false} RemarksDue(rules: seq<RewriteRule>, n: nat, code: IssueCode)
    requires n <= |rules|
    ensures Remark(code) in RuleSetActions(rules, n) <==> RemarkDue(rules, n, code)
  {
    hide RuleActions;
    hide RemarkDue;
    if n > 0 {
      RemarksDue(rules, n - 1, code);
      RemarksOfRule(rules, n - 1, code);
      OneMoreRemarkDue(rules, n - 1, code);
    } else {
      NoRemarkDue(rules, code);
    }
  }

  /** The remarks of one rule. */
  lemma RemarksOfRule(rules: seq<RewriteRule>, n: nat, code: IssueCode)
    requires n < |rules|
    ensures Remark(code) in RuleActions(rules, n) <==>
              || (code == RewriteRuleSetConditionsNotSupported && rules[n].conditions > 0)
              || (code == RewriteRuleSetRerouteNotSupported && rules[n].url.Some? && rules[n].url.value.reroute)
              || (code == RewriteRuleSetRuleSequenceNotSupported
                  && SequencesDiffer(rules, n + 1) && !SequencesDiffer(rules, n))
  {
    hide RequestActions;
    hide ResponseActions;
    hide SequencesDiffer;
    HeadersRemarkNothing(rules[n].requestHeaders, code);
    HeadersRemarkNothing(rules[n].responseHeaders, code);
  }

  lemma NoRemarkDue(rules: seq<RewriteRule>, code: IssueCode)
    ensures !RemarkDue(rules, 0, code)
  {
  }

  lemma OneMoreRemarkDue(rules: seq<RewriteRule>, n: nat, code: IssueCode)
    requires n < |rules|
    ensures RemarkDue(rules, n + 1, code) <==>
              || RemarkDue(rules, n, code)
              || (code == RewriteRuleSetConditionsNotSupported && rules[n].conditions > 0)
              || (code == RewriteRuleSetRerouteNotSupported && rules[n].url.Some? && rules[n].url.value.reroute)
              || (code == RewriteRuleSetRuleSequenceNotSupported
                  && SequencesDiffer(rules, n + 1) && !SequencesDiffer(rules, n))
  {
  }

  lemma HeadersRemarkNothing(configs: seq<HeaderConfiguration>, code: IssueCode)
    ensures Remark(code) !in RequestActions(configs) && Remark(code) !in ResponseActions(configs)
  {
    hide ToLower;
  }

  /** The issues a rule set leaves: one kind for conditions, one for reroutes, one for rules of different sequence. */
  lemma RuleSetIssues(rules: seq<RouteRule>, a: Annotation, ruleSet: seq<RewriteRule>, code: IssueCode)
    requires a.issues == []
    ensures var issues := HandleRuleSet(rules, a, Some(ruleSet)).annotation.issues;
            Issue(code, None) in issues <==> RemarkDue(ruleSet, |ruleSet|, code)
  {
    hide RemarkDue;
    hide PerformAll;
    hide RuleSetActions;
    PerformedIssues(FilterRun(rules, a, false), RuleSetActions(ruleSet, |ruleSet|), code);
    RemarksDue(ruleSet, |ruleSet|, code);
  }

  /** The smallest case: one header to append, which is neither set nor deleted. */
  lemma OnlyUnsupportedStaysUnseen(rules: seq<RouteRule>, key: string, value: string)
    ensures var append := HeaderConfiguration("append", "X-Forwarded-Host", "example.com");
            var r := HandleRuleSet(rules, NewAnnotation(key, value), Some([RewriteRule(0, 100, [append], [], None)]));
            r.failed && r.rules == rules && r.annotation == NewAnnotation(key, value)
  {
    hide RequestAction;
    hide SequencesDiffer;
    hide Perform;
    var append := HeaderConfiguration("append", "X-Forwarded-Host", "example.com");
    var ruleSet := [RewriteRule(0, 100, [append], [], None)];
    AppendIsUnsupported(append);
    assert SequencesDiffer(ruleSet, 1) == false == SequencesDiffer(ruleSet, 0) by { OneRuleHasOneSequence(ruleSet); }
    assert RequestActions([append]) == [Unsupported];
    assert RuleSetActions(ruleSet, 1) == RuleSetActions(ruleSet, 0) + RuleActions(ruleSet, 0) == [Unsupported];
    UnsupportedAlone(FilterRun(rules, NewAnnotation(key, value), false));
  }

  lemma AppendIsUnsupported(c: HeaderConfiguration)
    requires c.actionType == "append"
    ensures RequestAction(c) == Unsupported
  {
    assert ToLower("append")[0] == 'a' && "set"[0] == 's' && "delete"[0] == 'd';
  }

  lemma OneRuleHasOneSequence(rules: seq<RewriteRule>)
    requires |rules| == 1
    ensures !SequencesDiffer(rules, 0) && !SequencesDiffer(rules, 1)
  {
  }

  lemma UnsupportedAlone(r: FilterRun)
    ensures PerformAll(r, [Unsupported]) == r.(failed := true)
  {
    assert [Unsupported][..0] == [];
  }
}
