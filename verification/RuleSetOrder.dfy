/** Rewrite rule sets and path prefixes on one route: when the order of the two handlers matters. */
module RuleSetOrder {
  import opened Text
  import opened Annotations
  import opened Resources
  import opened Filters
  import opened RuleSets

  /** The rules after the rule set and then the prefix. */
  function RuleSetFirst(
    rules: seq<RouteRule>, a: Annotation, ruleSet: seq<RewriteRule>, prefix: string): seq<RouteRule> {
    ApplyOp(HandleRuleSet(rules, a, Some(ruleSet)).rules, RewritePrefix(prefix))
  }

  /** The rules after the prefix and then the rule set. */
  function PrefixFirst(
    rules: seq<RouteRule>, a: Annotation, ruleSet: seq<RewriteRule>, prefix: string): seq<RouteRule> {
    HandleRuleSet(ApplyOp(rules, RewritePrefix(prefix)), a, Some(ruleSet)).rules
  }

  /** What the filters of a rule are, in both orders. */
  lemma BothOrders(rules: seq<RouteRule>, a: Annotation, ruleSet: seq<RewriteRule>, prefix: string)
    ensures var actions := RuleSetActions(ruleSet, |ruleSet|);
            var first, second := RuleSetFirst(rules, a, ruleSet, prefix), PrefixFirst(rules, a, ruleSet, prefix);
            && |first| == |second| == |rules|
            && forall i | 0 <= i < |rules| ::
                 && first[i] == rules[i].(filters := Stepped(FiltersAfter(rules[i].filters, actions),
                                                             RewritePrefix(prefix)))
                 && second[i] == rules[i].(filters := FiltersAfter(Stepped(rules[i].filters, RewritePrefix(prefix)),
                                                                   actions))
  {
    hide PerformAll;
    hide FiltersAfter;
    hide RuleSetActions;
    hide Upsert;
    var actions := RuleSetActions(ruleSet, |ruleSet|);
    PerformedFilters(FilterRun(rules, a, false), actions);
    PerformedFilters(FilterRun(ApplyOp(rules, RewritePrefix(prefix)), a, false), actions);
  }

  // ---------- What the filters do ----------

  lemma EffectsOfBothOrders(filters: seq<Filter>, ruleSet: seq<RewriteRule>, prefix: string)
    ensures var actions, p := RuleSetActions(ruleSet, |ruleSet|), RewritePrefix(prefix);
            EffectsOf(Stepped(FiltersAfter(filters, actions), p))
              == EffectsOf(FiltersAfter(Stepped(filters, p), actions))
            <==> LastPath(ruleSet, |ruleSet|) == None
  {
    hide EffectsOf;
    hide Stepped;
    hide FiltersAfter;
    hide RuleSetActions;
    hide LastPath;
    hide AddHeaders;
    var actions, p := RuleSetActions(ruleSet, |ruleSet|), RewritePrefix(prefix);
    var e := EffectsOf(filters);
    StepOnEffects(filters, p);
    StepOnEffects(FiltersAfter(filters, actions), p);
    EffectsAfter(filters, actions);
    EffectsAfter(Stepped(filters, p), actions);
    ActionsCollect(e, ruleSet, |ruleSet|);
    ActionsCollect(AfterOp(e, p), ruleSet, |ruleSet|);
    if LastPath(ruleSet, |ruleSet|).Some? {
      var path := LastPath(ruleSet, |ruleSet|).value;
      assert WithPrefix(Some(WithFullPath(e.url, path)), prefix).path.value.modifierType == ReplacePrefixMatch;
      assert WithFullPath(Some(WithPrefix(e.url, prefix)), path).path.value.modifierType == ReplaceFullPath;
    }
  }

  /** Go may visit the two annotations in either order. What the filters do then is the same exactly when the rule set
      rewrites no path; otherwise the later handler decides whether the prefix or the full path is in force. */
  lemma EffectsIgnoreOrderIff(rules: seq<RouteRule>, a: Annotation, ruleSet: seq<RewriteRule>, prefix: string)
    ensures var first, second := RuleSetFirst(rules, a, ruleSet, prefix), PrefixFirst(rules, a, ruleSet, prefix);
            && |first| == |second| == |rules|
            && ((forall i | 0 <= i < |rules| :: EffectsOf(first[i].filters) == EffectsOf(second[i].filters))
                <==> rules == [] || LastPath(ruleSet, |ruleSet|) == None)
  {
    hide EffectsOf;
    hide FiltersAfter;
    hide Stepped;
    hide LastPath;
    hide RuleSetFirst;
    hide PrefixFirst;
    BothOrders(rules, a, ruleSet, prefix);
    var first, second := RuleSetFirst(rules, a, ruleSet, prefix), PrefixFirst(rules, a, ruleSet, prefix);
    forall i | 0 <= i < |rules|
      ensures (EffectsOf(first[i].filters) == EffectsOf(second[i].filters)) <==> LastPath(ruleSet, |ruleSet|) == None
    {
      EffectsOfBothOrders(rules[i].filters, ruleSet, prefix);
    }
    if rules != [] {
      EffectsOfBothOrders(rules[0].filters, ruleSet, prefix);
    }
  }

  // ---------- The order of the filters ----------

  lemma StepKeepsPresent(filters: seq<Filter>, op: FilterOp, t: FilterType)
    ensures Present(Stepped(filters, op), t) <==> Present(filters, t) || t == TypeOf(op)
    ensures |Stepped(filters, op)| == |filters| + if Present(filters, TypeOf(op)) then 0 else 1
    ensures Present(filters, t) ==> IndexOf(Stepped(filters, op), t) == IndexOf(filters, t)
    ensures !Present(filters, TypeOf(op)) ==> IndexOf(Stepped(filters, op), TypeOf(op)) == |filters|
  {
    UpsertPlaces(filters, op);
    var f := Modify(op, FirstOrNew(filters, TypeOf(op)));
    hide Modify;
    var k := IndexOf(filters, TypeOf(op));
    if k < |filters| {
      IndexAfterUpdate(filters, k, f, t);
    } else {
      IndexAfterAppend(filters, f, t);
      IndexAfterAppend(filters, f, TypeOf(op));
    }
  }

  /** Two steps on different types commute as soon as one of the filters is there already. */
  lemma StepsCommute(filters: seq<Filter>, a: FilterOp, b: FilterOp)
    requires TypeOf(a) != TypeOf(b) && (Present(filters, TypeOf(a)) || Present(filters, TypeOf(b)))
    ensures Stepped(Stepped(filters, a), b) == Stepped(Stepped(filters, b), a)
  {
    hide Modify;
    hide Stepped;
    hide Upsert;
    var i, j := IndexOf(filters, TypeOf(a)), IndexOf(filters, TypeOf(b));
    var afterA, afterB := Stepped(filters, a), Stepped(filters, b);
    SteppedIs(filters, a);
    SteppedIs(filters, b);
    SteppedIs(afterA, b);
    SteppedIs(afterB, a);
    StepKeepsPresent(filters, a, TypeOf(b));
    StepKeepsPresent(filters, b, TypeOf(a));
    assert i < |filters| && j < |filters| ==> i != j;
  }

  lemma SteppedIs(filters: seq<Filter>, op: FilterOp)
    ensures Stepped(filters, op) == Placed(filters, Modify(op, FirstOrNew(filters, TypeOf(op))), TypeOf(op))
  {
    UpsertPlaces(filters, op);
  }

  /** Some action works on filters of the type. */
  ghost predicate Works(actions: seq<Action>, t: FilterType) {
    exists a :: a in actions && a.Apply? && TypeOf(a.op) == t
  }

  lemma WorksSnoc(actions: seq<Action>, a: Action, t: FilterType)
    ensures Works(actions + [a], t) <==> Works(actions, t) || (a.Apply? && TypeOf(a.op) == t)
    ensures !Works([], t)
  {
    assert a in actions + [a] && forall x :: x in actions + [a] <==> x in actions || x == a;
  }

  lemma {:induction false} ActionsKeepPresent(filters: seq<Filter>, actions: seq<Action>, t: FilterType)
    ensures Present(FiltersAfter(filters, actions), t) <==> Present(filters, t) || Works(actions, t)
    ensures Present(filters, t) ==> IndexOf(FiltersAfter(filters, actions), t) == IndexOf(filters, t)
    ensures |FiltersAfter(filters, actions)| >= |filters|
    ensures !Present(filters, t) && Works(actions, t) ==> |FiltersAfter(filters, actions)| > |filters|
  {
    hide Stepped;
    hide Present;
    hide Works;
    if actions == [] {
      WorksSnoc([], Unsupported, t);
    } else {
      var init, last := actions[..|actions| - 1], actions[|actions| - 1];
      assert actions == init + [last];
      WorksSnoc(init, last, t);
      ActionsKeepPresent(filters, init, t);
      if last.Apply? {
        StepKeepsPresent(FiltersAfter(filters, init), last.op, t);
      }
    }
  }

  lemma {:induction false} ActionsCommute(filters: seq<Filter>, actions: seq<Action>, p: FilterOp)
    requires !Works(actions, TypeOf(p))
    requires Present(filters, TypeOf(p)) || forall t | Works(actions, t) :: Present(filters, t)
    ensures FiltersAfter(Stepped(filters, p), actions) == Stepped(FiltersAfter(filters, actions), p)
  {
    hide Stepped;
    hide Present;
    hide Works;
    if actions != [] {
      var init, last := actions[..|actions| - 1], actions[|actions| - 1];
      assert actions == init + [last];
      forall t { WorksSnoc(init, last, t); }
      ActionsCommute(filters, init, p);
      if last.Apply? {
        assert Works(actions, TypeOf(last.op));
        ActionsKeepPresent(filters, init, TypeOf(p));
        ActionsKeepPresent(filters, init, TypeOf(last.op));
        StepsCommute(FiltersAfter(filters, init), last.op, p);
      }
    }
  }

  /** Otherwise the filter of the later handler comes later. */
  lemma ActionsDiffer(filters: seq<Filter>, actions: seq<Action>, p: FilterOp, t: FilterType)
    requires !Works(actions, TypeOf(p)) && !Present(filters, TypeOf(p)) && Works(actions, t) && !Present(filters, t)
    ensures FiltersAfter(Stepped(filters, p), actions) != Stepped(FiltersAfter(filters, actions), p)
  {
    hide Stepped;
    hide Works;
    var after := FiltersAfter(filters, actions);
    StepKeepsPresent(filters, p, TypeOf(p));
    ActionsKeepPresent(Stepped(filters, p), actions, TypeOf(p));
    ActionsKeepPresent(filters, actions, t);
    ActionsKeepPresent(filters, actions, TypeOf(p));
    StepKeepsPresent(after, p, TypeOf(p));
    assert IndexOf(FiltersAfter(Stepped(filters, p), actions), TypeOf(p)) == |filters| < |after|
        == IndexOf(Stepped(after, p), TypeOf(p));
  }

  // ---------- The filters a rule set works on ----------

  /** Some request header, or some response header, is set or deleted. */
  predicate SetsHeaders(rules: seq<RewriteRule>, n: nat, request: bool)
    requires n <= |rules|
  {
    exists i | 0 <= i < n :: HasSupported(if request then rules[i].requestHeaders else rules[i].responseHeaders)
  }

  lemma WorksConcat(a: seq<Action>, b: seq<Action>, t: FilterType)
    ensures Works(a + b, t) <==> Works(a, t) || Works(b, t)
  {
    assert forall x :: x in a + b <==> x in a || x in b;
  }

  lemma HeaderWorks(c: HeaderConfiguration)
    ensures IsUnsupported(c) ==> RequestAction(c) == ResponseAction(c) == Unsupported
    ensures !IsUnsupported(c) ==> RequestAction(c).Apply? && TypeOf(RequestAction(c).op) == RequestHeaderType
    ensures !IsUnsupported(c) ==> ResponseAction(c).Apply? && TypeOf(ResponseAction(c).op) == ResponseHeaderType
  {
    hide ToLower;
  }

  lemma {:induction false} HeadersWork(configs: seq<HeaderConfiguration>, t: FilterType)
    ensures Works(RequestActions(configs), t) <==> t == RequestHeaderType && HasSupported(configs)
    ensures Works(ResponseActions(configs), t) <==> t == ResponseHeaderType && HasSupported(configs)
  {
    hide RequestAction;
    hide ResponseAction;
    hide IsUnsupported;
    hide HasSupported;
    hide Works;
    if configs == [] {
      SupportedSnoc([], HeaderConfiguration("", "", ""));
      WorksSnoc([], Unsupported, t);
    } else {
      var init, last := configs[..|configs| - 1], configs[|configs| - 1];
      HeadersWork(init, t);
      SupportedSnoc(init, last);
      HeaderWorks(last);
      WorksSnoc(RequestActions(init), RequestAction(last), t);
      WorksSnoc(ResponseActions(init), ResponseAction(last), t);
      assert configs == init + [last];
      assert RequestActions(configs) == RequestActions(init) + [RequestAction(last)];
      assert ResponseActions(configs) == ResponseActions(init) + [ResponseAction(last)];
    }
  }

  lemma OthersWork(rules: seq<RewriteRule>, n: nat, t: FilterType)
    requires n < |rules|
    ensures !Works(RemarkActions(rules, n), t)
    ensures Works(UrlActions(rules[n].url), t) <==>
            t == URLRewriteType && rules[n].url.Some? && rules[n].url.value.modifiedPath != ""
  {
    hide SequencesDiffer;
    if rules[n].url.Some? && rules[n].url.value.modifiedPath != "" {
      assert Apply(RewriteFullPath(rules[n].url.value.modifiedPath)) in UrlActions(rules[n].url);
    }
  }

  lemma {:induction false} RuleSetWorks(rules: seq<RewriteRule>, n: nat, t: FilterType)
    requires n <= |rules|
    ensures Works(RuleSetActions(rules, n), t) <==>
            || (t == RequestHeaderType && SetsHeaders(rules, n, true))
            || (t == ResponseHeaderType && SetsHeaders(rules, n, false))
            || (t == URLRewriteType && LastPath(rules, n).Some?)
  {
    hide Works;
    hide HasSupported;
    hide RemarkActions;
    hide UrlActions;
    hide RequestActions;
    hide ResponseActions;
    if n == 0 {
      WorksSnoc([], Unsupported, t);
    } else {
      var rule := rules[n - 1];
      RuleSetWorks(rules, n - 1, t);
      var m, q, p, u :=
        RemarkActions(rules, n - 1), RequestActions(rule.requestHeaders), ResponseActions(rule.responseHeaders),
        UrlActions(rule.url);
      WorksConcat(RuleSetActions(rules, n - 1), m + q + p + u, t);
      WorksConcat(m + q + p, u, t);
      WorksConcat(m + q, p, t);
      WorksConcat(m, q, t);
      HeadersWork(rule.requestHeaders, t);
      HeadersWork(rule.responseHeaders, t);
      OthersWork(rules, n - 1, t);
    }
  }

  /** The rule has a URL rewrite already, or a filter for every kind of header the rule set touches. */
  predicate OrderIsFixed(filters: seq<Filter>, ruleSet: seq<RewriteRule>) {
    || Present(filters, URLRewriteType)
    || ((SetsHeaders(ruleSet, |ruleSet|, true) ==> Present(filters, RequestHeaderType))
        && (SetsHeaders(ruleSet, |ruleSet|, false) ==> Present(filters, ResponseHeaderType)))
  }

  lemma ListsOfBothOrders(filters: seq<Filter>, ruleSet: seq<RewriteRule>, prefix: string)
    requires LastPath(ruleSet, |ruleSet|) == None
    ensures var actions, p := RuleSetActions(ruleSet, |ruleSet|), RewritePrefix(prefix);
            Stepped(FiltersAfter(filters, actions), p) == FiltersAfter(Stepped(filters, p), actions) <==>
              OrderIsFixed(filters, ruleSet)
  {
    hide Works;
    hide Present;
    hide SetsHeaders;
    hide Stepped;
    hide FiltersAfter;
    hide RuleSetActions;
    var n, actions, p := |ruleSet|, RuleSetActions(ruleSet, |ruleSet|), RewritePrefix(prefix);
    forall t { RuleSetWorks(ruleSet, n, t); }
    if OrderIsFixed(filters, ruleSet) {
      ActionsCommute(filters, actions, p);
    } else if SetsHeaders(ruleSet, n, true) && !Present(filters, RequestHeaderType) {
      ActionsDiffer(filters, actions, p, RequestHeaderType);
    } else {
      ActionsDiffer(filters, actions, p, ResponseHeaderType);
    }
  }

  /** The rules come out the same, filter by filter, exactly when the rule set rewrites no path and no rule gets both a
      URL rewrite and a header filter it did not have: two new filters stand in the order of the handlers. */
  lemma RulesIgnoreOrderIff(rules: seq<RouteRule>, a: Annotation, ruleSet: seq<RewriteRule>, prefix: string)
    ensures RuleSetFirst(rules, a, ruleSet, prefix) == PrefixFirst(rules, a, ruleSet, prefix) <==>
              rules == [] ||
              (LastPath(ruleSet, |ruleSet|) == None && forall r | r in rules :: OrderIsFixed(r.filters, ruleSet))
  {
    hide EffectsOf;
    hide FiltersAfter;
    hide Stepped;
    hide LastPath;
    hide RuleSetFirst;
    hide PrefixFirst;
    hide OrderIsFixed;
    hide RuleSetActions;
    BothOrders(rules, a, ruleSet, prefix);
    EffectsIgnoreOrderIff(rules, a, ruleSet, prefix);
    if LastPath(ruleSet, |ruleSet|) == None {
      var first, second := RuleSetFirst(rules, a, ruleSet, prefix), PrefixFirst(rules, a, ruleSet, prefix);
      forall i | 0 <= i < |rules| ensures first[i] == second[i] <==> OrderIsFixed(rules[i].filters, ruleSet) {
        ListsOfBothOrders(rules[i].filters, ruleSet, prefix);
      }
      if r :| r in rules && !OrderIsFixed(r.filters, ruleSet) {
        var i :| 0 <= i < |rules| && rules[i] == r;
        ListsOfBothOrders(rules[i].filters, ruleSet, prefix);
      }
    }
  }
}
