/** The rewrite-target and use-regex handlers of the NGINX provider. */
module NginxRewrite {
  import opened Text
  import opened Annotations
  import opened Resources
  import opened Gateways
  import opened Filters

  // ---------- Capture references ----------

  /** A match of `\$\d+` starts at `i`. */
  predicate ReferenceAt(s: string, i: nat) {
    i + 1 < |s| && s[i] == '$' && IsDigit(s[i + 1])
  }

  /** `captureGroupPattern.MatchString`. */
  predicate HasReference(s: string) {
    exists i | 0 <= i < |s| :: ReferenceAt(s, i)
  }

  function DropDigits(s: string): (r: string)
    ensures |r| <= |s| && r == s[|s| - |r|..]
    ensures r == "" || !IsDigit(r[0])
    ensures forall i | 0 <= i < |s| - |r| :: IsDigit(s[i])
  {
    if s != "" && IsDigit(s[0]) then DropDigits(s[1..]) else s
  }

  /** `captureGroupPattern.ReplaceAllString(s, "")`: the matches are taken from the left, each as long as it can be. */
  function Strip(s: string): string
    decreases |s|
  {
    if s == "" then ""
    else if ReferenceAt(s, 0) then Strip(DropDigits(s[1..]))
    else [s[0]] + Strip(s[1..])
  }

  lemma {:induction false} StripStartsAsBefore(s: string)
    requires s == "" || !IsDigit(s[0])
    ensures Strip(s) == "" || !IsDigit(Strip(s)[0])
    decreases |s|
  {
    if s != "" && ReferenceAt(s, 0) {
      StripStartsAsBefore(DropDigits(s[1..]));
    }
  }

  /** One pass is complete: no reference is left, not even one made of what stood around a removed one. */
  lemma {:induction false} StripLeavesNone(s: string)
    ensures !HasReference(Strip(s))
    decreases |s|
  {
    var r := Strip(s);
    if s == "" {
    } else if ReferenceAt(s, 0) {
      StripLeavesNone(DropDigits(s[1..]));
    } else {
      StripLeavesNone(s[1..]);
      if s[0] == '$' {
        StripStartsAsBefore(s[1..]);
      }
      forall i | 0 <= i < |r| ensures !ReferenceAt(r, i) {
        assert i > 0 && ReferenceAt(r, i) ==> ReferenceAt(Strip(s[1..]), i - 1);
      }
    }
  }

  /** A string without references is left alone; so a second pass changes nothing. */
  lemma {:induction false} StripOfPlain(s: string)
    requires !HasReference(s)
    ensures Strip(s) == s
  {
    if s != "" {
      forall i | 0 <= i < |s| - 1 ensures !ReferenceAt(s[1..], i) {
        assert !ReferenceAt(s, i + 1);
      }
      StripOfPlain(s[1..]);
      assert s == [s[0]] + s[1..];
    }
  }

  lemma StripTwice(s: string)
    ensures Strip(Strip(s)) == Strip(s)
  {
    StripLeavesNone(s);
    StripOfPlain(Strip(s));
  }

  /** Position `i` belongs to a reference: a dollar sign before it, and digits from there on up to it. */
  ghost predicate Referenced(s: string, i: nat)
    requires i < |s|
  {
    exists a: nat :: a <= i && ReferenceAt(s, a) && forall k | a < k <= i :: IsDigit(s[k])
  }

  /** The characters from `i` on that belong to no reference. */
  ghost function Unreferenced(s: string, i: nat): string
    requires i <= |s|
    decreases |s| - i
  {
    if i == |s| then "" else (if Referenced(s, i) then "" else [s[i]]) + Unreferenced(s, i + 1)
  }

  /** What is removed is exactly what belongs to a reference, and the rest keeps its order. */
  lemma StripIsExact(s: string)
    ensures Strip(s) == Unreferenced(s, 0)
  {
    StripFrom(s, 0);
    assert s[0..] == s;
  }

  /** No reference reaches from before `i` to `i`. */
  ghost predicate Boundary(s: string, i: nat)
    requires i <= |s|
  {
    i == |s| || (IsDigit(s[i]) ==> !Referenced(s, i))
  }

  lemma {:induction false} StripFrom(s: string, i: nat)
    requires i <= |s| && Boundary(s, i)
    ensures Strip(s[i..]) == Unreferenced(s, i)
    decreases |s| - i
  {
    if i < |s| {
      var t := s[i..];
      assert ReferenceAt(t, 0) <==> ReferenceAt(s, i);
      assert t[1..] == s[i + 1..];
      if ReferenceAt(s, i) {
        var rest := DropDigits(s[i + 1..]);
        var j := |s| - |rest|;
        forall k | i < k < j ensures IsDigit(s[k]) {
          assert s[k] == s[i + 1..][k - (i + 1)];
        }
        SkipReference(s, i, i, j);
        StripFrom(s, j);
        assert s[j..] == rest;
      } else {
        NotReferenced(s, i);
        StripFrom(s, i + 1);
      }
    }
  }

  lemma NotReferenced(s: string, i: nat)
    requires i < |s| && Boundary(s, i) && !ReferenceAt(s, i)
    ensures !Referenced(s, i) && Boundary(s, i + 1)
  {
  }

  lemma {:induction false} SkipReference(s: string, a: nat, i: nat, j: nat)
    requires a <= i <= j <= |s| && ReferenceAt(s, a)
    requires forall k | a < k < j :: IsDigit(s[k])
    ensures Unreferenced(s, i) == Unreferenced(s, j)
    decreases j - i
  {
    if i < j {
      assert Referenced(s, i);
      SkipReference(s, a, i + 1, j);
    }
  }

  // ---------- The replacement path ----------

  function StaticPart(target: string): string {
    var replacement := Strip(target);
    if replacement == "" then "/" else replacement
  }

  /** `determineReplacementPath`. */
  function DetermineReplacementPath(target: string): string {
    if TrimSpace(target) == "/$1" || TrimSpace(target) == "/$2" then "/" else StaticPart(target)
  }

  /** The replacement is never empty and holds no reference. */
  lemma ReplacementIsStatic(target: string)
    ensures DetermineReplacementPath(target) != "" && !HasReference(DetermineReplacementPath(target))
  {
    StripLeavesNone(target);
  }

  lemma {:induction false} StripAfterPlain(p: string, s: string)
    requires '$' !in p
    ensures Strip(p + s) == p + Strip(s)
  {
    hide DropDigits;
    if p == "" {
      assert p + s == s;
    } else {
      StripAfterPlain(p[1..], s);
      assert (p + s)[1..] == p[1..] + s && (p + s)[0] == p[0];
      assert Strip(p + s) == [p[0]] + Strip((p + s)[1..]);
      assert p == [p[0]] + p[1..];
    }
  }

  /** The shortcut for "/$1" and "/$2" is what the general rule gives, exactly when there was nothing to trim. */
  lemma ShortcutAgrees(target: string)
    requires TrimSpace(target) == "/$1" || TrimSpace(target) == "/$2"
    ensures DetermineReplacementPath(target) == StaticPart(target) <==> target == TrimSpace(target)
  {
    hide Strip;
    hide TrimSpace;
    hide IsDigit;
    var core := TrimSpace(target);
    var pre, post := TrimmedAway(target);
    assert IsDigit(core[2]) by { DigitsOneAndTwo(); }
    StripAroundReference(core[2], post);
    assert core == "/" + ['$', core[2]];
    assert target == (pre + "/") + (['$', core[2]] + post);
    StripAfterPlain(pre + "/", ['$', core[2]] + post);
    assert |Strip(target)| == |pre| + 1 + |post| && |target| == |pre| + 3 + |post|;
  }

  lemma DigitsOneAndTwo()
    ensures IsDigit('1') && IsDigit('2')
  {
  }

  /** What trimming takes away. */
  lemma TrimmedAway(s: string) returns (pre: string, post: string)
    ensures s == pre + TrimSpace(s) + post
    ensures '$' !in pre && '$' !in post && forall c | c in post :: !IsDigit(c)
  {
    hide IsSpace;
    hide IsDigit;
    var left := TrimLeft(s);
    pre, post := s[..|s| - |left|], left[|TrimSpace(s)|..];
    forall c | c in pre || c in post ensures c != '$' && !IsDigit(c) {
      assert IsSpace(c);
      SpaceIsPlain(c);
    }
  }

  lemma SpaceIsPlain(c: char)
    requires IsSpace(c)
    ensures !IsDigit(c) && c != '$'
  {
  }

  lemma StripAroundReference(digit: char, post: string)
    requires IsDigit(digit) && '$' !in post && forall c | c in post :: !IsDigit(c)
    ensures Strip(['$', digit] + post) == post
  {
    hide IsDigit;
    var s := ['$', digit] + post;
    assert s[1..] == [digit] + post && s[1..][1..] == post;
    assert post != "" ==> post[0] in post;
    StripAfterPlain(post, "");
    assert post + "" == post;
    assert DropDigits(post) == post;
    assert DropDigits(s[1..]) == post;
  }

  // ---------- The path prefix ----------

  /** The characters of `regexMetaCharsPattern`. */
  predicate IsMeta(c: char) {
    c in "().*+?|\\^$[]"
  }

  predicate HasMeta(s: string) {
    exists c | c in s :: IsMeta(c)
  }

  /** The index of the first metacharacter, or the length. */
  function FirstMeta(s: string): (i: nat)
    ensures i <= |s|
    ensures forall j | 0 <= j < i :: !IsMeta(s[j])
    ensures i < |s| ==> IsMeta(s[i])
  {
    if s == "" || IsMeta(s[0]) then 0 else 1 + FirstMeta(s[1..])
  }

  /** `extractPrefixFromRegex`. */
  function ExtractPrefix(path: string): string {
    var i := FirstMeta(path);
    if i == |path| then path
    else if path[..i] == "" then "/"
    else path[..i]
  }

  /** The characters with a meaning in a regular expression, one by one. */
  lemma MetaCharacters(c: char)
    ensures IsMeta(c) <==>
            c in {'(', ')', '.', '*', '+', '?', '|', '\\', '^', '$', '[', ']'}
  {
  }

  /** The prefix is what precedes the first metacharacter, or "/" where nothing does; it never holds one itself. */
  lemma PrefixIsMaximal(path: string)
    ensures !HasMeta(ExtractPrefix(path))
    ensures !HasMeta(path) ==> ExtractPrefix(path) == path
    ensures HasMeta(path) ==>
              exists n :: 0 <= n < |path| && !HasMeta(path[..n]) && IsMeta(path[n])
                          && ExtractPrefix(path) == if n == 0 then "/" else path[..n]
  {
    var i := FirstMeta(path);
    assert !IsMeta('/');
    if i < |path| {
      assert IsMeta(path[i]) && path[i] in path && !HasMeta(path[..i]);
    }
  }

  // ---------- The handlers ----------

  /** The path value of the first match, if there is one. */
  function FirstPath(rule: RouteRule): Option<string> {
    if |rule.matches| > 0 && rule.matches[0].path.Some? then rule.matches[0].path.value.value else None
  }

  predicate IsRegexRule(rule: RouteRule) {
    FirstPath(rule).Some? && HasMeta(FirstPath(rule).value)
  }

  /** The first match as a prefix match. */
  function AsPrefix(rule: RouteRule): RouteRule
    requires IsRegexRule(rule)
  {
    var path := HTTPPathMatch(Some(PathPrefix), Some(ExtractPrefix(FirstPath(rule).value)));
    rule.(matches := rule.matches[0 := rule.matches[0].(path := Some(path))])
  }

  function Rewritten(rule: RouteRule, replacement: string): RouteRule {
    rule.(filters := Upsert(rule.filters, URLRewriteType, f => Modify(RewritePrefix(replacement), f)))
  }

  /** `handleRewriteTarget` on one rule. */
  function RewriteRule(rule: RouteRule, target: string): RouteRule {
    if !HasReference(target) then
      var r := Rewritten(rule, target);
      if IsRegexRule(rule) then AsPrefix(r) else r
    else if IsRegexRule(rule) then AsPrefix(Rewritten(rule, DetermineReplacementPath(target)))
    else rule
  }

  function RewriteRules(rules: seq<RouteRule>, target: string): (r: seq<RouteRule>)
    ensures |r| == |rules|
    ensures forall i | 0 <= i < |rules| :: r[i] == RewriteRule(rules[i], target)
  {
    seq(|rules|, i requires 0 <= i < |rules| => RewriteRule(rules[i], target))
  }

  function RewriteAnnotation(a: Annotation): Annotation {
    if HasReference(a.value) then a.RegisterIssue(Issue(NGINXRewriteTargetCaptureGroups, None)).SetStatus(Warning)
    else a.SetStatus(Completed)
  }

  /** `handleRewriteTarget`. */
  method HandleRewriteTarget(routeCtx: HTTPRouteContext, annotationCtx: IngressAnnotationContext)
    modifies routeCtx`route, annotationCtx`status, annotationCtx`issues
    ensures routeCtx.route
         == old(routeCtx.route).(rules := RewriteRules(old(routeCtx.route.rules), annotationCtx.value))
    ensures annotationCtx.View() == RewriteAnnotation(old(annotationCtx.View()))
  {
    var target := annotationCtx.value;
    var hasCaptureGroups := HasReference(target);
    ghost var was := routeCtx.route.rules;
    var rules := routeCtx.route.rules;
    for ruleIdx := 0 to |rules|
      invariant unchanged(routeCtx) && unchanged(annotationCtx) && |rules| == |was|
      invariant forall i | 0 <= i < ruleIdx :: rules[i] == RewriteRule(was[i], target)
      invariant forall i | ruleIdx <= i < |rules| :: rules[i] == was[i]
    {
      var rule := RewriteOne(rules[ruleIdx], target, hasCaptureGroups);
      rules := rules[ruleIdx := rule];
    }
    assert rules == RewriteRules(was, target);
    routeCtx.route := routeCtx.route.(rules := rules);
    if hasCaptureGroups {
      annotationCtx.RegisterIssue(Issue(NGINXRewriteTargetCaptureGroups, None));
      annotationCtx.SetStatus(Warning);
    } else {
      annotationCtx.SetStatus(Completed);
    }
  }

  /** The body of the rule loop. */
  method RewriteOne(rule: RouteRule, target: string, hasCaptureGroups: bool) returns (r: RouteRule)
    requires hasCaptureGroups == HasReference(target)
    ensures r == RewriteRule(rule, target)
  {
    hide HasReference;
    hide HasMeta;
    hide Modify;
    hide DetermineReplacementPath;
    hide ExtractPrefix;
    var isRegexPath, pathValue := false, "";
    if |rule.matches| > 0 && rule.matches[0].path.Some? && rule.matches[0].path.value.value.Some? {
      pathValue := rule.matches[0].path.value.value.value;
      isRegexPath := HasMeta(pathValue);
    }
    if hasCaptureGroups && !isRegexPath {
      return rule;
    }
    var replacementPath := target;
    if hasCaptureGroups && isRegexPath {
      replacementPath := DetermineReplacementPath(target);
    }
    var filters := InsertRewrite(rule.filters, replacementPath);
    r := rule.(filters := filters);
    if isRegexPath && |r.matches| > 0 && r.matches[0].path.Some? {
      var path := HTTPPathMatch(Some(PathPrefix), Some(ExtractPrefix(pathValue)));
      r := r.(matches := r.matches[0 := r.matches[0].(path := Some(path))]);
    }
  }

  /** The filter loop: change the first URL rewrite, or add one. */
  method InsertRewrite(filters: seq<Filter>, replacementPath: string) returns (r: seq<Filter>)
    ensures r == Upsert(filters, URLRewriteType, f => Modify(RewritePrefix(replacementPath), f))
  {
    for j := 0 to |filters|
      invariant forall k | 0 <= k < j :: filters[k].filterType != URLRewriteType
    {
      if filters[j].filterType == URLRewriteType {
        assert IndexOf(filters, URLRewriteType) == j;
        var rewrite := filters[j].urlRewrite.GetOr(URLRewrite(None, None));
        var path := rewrite.path.GetOr(PathModifier(Unset, None, None));
        path := path.(prefixMatch := Some(replacementPath), modifierType := ReplacePrefixMatch);
        return filters[j := filters[j].(urlRewrite := Some(rewrite.(path := Some(path))))];
      }
    }
    assert IndexOf(filters, URLRewriteType) == |filters|;
    var path := PathModifier(ReplacePrefixMatch, None, Some(replacementPath));
    r := filters + [Filter(URLRewriteType, Some(URLRewrite(None, Some(path))), None, None, None)];
  }

  /** The status of a fresh annotation: a warning with its issue for a target with a dollar sign before a digit. */
  lemma RewriteStatus(a: Annotation)
    requires a.status == NotStarted && a.issues == []
    ensures var captures := exists i | 0 <= i < |a.value| - 1 :: a.value[i] == '$' && '0' <= a.value[i + 1] <= '9';
            RewriteAnnotation(a) == if captures then
                                      a.(status := Warning, issues := [Issue(NGINXRewriteTargetCaptureGroups, None)])
                                    else a.(status := Completed)
  {
    assert HasReference(a.value) <==>
             exists i | 0 <= i < |a.value| - 1 :: a.value[i] == '$' && '0' <= a.value[i + 1] <= '9' by {
      if i :| 0 <= i < |a.value| - 1 && a.value[i] == '$' && '0' <= a.value[i + 1] <= '9' {
        assert ReferenceAt(a.value, i);
      }
    }
  }

  // ---------- What a rewrite leaves behind ----------

  /** The first URL rewrite of a rule, or a new one behind the other filters, replaces the matched prefix by the given
      path; what it says besides stays, and so do the other filters. */
  predicate ReplacesPrefix(before: seq<Filter>, after: seq<Filter>, replacement: string) {
    var i := IndexOf(before, URLRewriteType);
    && |after| == (if i < |before| then |before| else |before| + 1)
    && IndexOf(after, URLRewriteType) == i
    && (forall j | 0 <= j < |before| && j != i :: after[j] == before[j])
    && after[i].urlRewrite.Some?
    && after[i].urlRewrite.value.path.Some?
    && after[i].urlRewrite.value.path.value.modifierType == ReplacePrefixMatch
    && after[i].urlRewrite.value.path.value.prefixMatch == Some(replacement)
    && (i < |before| && before[i].urlRewrite.Some? ==>
          after[i].urlRewrite.value.hostname == before[i].urlRewrite.value.hostname)
  }

  lemma RewrittenReplaces(rule: RouteRule, replacement: string)
    ensures ReplacesPrefix(rule.filters, Rewritten(rule, replacement).filters, replacement)
  {
    var i, after := IndexOf(rule.filters, URLRewriteType), Rewritten(rule, replacement).filters;
    assert after[i].filterType == URLRewriteType;
    assert forall j | 0 <= j < i :: after[j].filterType != URLRewriteType;
  }

  /** What a target stands for: itself without references; else what is left when they are taken out, or "/" when
      that is nothing; and "/" for a whole path captured by "/$1" or "/$2". */
  ghost function StaticTarget(target: string): string {
    if forall i | 0 <= i < |target| :: !ReferenceAt(target, i) then target
    else if TrimSpace(target) in {"/$1", "/$2"} || Unreferenced(target, 0) == "" then "/"
    else Unreferenced(target, 0)
  }

  /** After the rewrite a rule whose path was a regular expression matches the maximal plain prefix, and replaces it by
      what the target stands for, which holds no reference. All else in the rule is as it was. */
  lemma RegexRuleIsRewritten(rule: RouteRule, target: string)
    requires IsRegexRule(rule)
    ensures var r := RewriteRule(rule, target);
            var prefix := HTTPPathMatch(Some(PathPrefix), Some(ExtractPrefix(FirstPath(rule).value)));
            && r.matches == rule.matches[0 := HTTPRouteMatch(Some(prefix))]
            && r.backendRefs == rule.backendRefs
            && ReplacesPrefix(rule.filters, r.filters, StaticTarget(target))
            && !HasReference(StaticTarget(target))
  {
    hide HasMeta;
    hide ExtractPrefix;
    hide TrimSpace;
    hide Strip;
    hide Unreferenced;
    hide ReplacesPrefix;
    hide Upsert;
    StripIsExact(target);
    ReplacementIsStatic(target);
    RewrittenReplaces(rule, StaticTarget(target));
  }

  /** A rule whose path is plain keeps its match and its backends. A target with a reference leaves it as it is, and one
      without replaces the prefix by itself. */
  lemma PlainRuleKeepsMatch(rule: RouteRule, target: string)
    requires !IsRegexRule(rule)
    ensures var r := RewriteRule(rule, target);
            && r.matches == rule.matches && r.backendRefs == rule.backendRefs
            && if HasReference(target) then r == rule else ReplacesPrefix(rule.filters, r.filters, target)
  {
    hide HasMeta;
    hide HasReference;
    RewrittenReplaces(rule, target);
  }

  lemma RewrittenTwice(rule: RouteRule, replacement: string)
    ensures Rewritten(Rewritten(rule, replacement), replacement) == Rewritten(rule, replacement)
  {
    var i := IndexOf(rule.filters, URLRewriteType);
    var r := Rewritten(rule, replacement);
    assert IndexOf(r.filters, URLRewriteType) == i;
  }

  lemma RewriteRuleTwice(rule: RouteRule, target: string)
    ensures RewriteRule(RewriteRule(rule, target), target) == RewriteRule(rule, target)
  {
    hide HasReference;
    hide HasMeta;
    hide ExtractPrefix;
    hide Rewritten;
    RewrittenTwice(rule, target);
    RewrittenKeepsMatches(rule, target);
    RewrittenKeepsMatches(rule, DetermineReplacementPath(target));
    if IsRegexRule(rule) {
      PrefixIsMaximal(FirstPath(rule).value);
      AsPrefixOfRewritten(rule, target);
    }
  }

  lemma RewrittenKeepsMatches(rule: RouteRule, replacement: string)
    ensures Rewritten(rule, replacement).matches == rule.matches
  {
  }

  lemma AsPrefixOfRewritten(rule: RouteRule, replacement: string)
    requires IsRegexRule(rule)
    ensures Rewritten(AsPrefix(Rewritten(rule, replacement)), replacement) == AsPrefix(Rewritten(rule, replacement))
  {
    RewrittenTwice(rule, replacement);
  }

  /** Running the handler again changes nothing in the whole route. */
  lemma RewriteIsIdempotent(rules: seq<RouteRule>, target: string)
    ensures RewriteRules(RewriteRules(rules, target), target) == RewriteRules(rules, target)
  {
    hide RewriteRule;
    forall i | 0 <= i < |rules|
      ensures RewriteRule(RewriteRule(rules[i], target), target) == RewriteRule(rules[i], target)
    {
      RewriteRuleTwice(rules[i], target);
    }
  }

  // ---------- The use-regex handler ----------

  function RegexMatch(m: HTTPRouteMatch): HTTPRouteMatch {
    if m.path.Some? then HTTPRouteMatch(Some(m.path.value.(pathType := Some(RegularExpression)))) else m
  }

  function RegexMatches(matches: seq<HTTPRouteMatch>): (r: seq<HTTPRouteMatch>)
    ensures |r| == |matches|
    ensures forall j | 0 <= j < |matches| :: r[j] == RegexMatch(matches[j])
  {
    seq(|matches|, j requires 0 <= j < |matches| => RegexMatch(matches[j]))
  }

  function RegexRule(rule: RouteRule): RouteRule {
    rule.(matches := RegexMatches(rule.matches))
  }

  function RegexRules(rules: seq<RouteRule>): (r: seq<RouteRule>)
    ensures |r| == |rules|
    ensures forall i | 0 <= i < |rules| :: r[i] == RegexRule(rules[i])
  {
    seq(|rules|, i requires 0 <= i < |rules| => RegexRule(rules[i]))
  }

  /** `handleUseRegex`. */
  method HandleUseRegex(routeCtx: HTTPRouteContext, annotationCtx: IngressAnnotationContext) returns (failed: bool)
    modifies routeCtx`route, annotationCtx`status, annotationCtx`issues
    ensures failed <==> ParseBool(annotationCtx.value).None?
    ensures routeCtx.route ==
            if ParseBool(annotationCtx.value) == Some(true)
            then old(routeCtx.route).(rules := RegexRules(old(routeCtx.route.rules)))
            else old(routeCtx.route)
    ensures annotationCtx.View() ==
            match ParseBool(annotationCtx.value)
            case None => old(annotationCtx.View()).RegisterIssue(Issue(InvalidAnnotationValue, None))
            case Some(false) => old(annotationCtx.View()).SetStatus(Completed)
            case Some(true) =>
              old(annotationCtx.View()).RegisterIssue(Issue(NGINXUseRegexLimitedSupport, None)).SetStatus(Warning)
  {
    hide Next;
    var useRegex := ParseBool(annotationCtx.value);
    if useRegex.None? {
      annotationCtx.RegisterIssue(Issue(InvalidAnnotationValue, None));
      return true;
    }
    failed := false;
    if !useRegex.value {
      annotationCtx.SetStatus(Completed);
      return;
    }
    var was := routeCtx.route.rules;
    var rules := was;
    for i := 0 to |rules|
      invariant |rules| == |was|
      invariant forall k | 0 <= k < |was| :: rules[k] == if k < i then RegexRules(was)[k] else was[k]
    {
      for j := 0 to |rules[i].matches|
        invariant |rules| == |was| && |rules[i].matches| == |was[i].matches|
        invariant forall k | 0 <= k < |was| && k != i :: rules[k] == if k < i then RegexRules(was)[k] else was[k]
        invariant rules[i] == was[i].(matches := rules[i].matches)
        invariant forall k | 0 <= k < |was[i].matches| ::
                    rules[i].matches[k] == if k < j then RegexMatch(was[i].matches[k]) else was[i].matches[k]
      {
        var m := rules[i].matches[j];
        if m.path.Some? {
          var path := m.path.value.(pathType := Some(RegularExpression));
          rules := rules[i := rules[i].(matches := rules[i].matches[j := m.(path := Some(path))])];
        }
      }
      assert rules[i].matches == RegexMatches(was[i].matches);
    }
    assert rules == RegexRules(was);
    routeCtx.route := routeCtx.route.(rules := rules);
    annotationCtx.RegisterIssue(Issue(NGINXUseRegexLimitedSupport, None));
    annotationCtx.SetStatus(Warning);
  }

  /** Go visits the annotations in any order, and these two do not commute: on a rule whose path is a regular expression
      the later one decides the type of the match. On every other rule the order makes no difference. */
  lemma OrderMattersExactly(rules: seq<RouteRule>, target: string)
    ensures RewriteRules(RegexRules(rules), target) == RegexRules(RewriteRules(rules, target))
       <==> forall r | r in rules :: !IsRegexRule(r)
  {
    hide HasReference;
    hide HasMeta;
    hide ExtractPrefix;
    hide Upsert;
    hide DetermineReplacementPath;
    var a, b := RewriteRules(RegexRules(rules), target), RegexRules(RewriteRules(rules, target));
    forall i | 0 <= i < |rules| ensures a[i] == b[i] <==> !IsRegexRule(rules[i]) {
      OrderOnOneRule(rules[i], target);
    }
    if forall r | r in rules :: !IsRegexRule(r) {
      assert forall i | 0 <= i < |rules| :: rules[i] in rules;
    } else {
      var i :| 0 <= i < |rules| && IsRegexRule(rules[i]);
      assert a[i] != b[i];
    }
  }

  lemma OrderOnOneRule(rule: RouteRule, target: string)
    ensures RewriteRule(RegexRule(rule), target) == RegexRule(RewriteRule(rule, target)) <==> !IsRegexRule(rule)
  {
    hide HasReference;
    hide HasMeta;
    hide ExtractPrefix;
    hide Upsert;
    hide DetermineReplacementPath;
    if IsRegexRule(rule) {
      assert RewriteRule(RegexRule(rule), target).matches[0].path.value.pathType == Some(PathPrefix);
      assert RegexRule(RewriteRule(rule, target)).matches[0].path.value.pathType == Some(RegularExpression);
    } else {
      assert !IsRegexRule(RegexRule(rule));
    }
  }
}
