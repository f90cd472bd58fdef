/**
 * The pre-tool-use decision engine: rules compiled from a policy
 * dictionary, first-match-wins evaluation of a shell command against the
 * command rules, and escalation of a matched rule's action by the
 * severity thresholds on the order allow < ask < deny.
 */
module DecisionApi {
  import opened Wrappers
  import opened Json
  import opened Strings
  import opened TagMatching

  const DefaultReason: string := "未提供原因"
  const NoMatchReason: string := "No matching security rules"
  const DefaultTool: string := "unknown"

  /** The thresholds used when the policy gives none. */
  const DefaultSeverityThresholds: Json := JObj([
    ("critical", JStr("deny")),
    ("high", JStr("ask")),
    ("medium", JStr("ask")),
    ("low", JStr("allow"))
  ])

  /** A compiled rule. `pattern` is the source of the compiled regular expression, if any. */
  datatype EnhancedRule = EnhancedRule(
    ruleType: string,
    action: string,
    pattern: Option<string>,
    reason: string,
    tags: Json,
    severity: string)

  /** The `matched_rule` entry of a decision. */
  datatype MatchedRule = MatchedRule(action: string, severity: string, tags: Json, finalAction: string)

  /**
   * The dictionary `evaluate_command` returns; `matchedRule` and
   * `matchingTags` are the keys only a matched decision has.
   */
  datatype Response = Response(
    permissionDecision: string,
    reason: string,
    matchedRule: Option<MatchedRule>,
    matchingTags: Option<seq<string>>,
    tool: string)

  /** What a decision is evaluated against besides the rules: the tag table, the search and the thresholds. */
  datatype Env = Env(table: Table, search: Searcher, thresholds: Json)

  // ---------------------------------------------------------------- compiling

  /** `str(item.get(key, default))` on the entries of a rule item. */
  function FieldStr(fields: seq<(string, Json)>, key: string, default: string): (r: string)
    ensures Lookup(fields, key).None? ==> r == default
    ensures Lookup(fields, key).Some? && Lookup(fields, key).value.JStr? ==> r == Lookup(fields, key).value.s
  {
    match Lookup(fields, key)
    case Some(v) => PyStr(v)
    case None => default
  }

  /**
   * The body of the `try` in `_compile_rules` for one item: `None` when it
   * raises (the item is not a dict, or its pattern does not compile), else
   * the rule with its defaults filled in.
   */
  function CompileRule(item: Json, compiles: Compiles): (r: Option<EnhancedRule>)
    ensures r.Some? <==> (item.JObj? &&
      (Lookup(item.fields, "pattern").None? || compiles(PyStr(Lookup(item.fields, "pattern").value))))
  {
    if !item.JObj? then None
    else
      var fields := item.fields;
      var pattern := match Lookup(fields, "pattern")
        case Some(p) => Some(PyStr(p))
        case None => None;
      if pattern.Some? && !compiles(pattern.value) then None
      else Some(EnhancedRule(
        FieldStr(fields, "type", "command"),
        FieldStr(fields, "action", "allow"),
        pattern,
        FieldStr(fields, "reason", DefaultReason),
        match Lookup(fields, "tags") case Some(t) => t case None => JList([]),
        FieldStr(fields, "severity", "medium")))
  }

  /**
   * A compiled rule takes each field from the item, converted with `str`,
   * and the default when the item lacks it: type "command", action "allow",
   * severity "medium", the default reason, no pattern and no tags.
   */
  lemma CompileRuleFields(item: Json, compiles: Compiles)
    requires CompileRule(item, compiles).Some?
    ensures var rule := CompileRule(item, compiles).value;
      && rule.ruleType == FieldStr(item.fields, "type", "command")
      && rule.action == FieldStr(item.fields, "action", "allow")
      && rule.reason == FieldStr(item.fields, "reason", DefaultReason)
      && rule.severity == FieldStr(item.fields, "severity", "medium")
      && (Lookup(item.fields, "pattern").None? ==> rule.pattern.None?)
      && (Lookup(item.fields, "pattern").Some? ==> rule.pattern == Some(PyStr(Lookup(item.fields, "pattern").value)))
      && (Lookup(item.fields, "tags").None? ==> rule.tags == JList([]))
      && (Lookup(item.fields, "tags").Some? ==> rule.tags == Lookup(item.fields, "tags").value)
  {
  }

  /** What one item adds to the compiled list: its rule, or nothing when compiling it raised. */
  function Contribution(item: Json, compiles: Compiles): seq<EnhancedRule>
  {
    match CompileRule(item, compiles)
    case Some(rule) => [rule]
    case None => []
  }

  /** The rules `_compile_rules` keeps from the configured items, in order. */
  function CompiledRules(items: seq<Json>, compiles: Compiles): (r: seq<EnhancedRule>)
    ensures |r| <= |items|
  {
    if items == [] then []
    else Contribution(items[0], compiles) + CompiledRules(items[1..], compiles)
  }

  /** A rule is compiled exactly when some item compiles to it. */
  lemma {:induction false} CompiledRulesMembers(items: seq<Json>, compiles: Compiles)
    ensures forall x :: x in CompiledRules(items, compiles) <==>
      exists i :: 0 <= i < |items| && CompileRule(items[i], compiles) == Some(x)
  {
    if items != [] {
      CompiledRulesMembers(items[1..], compiles);
      assert forall i :: 1 <= i < |items| ==> items[i] == items[1..][i - 1];
      forall x | exists i :: 0 <= i < |items| && CompileRule(items[i], compiles) == Some(x)
        ensures x in CompiledRules(items, compiles)
      {
        var i :| 0 <= i < |items| && CompileRule(items[i], compiles) == Some(x);
        if i > 0 {
          assert CompileRule(items[1..][i - 1], compiles) == Some(x);
        }
      }
    }
  }

  /** Compiling a concatenation compiles each part: items do not affect one another. */
  lemma {:induction false} CompiledRulesAppend(a: seq<Json>, b: seq<Json>, compiles: Compiles)
    ensures CompiledRules(a + b, compiles) == CompiledRules(a, compiles) + CompiledRules(b, compiles)
  {
    if a == [] {
      assert a + b == b;
    } else {
      assert (a + b)[0] == a[0] && (a + b)[1..] == a[1..] + b;
      CompiledRulesAppend(a[1..], b, compiles);
    }
  }

  /** An item that fails to compile is dropped and every other item is kept, in order. */
  lemma BadRuleDropped(before: seq<Json>, bad: Json, after: seq<Json>, compiles: Compiles)
    requires CompileRule(bad, compiles).None?
    ensures CompiledRules(before + [bad] + after, compiles)
         == CompiledRules(before, compiles) + CompiledRules(after, compiles)
  {
    CompiledRulesAppend(before + [bad], after, compiles);
    CompiledRulesAppend(before, [bad], compiles);
  }

  /** An item that compiles contributes its rule at its own place. */
  lemma GoodRuleKept(before: seq<Json>, good: Json, after: seq<Json>, compiles: Compiles)
    requires CompileRule(good, compiles).Some?
    ensures CompiledRules(before + [good] + after, compiles)
         == CompiledRules(before, compiles) + [CompileRule(good, compiles).value] + CompiledRules(after, compiles)
  {
    CompiledRulesAppend(before + [good], after, compiles);
    CompiledRulesAppend(before, [good], compiles);
  }

  /** The items of `policy["pre_tool_use"]["rules"]`, or the exception reaching them raises. */
  function RulesConfig(policy: Json): Result<seq<Json>, PyError>
  {
    match PyGet(policy, "pre_tool_use", JObj([]))
    case Failure(e) => Failure(e)
    case Success(pre) =>
      match PyGet(pre, "rules", JList([]))
      case Failure(e) => Failure(e)
      case Success(cfg) => Iterate(cfg)
  }

  /** The loop of `_compile_rules`: each item that compiles is appended, the others are skipped. */
  method CompileItems(items: seq<Json>, compiles: Compiles) returns (compiled: seq<EnhancedRule>)
    ensures compiled == CompiledRules(items, compiles)
  {
    compiled := [];
    var i := 0;
    while i < |items|
      invariant 0 <= i <= |items|
      invariant compiled + CompiledRules(items[i..], compiles) == CompiledRules(items, compiles)
    {
      assert items[i..][0] == items[i] && items[i..][1..] == items[i + 1..];
      var rule := CompileRule(items[i], compiles);
      if rule.Some? {
        compiled := compiled + [rule.value];
      }
      i := i + 1;
    }
  }

  /** `_compile_rules`: reading the configured items raises when the policy is malformed. */
  method CompileRules(policy: Json, compiles: Compiles) returns (r: Result<seq<EnhancedRule>, PyError>)
    ensures r.Failure? <==> RulesConfig(policy).Failure?
    ensures r.Failure? ==> r.error == RulesConfig(policy).error
    ensures r.Success? ==> r.value == CompiledRules(RulesConfig(policy).value, compiles)
  {
    var cfg := RulesConfig(policy);
    if cfg.Failure? {
      return Failure(cfg.error);
    }
    var compiled := CompileItems(cfg.value, compiles);
    return Success(compiled);
  }

  // ---------------------------------------------------------------- escalation

  /** Restrictiveness on allow < ask < deny; any other action ranks with allow. */
  function Rank(action: string): nat
  {
    if action == "deny" then 2 else if action == "ask" then 1 else 0
  }

  /** The configured threshold for the severity is exactly `action`. */
  predicate ThresholdIs(thresholds: Json, severity: string, action: string)
  {
    thresholds.JObj? && Lookup(thresholds.fields, severity) == Some(JStr(action))
  }

  /**
   * `_resolve_action`: the more restrictive of the rule's action and the
   * severity's threshold, when that threshold is set and truthy.
   */
  function ResolveAction(ruleAction: string, severity: string, thresholds: Json): (r: Result<string, PyError>)
    ensures r.Failure? <==> !thresholds.JObj?
    ensures r.Success? && (ruleAction == "deny" || ThresholdIs(thresholds, severity, "deny")) ==> r.value == "deny"
    ensures (r.Success? && !(ruleAction == "deny" || ThresholdIs(thresholds, severity, "deny"))
      && (ruleAction == "ask" || ThresholdIs(thresholds, severity, "ask"))) ==> r.value == "ask"
    ensures r.Success? && !ThresholdIs(thresholds, severity, "deny") && !ThresholdIs(thresholds, severity, "ask")
      ==> r.value == ruleAction
    ensures r.Success? ==> Rank(r.value) >= Rank(ruleAction)
  {
    match PyGet(thresholds, severity, JNull)
    case Failure(e) => Failure(e)
    case Success(threshold) =>
      if Truthy(threshold) then
        if ruleAction == "deny" || threshold == JStr("deny") then Success("deny")
        else if ruleAction == "ask" || threshold == JStr("ask") then Success("ask")
        else Success(ruleAction)
      else Success(ruleAction)
  }

  /** With no threshold (or an empty one) for the severity, the rule's action stands. */
  lemma NoThresholdKeepsAction(ruleAction: string, severity: string, thresholds: Json)
    requires thresholds.JObj?
    requires Lookup(thresholds.fields, severity).None? || !Truthy(Lookup(thresholds.fields, severity).value)
    ensures ResolveAction(ruleAction, severity, thresholds) == Success(ruleAction)
  {
  }

  // ---------------------------------------------------------------- matching

  /** `matches_command`: the rule's pattern searches the command, or one of its tags matches. */
  function RuleMatches(rule: EnhancedRule, command: string, table: Table, search: Searcher): (r: Result<bool, PyError>)
    ensures rule.pattern.Some? && search(rule.pattern.value, command) ==> r == Success(true)
    ensures !(rule.pattern.Some? && search(rule.pattern.value, command)) ==> r == TagsMatch(command, rule.tags, table, search)
  {
    if rule.pattern.Some? && search(rule.pattern.value, command) then Success(true)
    else TagsMatch(command, rule.tags, table, search)
  }

  /** A rule with neither a pattern nor tags never matches. */
  lemma BareRuleNeverMatches(rule: EnhancedRule, command: string, table: Table, search: Searcher)
    requires rule.pattern.None? && rule.tags == JList([])
    ensures RuleMatches(rule, command, table, search) == Success(false)
  {
  }

  /**
   * On a list of tag names, `matches_any` holds exactly when one listed tag
   * is in the table and one of its patterns searches the text; unknown
   * names are ignored and the empty list never matches.
   */
  lemma {:induction false} MatchesAnyOnNames(text: string, names: seq<string>, table: Table, search: Searcher)
    ensures TagsMatch(text, JList(seq(|names|, i requires 0 <= i < |names| => JStr(names[i]))), table, search)
         == Success(exists i :: 0 <= i < |names| && HasTag(table, names[i]) && AnySearches(Find(table, names[i]).value, text, search))
  {
    var items := seq(|names|, i requires 0 <= i < |names| => JStr(names[i]));
    assert forall k :: 0 <= k < |items| ==> Hashable(items[k]);
    assert forall k :: 0 <= k < |items| ==> items[k].s == names[k];
  }

  /** `matches_command` as a method, calling `matches_any`. */
  method MatchesCommand(rule: EnhancedRule, command: string, matcher: TagMatcher) returns (r: Result<bool, PyError>)
    ensures r == RuleMatches(rule, command, matcher.patterns, matcher.search)
  {
    if rule.pattern.Some? && matcher.search(rule.pattern.value, command) {
      return Success(true);
    }
    r := matcher.MatchesAny(command, rule.tags);
  }

  // ---------------------------------------------------------------- evaluation

  /** The rule is a command rule and matches. */
  predicate Fires(rule: EnhancedRule, env: Env, command: string)
  {
    rule.ruleType == "command" && RuleMatches(rule, command, env.table, env.search) == Success(true)
  }

  /** The rule is skipped: not a command rule, or a command rule that does not match. */
  predicate Passes(rule: EnhancedRule, env: Env, command: string)
  {
    rule.ruleType != "command" || RuleMatches(rule, command, env.table, env.search) == Success(false)
  }

  function DefaultResponse(tool: string): Response
  {
    Response("allow", NoMatchReason, None, None, tool)
  }

  /** The decision built from the first matching rule. */
  function Respond(rule: EnhancedRule, env: Env, command: string, tool: string): (r: Result<Response, PyError>)
    ensures r.Success? ==> r.value.matchedRule.Some? && r.value.reason == rule.reason && r.value.tool == tool
    ensures r.Success? ==> r.value.matchedRule.value.action == rule.action
    ensures r.Success? ==> r.value.permissionDecision == r.value.matchedRule.value.finalAction
    ensures r.Success? ==> Success(r.value.permissionDecision) == ResolveAction(rule.action, rule.severity, env.thresholds)
    ensures r.Success? ==> r.value.matchedRule.value.severity == rule.severity && r.value.matchedRule.value.tags == rule.tags
    ensures r.Success? ==> r.value.matchingTags == Some(MatchingTags(env.table, command, env.search))
    ensures r.Failure? <==> !env.thresholds.JObj?
  {
    match ResolveAction(rule.action, rule.severity, env.thresholds)
    case Failure(e) => Failure(e)
    case Success(final) =>
      Success(Response(
        final,
        rule.reason,
        Some(MatchedRule(rule.action, rule.severity, rule.tags, final)),
        Some(MatchingTags(env.table, command, env.search)),
        tool))
  }

  /** `evaluate_command` over a list of rules. */
  function Evaluate(rules: seq<EnhancedRule>, env: Env, command: string, tool: string): Result<Response, PyError>
  {
    if rules == [] then Success(DefaultResponse(tool))
    else if rules[0].ruleType == "command" then
      match RuleMatches(rules[0], command, env.table, env.search)
      case Failure(e) => Failure(e)
      case Success(matched) =>
        if matched then Respond(rules[0], env, command, tool)
        else Evaluate(rules[1..], env, command, tool)
    else Evaluate(rules[1..], env, command, tool)
  }

  /** The first firing rule decides; what follows it never matters. */
  lemma {:induction false} FirstMatchWins(rules: seq<EnhancedRule>, k: nat, env: Env, command: string, tool: string)
    requires k < |rules| && Fires(rules[k], env, command)
    requires forall j :: 0 <= j < k ==> Passes(rules[j], env, command)
    ensures Evaluate(rules, env, command, tool) == Respond(rules[k], env, command, tool)
  {
    if k > 0 {
      assert Passes(rules[0], env, command);
      FirstMatchWins(rules[1..], k - 1, env, command, tool);
    }
  }

  /** When no command rule matches, the decision is the default allow. */
  lemma {:induction false} DefaultAllow(rules: seq<EnhancedRule>, env: Env, command: string, tool: string)
    requires forall j :: 0 <= j < |rules| ==> Passes(rules[j], env, command)
    ensures Evaluate(rules, env, command, tool) == Success(DefaultResponse(tool))
    ensures DefaultResponse(tool).permissionDecision == "allow"
    ensures DefaultResponse(tool).reason == NoMatchReason && DefaultResponse(tool).matchedRule.None?
  {
    if rules != [] {
      assert Passes(rules[0], env, command);
      DefaultAllow(rules[1..], env, command, tool);
    }
  }

  /** A decision without a matched rule arises only when no command rule matched. */
  lemma {:induction false} UnmatchedMeansNoRuleFired(rules: seq<EnhancedRule>, env: Env, command: string, tool: string)
    requires Evaluate(rules, env, command, tool).Success?
    requires Evaluate(rules, env, command, tool).value.matchedRule.None?
    ensures forall j :: 0 <= j < |rules| ==> Passes(rules[j], env, command)
    ensures Evaluate(rules, env, command, tool) == Success(DefaultResponse(tool))
  {
    if rules != [] {
      UnmatchedMeansNoRuleFired(rules[1..], env, command, tool);
      assert forall j :: 1 <= j < |rules| ==> rules[j] == rules[1..][j - 1];
    }
  }

  /** A decision with a matched rule comes from the first rule that fired. */
  lemma {:induction false} MatchedMeansFirstFired(rules: seq<EnhancedRule>, env: Env, command: string, tool: string)
      returns (k: nat)
    requires Evaluate(rules, env, command, tool).Success?
    requires Evaluate(rules, env, command, tool).value.matchedRule.Some?
    ensures k < |rules| && Fires(rules[k], env, command)
    ensures forall j :: 0 <= j < k ==> Passes(rules[j], env, command)
    ensures Evaluate(rules, env, command, tool) == Respond(rules[k], env, command, tool)
  {
    if rules[0].ruleType == "command" && RuleMatches(rules[0], command, env.table, env.search) == Success(true) {
      k := 0;
    } else {
      var k' := MatchedMeansFirstFired(rules[1..], env, command, tool);
      k := k' + 1;
      assert forall j :: 1 <= j < |rules| ==> rules[j] == rules[1..][j - 1];
    }
  }

  /**
   * Escalation is monotone: the decision is never less restrictive than the
   * matched rule's own action, and a denying rule always yields deny.
   */
  lemma EscalationMonotone(rules: seq<EnhancedRule>, env: Env, command: string, tool: string)
    requires Evaluate(rules, env, command, tool).Success?
    requires Evaluate(rules, env, command, tool).value.matchedRule.Some?
    ensures var r := Evaluate(rules, env, command, tool).value;
      Rank(r.permissionDecision) >= Rank(r.matchedRule.value.action)
      && (r.matchedRule.value.action == "deny" ==> r.permissionDecision == "deny")
  {
    var k := MatchedMeansFirstFired(rules, env, command, tool);
  }

  /** The command rules, in order. */
  function CommandRules(rules: seq<EnhancedRule>): (r: seq<EnhancedRule>)
    ensures forall j :: 0 <= j < |r| ==> r[j].ruleType == "command"
    ensures forall x :: x in r <==> x in rules && x.ruleType == "command"
    ensures |r| <= |rules|
  {
    if rules == [] then []
    else (if rules[0].ruleType == "command" then [rules[0]] else []) + CommandRules(rules[1..])
  }

  /** The tags reported with a matched decision list each matching tag once, in table order. */
  lemma MatchedTagsUnique(rules: seq<EnhancedRule>, env: Env, command: string, tool: string)
    requires UniqueTags(env.table)
    requires Evaluate(rules, env, command, tool).Success?
    requires Evaluate(rules, env, command, tool).value.matchedRule.Some?
    ensures var r := Evaluate(rules, env, command, tool).value;
      r.matchingTags.Some? && NoDuplicates(r.matchingTags.value)
      && Subsequence(r.matchingTags.value, TagsOf(env.table))
      && forall x :: x in r.matchingTags.value <==>
           exists i :: 0 <= i < |env.table| && env.table[i].tag == x && AnySearches(env.table[i].patterns, command, env.search)
  {
    var k := MatchedMeansFirstFired(rules, env, command, tool);
    MatchingTagsOrder(env.table, command, env.search);
    MatchingTagsMembers(env.table, command, env.search);
  }

  /** Rules whose type is not "command" never affect the decision. */
  lemma {:induction false} NonCommandRulesIgnored(rules: seq<EnhancedRule>, env: Env, command: string, tool: string)
    ensures Evaluate(rules, env, command, tool) == Evaluate(CommandRules(rules), env, command, tool)
  {
    if rules != [] {
      NonCommandRulesIgnored(rules[1..], env, command, tool);
      var rest := CommandRules(rules[1..]);
      if rules[0].ruleType == "command" {
        var cr := [rules[0]] + rest;
        assert CommandRules(rules) == cr;
        assert cr[0] == rules[0] && cr[1..] == rest;
      } else {
        assert CommandRules(rules) == rest;
      }
    }
  }

  // ---------------------------------------------------------------- the engine

  /** `policy["pre_tool_use"]["severity_thresholds"]`, or the default thresholds. */
  function SeverityThresholdsOf(policy: Json): Result<Json, PyError>
  {
    match PyGet(policy, "pre_tool_use", JObj([]))
    case Failure(e) => Failure(e)
    case Success(pre) => PyGet(pre, "severity_thresholds", DefaultSeverityThresholds)
  }

  class EnhancedDecisionApi {
    const policy: Json
    const tagMatcher: TagMatcher
    const rules: seq<EnhancedRule>
    const severityThresholds: Json

    constructor (policy: Json, tagMatcher: TagMatcher, rules: seq<EnhancedRule>, severityThresholds: Json)
      ensures this.policy == policy && this.tagMatcher == tagMatcher
      ensures this.rules == rules && this.severityThresholds == severityThresholds
    {
      this.policy := policy;
      this.tagMatcher := tagMatcher;
      this.rules := rules;
      this.severityThresholds := severityThresholds;
    }

    ghost function Environment(): Env
      reads tagMatcher
    {
      Env(tagMatcher.patterns, tagMatcher.search, severityThresholds)
    }

    /** `evaluate_command`: the first matching command rule decides, else allow. */
    method EvaluateCommand(command: string, tool: string := DefaultTool) returns (r: Result<Response, PyError>)
      requires tagMatcher.Valid()
      ensures r == Evaluate(rules, Environment(), command, tool)
    {
      var env := Environment();
      var i := 0;
      while i < |rules|
        invariant 0 <= i <= |rules|
        invariant Evaluate(rules, env, command, tool) == Evaluate(rules[i..], env, command, tool)
      {
        var rule := rules[i];
        assert rules[i..][0] == rule && rules[i..][1..] == rules[i + 1..];
        if rule.ruleType == "command" {
          var matched := MatchesCommand(rule, command, tagMatcher);
          if matched.Failure? {
            return Failure(matched.error);
          }
          if matched.value {
            var finalAction := ResolveAction(rule.action, rule.severity, severityThresholds);
            if finalAction.Failure? {
              return Failure(finalAction.error);
            }
            var matchingTags := tagMatcher.GetMatchingTags(command);
            return Success(Response(
              finalAction.value,
              rule.reason,
              Some(MatchedRule(rule.action, rule.severity, rule.tags, finalAction.value)),
              Some(matchingTags),
              tool));
          }
        }
        i := i + 1;
      }
      return Success(DefaultResponse(tool));
    }
  }

  /**
   * `EnhancedDecisionAPI(policy)`: builds the tag matcher over the built-in
   * table, compiles the rules and reads the severity thresholds, raising
   * what those steps raise.
   */
  method NewEnhancedDecisionApi(policy: Json, search: Searcher, compiles: Compiles)
      returns (r: Result<EnhancedDecisionApi, PyError>)
    ensures !AllCompile(BuiltInTagPatterns, compiles) ==> r == Failure(PatternError)
    ensures AllCompile(BuiltInTagPatterns, compiles) && RulesConfig(policy).Failure? ==>
      r == Failure(RulesConfig(policy).error)
    ensures r.Success? <==> AllCompile(BuiltInTagPatterns, compiles) && RulesConfig(policy).Success?
    ensures r.Success? ==> fresh(r.value) && fresh(r.value.tagMatcher) && r.value.tagMatcher.Valid()
    ensures r.Success? ==> r.value.policy == policy
    ensures r.Success? ==> r.value.tagMatcher.patterns == BuiltInTagPatterns && r.value.tagMatcher.search == search
    ensures r.Success? ==> r.value.rules == CompiledRules(RulesConfig(policy).value, compiles)
    ensures r.Success? ==> Success(r.value.severityThresholds) == SeverityThresholdsOf(policy)
  {
    BuiltInTagsUnique();
    var matcher := NewTagMatcher(BuiltInTagPatterns, [], search, compiles);
    if matcher.Failure? {
      return Failure(matcher.error);
    }
    var rules := CompileRules(policy, compiles);
    if rules.Failure? {
      return Failure(rules.error);
    }
    var thresholds := SeverityThresholdsOf(policy);
    var api := new EnhancedDecisionApi(policy, matcher.value, rules.value, thresholds.value);
    return Success(api);
  }
}
