/**
 The spawn-time inspection of hook settings: is there a blocking Wisphive gate
 on `PreToolUse`, at which positions, and which other hooks would run.
 */
module Inspector {
  import opened Lists
  import opened Json
  import opened Orders
  import opened ShellQuote

  const HOOK_TIMEOUT_DEFAULT_SECS: nat := 3600
  const HOOK_TIMEOUT_MIN_SECS: nat := 10
  const HOOK_TIMEOUT_MAX_SECS: nat := 86_400
  const HOOK_TIMEOUT_MARGIN_SECS: nat := 100
  const CLAUDE_DEFAULT_HOOK_TIMEOUT_SECS: nat := 600

  function ClampConfig(value: nat, min: nat, max: nat): nat {
    if value < min then min else if value > max then max else value
  }

  function Distance(a: nat, b: nat): nat { if a < b then b - a else a - b }

  /** The daemon's approval timeout: the admissible number of seconds nearest to the configured one, or an hour. */
  function EffectiveHookTimeout(configured: Option<nat>): (secs: nat)
    ensures 10 <= secs <= 86_400 && (configured == None ==> secs == 3600)
    ensures configured.Some? ==>
      forall n :: 10 <= n <= 86_400 ==> Distance(secs, configured.value) <= Distance(n, configured.value)
  {
    ClampConfig(match configured case Some(n) => n case None => HOOK_TIMEOUT_DEFAULT_SECS,
                HOOK_TIMEOUT_MIN_SECS, HOOK_TIMEOUT_MAX_SECS)
  }

  /** A hundred seconds more, as far as 64 bits go. */
  function InstalledHookTimeout(daemonSecs: nat): (secs: nat)
    ensures secs <= U64_MAX && secs <= daemonSecs + 100 && (secs == daemonSecs + 100 || secs == U64_MAX)
  {
    if daemonSecs + HOOK_TIMEOUT_MARGIN_SECS > U64_MAX then U64_MAX else daemonSecs + HOOK_TIMEOUT_MARGIN_SECS
  }

  datatype Kind = Claude | Codex

  function ExpectedCommand(kind: Kind, path: string): string {
    match kind case Claude => Quote(path) case Codex => CodexCommand(path)
  }

  datatype Security = Security(gate: bool, foreign: seq<string>, gates: seq<(nat, nat)>)

  datatype Refused = Refused

  type Verdict<T> = Result<T, Refused>

  /** Everything about an inspection except the document. */
  datatype Audit = Audit(kind: Kind, daemonSecs: nat, expected: string)

  // ---------------------------------------------------------------------
  // Fields
  // ---------------------------------------------------------------------

  function OptionalBool(j: Json, field: string): Verdict<bool> {
    match Get(j, field)
    case None => Ok(false)
    case Some(Bool(b)) => Ok(b)
    case _ => Err(Refused)
  }

  function OptionalU64(j: Json, field: string): Verdict<Option<nat>> {
    match Get(j, field)
    case None => Ok(None)
    case Some(value) => if AsU64(value).Some? then Ok(AsU64(value)) else Err(Refused)
  }

  function OptionalString(j: Json, field: string): Verdict<Option<string>> {
    match Get(j, field)
    case None => Ok(None)
    case Some(Str(text)) => Ok(Some(text))
    case _ => Err(Refused)
  }

  /** The settings a rule and a hook share. */
  datatype Common = Common(disabled: bool, isAsync: bool, rewake: bool, condition: Option<string>, timeout: Option<nat>)

  function ParseCommon(kind: Kind, j: Json): Verdict<Common> {
    var disabled := OptionalBool(j, "disabled");
    var isAsync := OptionalBool(j, "async");
    var rewake := OptionalBool(j, "asyncRewake");
    var condition := OptionalString(j, "if");
    var timeout := OptionalU64(j, "timeout");
    if !j.Obj? || (kind.Claude? && "disabled" in j.fields)
       || disabled.Err? || isAsync.Err? || rewake.Err? || condition.Err? || timeout.Err?
    then Err(Refused)
    else Ok(Common(disabled.value, isAsync.value, rewake.value, condition.value, timeout.value))
  }

  datatype Rule = Rule(common: Common, matcher: Option<string>, hooks: seq<Json>)

  function ParseRule(kind: Kind, j: Json): Verdict<Rule> {
    var common := ParseCommon(kind, j);
    var matcher := OptionalString(j, "matcher");
    if common.Err? || matcher.Err? then Err(Refused)
    else
      match Get(j, "hooks")
      case Some(Arr(hooks)) => if hooks == [] then Err(Refused) else Ok(Rule(common.value, matcher.value, hooks))
      case _ => Err(Refused)
  }

  datatype Hook = Hook(common: Common, hookType: string, command: Option<string>)

  function ParseHook(kind: Kind, j: Json): Verdict<Hook> {
    var common := ParseCommon(kind, j);
    var command := OptionalString(j, "command");
    if common.Err? || GetString(j, "type").None? || command.Err? then Err(Refused)
    else if GetString(j, "type").value == "command" && command.value.None? then Err(Refused)
    else Ok(Hook(common.value, GetString(j, "type").value, command.value))
  }

  // ---------------------------------------------------------------------
  // One hook
  // ---------------------------------------------------------------------

  predicate Enabled(disableAll: bool, rule: Rule, hook: Hook) {
    !disableAll && !rule.common.disabled && !hook.common.disabled
  }

  predicate ExactCommand(audit: Audit, hook: Hook) {
    hook.hookType == "command" && hook.command == Some(audit.expected)
  }

  /** Matches every tool, waits for the answer and runs unconditionally. */
  predicate Blocking(rule: Rule, hook: Hook) {
    && rule.matcher == Some("")
    && !rule.common.isAsync && !hook.common.isAsync && !rule.common.rewake && !hook.common.rewake
    && rule.common.condition.None? && hook.common.condition.None?
  }

  function HookSeconds(rule: Rule, hook: Hook): nat {
    match hook.common.timeout
    case Some(n) => n
    case None =>
      match rule.common.timeout
      case Some(n) => n
      case None => CLAUDE_DEFAULT_HOOK_TIMEOUT_SECS
  }

  predicate OutlastsDaemon(audit: Audit, rule: Rule, hook: Hook) {
    audit.kind.Claude? ==> HookSeconds(rule, hook) > audit.daemonSecs
  }

  function Descriptor(hook: Hook): string {
    match hook.command
    case Some(command) => "<" + hook.hookType + " hook: " + command + ">"
    case None => "<" + hook.hookType + " hook>"
  }

  const PRE_TOOL_USE: string := "PreToolUse"

  function JudgeHook(audit: Audit, disableAll: bool, event: string, rule: Rule, at: (nat, nat), hook: Hook,
                     acc: Security): Verdict<Security>
  {
    var enabled := Enabled(disableAll, rule, hook);
    var exact := ExactCommand(audit, hook);
    if enabled && exact && event == PRE_TOOL_USE then
      if Blocking(rule, hook) && OutlastsDaemon(audit, rule, hook)
      then Ok(acc.(gate := true, gates := acc.gates + [at])) else Err(Refused)
    else if enabled && !exact && Descriptor(hook) !in acc.foreign
    then Ok(acc.(foreign := acc.foreign + [Descriptor(hook)]))
    else Ok(acc)
  }

  // ---------------------------------------------------------------------
  // The three nested loops, as folds over prefixes
  // ---------------------------------------------------------------------

  function InspectHooks(audit: Audit, disableAll: bool, event: string, index: nat, rule: Rule, hooks: seq<Json>,
                        acc: Security): Verdict<Security>
  {
    if hooks == [] then Ok(acc)
    else
      var n := |hooks| - 1;
      match InspectHooks(audit, disableAll, event, index, rule, hooks[..n], acc)
      case Err(_) => Err(Refused)
      case Ok(before) =>
        match ParseHook(audit.kind, hooks[n])
        case Err(_) => Err(Refused)
        case Ok(hook) => JudgeHook(audit, disableAll, event, rule, (index, n), hook, before)
  }

  function InspectRules(audit: Audit, disableAll: bool, event: string, rules: seq<Json>, acc: Security)
    : Verdict<Security>
  {
    if rules == [] then Ok(acc)
    else
      var n := |rules| - 1;
      match InspectRules(audit, disableAll, event, rules[..n], acc)
      case Err(_) => Err(Refused)
      case Ok(before) =>
        match ParseRule(audit.kind, rules[n])
        case Err(_) => Err(Refused)
        case Ok(rule) => InspectHooks(audit, disableAll, event, n, rule, rule.hooks, before)
  }

  function InspectEvents(audit: Audit, disableAll: bool, events: map<string, Json>, keys: seq<string>, acc: Security)
    : Verdict<Security>
    requires forall k :: k in keys ==> k in events
  {
    if keys == [] then Ok(acc)
    else
      var n := |keys| - 1;
      match InspectEvents(audit, disableAll, events, keys[..n], acc)
      case Err(_) => Err(Refused)
      case Ok(before) =>
        if !events[keys[n]].Arr? then Err(Refused)
        else InspectRules(audit, disableAll, keys[n], events[keys[n]].items, before)
  }

  const NOTHING_FOUND: Security := Security(false, [], [])

  function Inspect(audit: Audit, settings: Json): Verdict<Security> {
    var disableAll := OptionalBool(settings, "disableAllHooks");
    if !settings.Obj? || disableAll.Err? || (disableAll.value && audit.kind.Codex?) then Err(Refused)
    else
      match Get(settings, "hooks")
      case None => Ok(NOTHING_FOUND)
      case Some(Obj(events)) =>
        InspectEvents(audit, disableAll.value, events, SortedKeys(events.Keys), NOTHING_FOUND)
      case _ => Err(Refused)
  }

  lemma OnlyRefusal(v: Verdict<Security>)
    requires v.Err?
    ensures v == Err(Refused)
  {
    match v.error { case Refused => }
  }

  /** A refusal stands however much more is read. */
  lemma {:induction false} RefusalStands(
    audit: Audit, disableAll: bool, event: string, index: nat, rule: Rule, hooks: seq<Json>, acc: Security, i: nat)
    requires i <= |hooks| && InspectHooks(audit, disableAll, event, index, rule, hooks[..i], acc).Err?
    ensures InspectHooks(audit, disableAll, event, index, rule, hooks, acc) == Err(Refused)
  {
    hide ParseHook, JudgeHook;
    if i == |hooks| {
      assert hooks[..i] == hooks;
      OnlyRefusal(InspectHooks(audit, disableAll, event, index, rule, hooks, acc));
    } else {
      assert hooks[..|hooks| - 1][..i] == hooks[..i];
      RefusalStands(audit, disableAll, event, index, rule, hooks[..|hooks| - 1], acc, i);
    }
  }

  lemma {:induction false} RuleRefusalStands(
    audit: Audit, disableAll: bool, event: string, rules: seq<Json>, acc: Security, i: nat)
    requires i <= |rules| && InspectRules(audit, disableAll, event, rules[..i], acc).Err?
    ensures InspectRules(audit, disableAll, event, rules, acc) == Err(Refused)
  {
    hide ParseRule, InspectHooks;
    if i == |rules| {
      assert rules[..i] == rules;
      OnlyRefusal(InspectRules(audit, disableAll, event, rules, acc));
    } else {
      assert rules[..|rules| - 1][..i] == rules[..i];
      RuleRefusalStands(audit, disableAll, event, rules[..|rules| - 1], acc, i);
    }
  }

  lemma {:induction false} EventRefusalStands(
    audit: Audit, disableAll: bool, events: map<string, Json>, keys: seq<string>, acc: Security, i: nat)
    requires forall k :: k in keys ==> k in events
    requires i <= |keys| && InspectEvents(audit, disableAll, events, keys[..i], acc).Err?
    ensures InspectEvents(audit, disableAll, events, keys, acc) == Err(Refused)
  {
    hide InspectRules;
    if i == |keys| {
      assert keys[..i] == keys;
      OnlyRefusal(InspectEvents(audit, disableAll, events, keys, acc));
    } else {
      assert keys[..|keys| - 1][..i] == keys[..i];
      EventRefusalStands(audit, disableAll, events, keys[..|keys| - 1], acc, i);
    }
  }

  method InspectHooksOf(audit: Audit, disableAll: bool, event: string, index: nat, rule: Rule, before: Security)
    returns (result: Verdict<Security>)
    ensures result == InspectHooks(audit, disableAll, event, index, rule, rule.hooks, before)
  {
    hide ParseHook, JudgeHook;
    var hooks := rule.hooks;
    var acc := before;
    for i := 0 to |hooks|
      invariant InspectHooks(audit, disableAll, event, index, rule, hooks[..i], before) == Ok(acc)
    {
      assert hooks[..i + 1][..i] == hooks[..i];
      var hook := ParseHook(audit.kind, hooks[i]);
      if hook.Err? {
        RefusalStands(audit, disableAll, event, index, rule, hooks, before, i + 1);
        return Err(Refused);
      }
      var judged := JudgeHook(audit, disableAll, event, rule, (index, i), hook.value, acc);
      if judged.Err? {
        RefusalStands(audit, disableAll, event, index, rule, hooks, before, i + 1);
        return Err(Refused);
      }
      acc := judged.value;
    }
    assert hooks[..|hooks|] == hooks;
    return Ok(acc);
  }

  method InspectRulesOf(audit: Audit, disableAll: bool, event: string, rules: seq<Json>, before: Security)
    returns (result: Verdict<Security>)
    ensures result == InspectRules(audit, disableAll, event, rules, before)
  {
    hide ParseRule, InspectHooks;
    var acc := before;
    for i := 0 to |rules|
      invariant InspectRules(audit, disableAll, event, rules[..i], before) == Ok(acc)
    {
      assert rules[..i + 1][..i] == rules[..i];
      var rule := ParseRule(audit.kind, rules[i]);
      if rule.Err? {
        RuleRefusalStands(audit, disableAll, event, rules, before, i + 1);
        return Err(Refused);
      }
      var judged := InspectHooksOf(audit, disableAll, event, i, rule.value, acc);
      if judged.Err? {
        RuleRefusalStands(audit, disableAll, event, rules, before, i + 1);
        return Err(Refused);
      }
      acc := judged.value;
    }
    assert rules[..|rules|] == rules;
    return Ok(acc);
  }

  method InspectEventsOf(audit: Audit, disableAll: bool, events: map<string, Json>, keys: seq<string>)
    returns (result: Verdict<Security>)
    requires forall k :: k in keys ==> k in events
    ensures result == InspectEvents(audit, disableAll, events, keys, NOTHING_FOUND)
  {
    hide InspectRules;
    var acc := NOTHING_FOUND;
    for i := 0 to |keys|
      invariant InspectEvents(audit, disableAll, events, keys[..i], NOTHING_FOUND) == Ok(acc)
    {
      assert keys[..i + 1][..i] == keys[..i];
      if !events[keys[i]].Arr? {
        EventRefusalStands(audit, disableAll, events, keys, NOTHING_FOUND, i + 1);
        return Err(Refused);
      }
      var judged := InspectRulesOf(audit, disableAll, keys[i], events[keys[i]].items, acc);
      if judged.Err? {
        EventRefusalStands(audit, disableAll, events, keys, NOTHING_FOUND, i + 1);
        return Err(Refused);
      }
      acc := judged.value;
    }
    assert keys[..|keys|] == keys;
    return Ok(acc);
  }

  method InspectHookValue(audit: Audit, settings: Json) returns (result: Verdict<Security>)
    ensures result == Inspect(audit, settings)
  {
    hide InspectEvents;
    if !settings.Obj? {
      return Err(Refused);
    }
    var disableAll := OptionalBool(settings, "disableAllHooks");
    if disableAll.Err? || (disableAll.value && audit.kind.Codex?) {
      return Err(Refused);
    }
    if "hooks" !in settings.fields {
      return Ok(NOTHING_FOUND);
    }
    if !settings.fields["hooks"].Obj? {
      return Err(Refused);
    }
    var events := settings.fields["hooks"].fields;
    result := InspectEventsOf(audit, disableAll.value, events, SortedKeys(events.Keys));
  }
}
