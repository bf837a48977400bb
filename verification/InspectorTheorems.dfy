/** What an accepted inspection means, and that it accepts exactly what the installer writes. */
module InspectorTheorems {
  import opened Lists
  import opened Json
  import opened Orders
  import opened ShellQuote
  import opened HookInstall
  import opened HookInstallTheorems
  import opened Inspector

  // ---------------------------------------------------------------------
  // The meaning of an accepted inspection
  // ---------------------------------------------------------------------

  /** An enabled hook running exactly the expected command. */
  predicate RunsGate(audit: Audit, disableAll: bool, rule: Rule, hook: Json) {
    var parsed := ParseHook(audit.kind, hook);
    parsed.Ok? && Enabled(disableAll, rule, parsed.value) && ExactCommand(audit, parsed.value)
  }

  /** It blocks unconditionally and is not cancelled before the daemon answers. */
  predicate Holds(audit: Audit, rule: Rule, hook: Json) {
    var parsed := ParseHook(audit.kind, hook);
    parsed.Ok? && Blocking(rule, parsed.value) && OutlastsDaemon(audit, rule, parsed.value)
  }

  predicate RunsForeign(audit: Audit, disableAll: bool, rule: Rule, hook: Json, d: string) {
    var parsed := ParseHook(audit.kind, hook);
    parsed.Ok? && Enabled(disableAll, rule, parsed.value) && !ExactCommand(audit, parsed.value)
    && Descriptor(parsed.value) == d
  }

  /** Gates found beyond those already in `acc` are exactly the gate hooks, and all of them hold. */
  ghost predicate HookGates(audit: Audit, disableAll: bool, event: string, index: nat, rule: Rule, hooks: seq<Json>,
                            acc: Security, sec: Security)
  {
    forall p: (nat, nat) :: p in sec.gates <==>
      p in acc.gates
      || (event == PRE_TOOL_USE && p.0 == index && p.1 < |hooks| && RunsGate(audit, disableAll, rule, hooks[p.1]))
  }

  ghost predicate HookHolds(audit: Audit, disableAll: bool, event: string, rule: Rule, hooks: seq<Json>) {
    forall j :: 0 <= j < |hooks| && event == PRE_TOOL_USE && RunsGate(audit, disableAll, rule, hooks[j]) ==>
      Holds(audit, rule, hooks[j])
  }

  ghost predicate AnyForeign(audit: Audit, disableAll: bool, rule: Rule, hooks: seq<Json>, d: string) {
    exists j :: 0 <= j < |hooks| && RunsForeign(audit, disableAll, rule, hooks[j], d)
  }

  ghost predicate Consistent(sec: Security) {
    (sec.gate <==> sec.gates != []) && forall i, j :: 0 <= i < j < |sec.foreign| ==> sec.foreign[i] != sec.foreign[j]
  }

  lemma JudgedHook(audit: Audit, disableAll: bool, event: string, rule: Rule, at: (nat, nat), hook: Json,
                   acc: Security, sec: Security)
    requires ParseHook(audit.kind, hook).Ok? && Consistent(acc)
    requires JudgeHook(audit, disableAll, event, rule, at, ParseHook(audit.kind, hook).value, acc) == Ok(sec)
    ensures Consistent(sec)
    ensures forall p :: p in sec.gates <==>
              p in acc.gates || (p == at && event == PRE_TOOL_USE && RunsGate(audit, disableAll, rule, hook))
    ensures event == PRE_TOOL_USE && RunsGate(audit, disableAll, rule, hook) ==> Holds(audit, rule, hook)
    ensures forall d :: d in sec.foreign <==> d in acc.foreign || RunsForeign(audit, disableAll, rule, hook, d)
  {
    hide ParseHook, Descriptor, Blocking, OutlastsDaemon;
  }

  lemma {:induction false} InspectedHooks(audit: Audit, disableAll: bool, event: string, index: nat, rule: Rule,
                                          hooks: seq<Json>, acc: Security, sec: Security)
    requires InspectHooks(audit, disableAll, event, index, rule, hooks, acc) == Ok(sec) && Consistent(acc)
    ensures Consistent(sec)
    ensures HookGates(audit, disableAll, event, index, rule, hooks, acc, sec)
    ensures HookHolds(audit, disableAll, event, rule, hooks)
    ensures forall d :: d in sec.foreign <==> d in acc.foreign || AnyForeign(audit, disableAll, rule, hooks, d)
  {
    hide ParseHook, JudgeHook, RunsGate, Holds, RunsForeign, Consistent;
    if hooks != [] {
      var n := |hooks| - 1;
      var before := InspectHooks(audit, disableAll, event, index, rule, hooks[..n], acc).value;
      InspectedHooks(audit, disableAll, event, index, rule, hooks[..n], acc, before);
      JudgedHook(audit, disableAll, event, rule, (index, n), hooks[n], before, sec);
      assert forall j :: 0 <= j < n ==> hooks[..n][j] == hooks[j];
      forall d ensures AnyForeign(audit, disableAll, rule, hooks, d) <==>
                       AnyForeign(audit, disableAll, rule, hooks[..n], d)
                       || RunsForeign(audit, disableAll, rule, hooks[n], d)
      {
        ForeignSnoc(audit, disableAll, rule, hooks, d);
      }
    }
  }

  lemma ForeignSnoc(audit: Audit, disableAll: bool, rule: Rule, hooks: seq<Json>, d: string)
    requires hooks != []
    ensures AnyForeign(audit, disableAll, rule, hooks, d) <==>
            AnyForeign(audit, disableAll, rule, hooks[..|hooks| - 1], d)
            || RunsForeign(audit, disableAll, rule, hooks[|hooks| - 1], d)
  {
    hide RunsForeign;
    var n := |hooks| - 1;
    assert forall j :: 0 <= j < n ==> hooks[..n][j] == hooks[j];
  }

  predicate RuleRunsGate(audit: Audit, disableAll: bool, rules: seq<Json>, p: (nat, nat)) {
    p.0 < |rules|
    && var rule := ParseRule(audit.kind, rules[p.0]);
       rule.Ok? && p.1 < |rule.value.hooks| && RunsGate(audit, disableAll, rule.value, rule.value.hooks[p.1])
  }

  predicate RuleHolds(audit: Audit, rules: seq<Json>, p: (nat, nat)) {
    p.0 < |rules|
    && var rule := ParseRule(audit.kind, rules[p.0]);
       rule.Ok? && p.1 < |rule.value.hooks| && Holds(audit, rule.value, rule.value.hooks[p.1])
  }

  ghost predicate RuleForeign(audit: Audit, disableAll: bool, rule: Json, d: string) {
    var parsed := ParseRule(audit.kind, rule);
    parsed.Ok? && AnyForeign(audit, disableAll, parsed.value, parsed.value.hooks, d)
  }

  ghost predicate RulesForeign(audit: Audit, disableAll: bool, rules: seq<Json>, d: string) {
    exists i :: 0 <= i < |rules| && RuleForeign(audit, disableAll, rules[i], d)
  }

  lemma RulesForeignSnoc(audit: Audit, disableAll: bool, rules: seq<Json>, d: string)
    requires rules != []
    ensures RulesForeign(audit, disableAll, rules, d) <==>
            RulesForeign(audit, disableAll, rules[..|rules| - 1], d)
            || RuleForeign(audit, disableAll, rules[|rules| - 1], d)
  {
    hide RuleForeign;
    var n := |rules| - 1;
    assert forall j :: 0 <= j < n ==> rules[..n][j] == rules[j];
  }

  lemma {:induction false} InspectedRules(audit: Audit, disableAll: bool, event: string, rules: seq<Json>,
                                          acc: Security, sec: Security)
    requires InspectRules(audit, disableAll, event, rules, acc) == Ok(sec) && Consistent(acc)
    ensures Consistent(sec)
    ensures forall p: (nat, nat) :: p in sec.gates <==>
      p in acc.gates || (event == PRE_TOOL_USE && RuleRunsGate(audit, disableAll, rules, p))
    ensures forall p: (nat, nat) :: event == PRE_TOOL_USE && RuleRunsGate(audit, disableAll, rules, p) ==>
      RuleHolds(audit, rules, p)
    ensures forall d :: d in sec.foreign <==> d in acc.foreign || RulesForeign(audit, disableAll, rules, d)
  {
    hide ParseRule, InspectHooks, RunsGate, Holds, AnyForeign, Consistent;
    if rules != [] {
      var n := |rules| - 1;
      var before := InspectRules(audit, disableAll, event, rules[..n], acc).value;
      InspectedRules(audit, disableAll, event, rules[..n], acc, before);
      var rule := ParseRule(audit.kind, rules[n]).value;
      InspectedHooks(audit, disableAll, event, n, rule, rule.hooks, before, sec);
      assert forall j :: 0 <= j < n ==> rules[..n][j] == rules[j];
      forall d ensures RulesForeign(audit, disableAll, rules, d) <==>
                       RulesForeign(audit, disableAll, rules[..n], d)
                       || RuleForeign(audit, disableAll, rules[n], d)
      {
        RulesForeignSnoc(audit, disableAll, rules, d);
      }
      hide RulesForeign;
      forall p: (nat, nat) | event == PRE_TOOL_USE && RuleRunsGate(audit, disableAll, rules, p)
        ensures RuleHolds(audit, rules, p)
      {
        if p.0 < n { assert RuleRunsGate(audit, disableAll, rules[..n], p); }
      }
    }
  }

  ghost predicate EventsForeign(
    audit: Audit, disableAll: bool, events: map<string, Json>, keys: seq<string>, d: string)
  {
    exists k :: k in keys && k in events && events[k].Arr? && RulesForeign(audit, disableAll, events[k].items, d)
  }

  predicate PreToolGate(audit: Audit, disableAll: bool, events: map<string, Json>, p: (nat, nat)) {
    PRE_TOOL_USE in events && events[PRE_TOOL_USE].Arr?
    && RuleRunsGate(audit, disableAll, events[PRE_TOOL_USE].items, p)
  }

  predicate PreToolHolds(audit: Audit, events: map<string, Json>, p: (nat, nat)) {
    PRE_TOOL_USE in events && events[PRE_TOOL_USE].Arr? && RuleHolds(audit, events[PRE_TOOL_USE].items, p)
  }

  lemma {:induction false} InspectedEvents(audit: Audit, disableAll: bool, events: map<string, Json>,
                                           keys: seq<string>, acc: Security, sec: Security)
    requires forall k :: k in keys ==> k in events
    requires InspectEvents(audit, disableAll, events, keys, acc) == Ok(sec) && Consistent(acc)
    ensures Consistent(sec)
    ensures forall p: (nat, nat) :: p in sec.gates <==>
      p in acc.gates || (PRE_TOOL_USE in keys && PreToolGate(audit, disableAll, events, p))
    ensures forall p: (nat, nat) :: PRE_TOOL_USE in keys && PreToolGate(audit, disableAll, events, p) ==>
      PreToolHolds(audit, events, p)
    ensures forall d :: d in sec.foreign <==> d in acc.foreign || EventsForeign(audit, disableAll, events, keys, d)
  {
    hide InspectRules, RuleRunsGate, RuleHolds, RulesForeign, Consistent;
    if keys != [] {
      var n := |keys| - 1;
      var before := InspectEvents(audit, disableAll, events, keys[..n], acc).value;
      assert keys == keys[..n] + [keys[n]];
      InspectedEvents(audit, disableAll, events, keys[..n], acc, before);
      InspectedRules(audit, disableAll, keys[n], events[keys[n]].items, before, sec);
    }
  }

  /** The fold, in terms of parsed rules and hooks. */
  lemma InspectedDocument(audit: Audit, settings: Json, sec: Security)
    requires Inspect(audit, settings) == Ok(sec)
    ensures settings.Obj? && OptionalBool(settings, "disableAllHooks").Ok?
    ensures sec.gate <==> sec.gates != []
    ensures "hooks" in settings.fields ==> settings.fields["hooks"].Obj?
    ensures var off := OptionalBool(settings, "disableAllHooks").value;
      var events := if "hooks" in settings.fields then settings.fields["hooks"].fields else map[];
      && (forall p: (nat, nat) :: p in sec.gates <==> PreToolGate(audit, off, events, p))
      && (forall p: (nat, nat) :: p in sec.gates ==> PreToolHolds(audit, events, p))
      && (forall d :: d in sec.foreign <==> EventsForeign(audit, off, events, SortedKeys(events.Keys), d))
      && (forall i, j :: 0 <= i < j < |sec.foreign| ==> sec.foreign[i] != sec.foreign[j])
  {
    hide InspectEvents, PreToolGate, PreToolHolds, EventsForeign;
    var off := OptionalBool(settings, "disableAllHooks").value;
    if "hooks" in settings.fields {
      var events := settings.fields["hooks"].fields;
      InspectedEvents(audit, off, events, SortedKeys(events.Keys), NOTHING_FOUND, sec);
      NoGateWithoutEvent(audit, off, events);
    } else {
      NoGateWithoutEvent(audit, off, map[]);
      NoForeignWithoutEvents(audit, off);
    }
  }

  lemma NoGateWithoutEvent(audit: Audit, disableAll: bool, events: map<string, Json>)
    ensures PRE_TOOL_USE !in events ==> forall p: (nat, nat) :: !PreToolGate(audit, disableAll, events, p)
  {
  }

  lemma NoForeignWithoutEvents(audit: Audit, disableAll: bool)
    ensures var none: map<string, Json> := map[];
      forall d :: !EventsForeign(audit, disableAll, none, SortedKeys(none.Keys), d)
  {
  }

  // ---------------------------------------------------------------------
  // What is refused
  // ---------------------------------------------------------------------

  /** Each field a rule and a hook share is absent or of its type; Claude has no `disabled`. */
  predicate CommonShaped(kind: Kind, j: Json) {
    && j.Obj?
    && (kind.Claude? ==> "disabled" !in j.fields)
    && (forall key :: key in {"disabled", "async", "asyncRewake"} && key in j.fields ==> j.fields[key].Bool?)
    && ("if" in j.fields ==> j.fields["if"].Str?)
    && ("timeout" in j.fields ==> j.fields["timeout"].Number? && 0 <= j.fields["timeout"].value <= U64_MAX)
  }

  predicate RuleShaped(kind: Kind, j: Json) {
    && CommonShaped(kind, j) && ("matcher" in j.fields ==> j.fields["matcher"].Str?)
    && "hooks" in j.fields && j.fields["hooks"].Arr? && j.fields["hooks"].items != []
  }

  predicate HookShaped(kind: Kind, j: Json) {
    && CommonShaped(kind, j) && ("command" in j.fields ==> j.fields["command"].Str?)
    && "type" in j.fields && j.fields["type"].Str?
    && (j.fields["type"].text == "command" ==> "command" in j.fields)
  }

  lemma ShapesParse(kind: Kind, j: Json)
    ensures ParseRule(kind, j).Ok? <==> RuleShaped(kind, j)
    ensures ParseHook(kind, j).Ok? <==> HookShaped(kind, j)
    ensures RuleShaped(kind, j) ==> ParseRule(kind, j).value.hooks == j.fields["hooks"].items
  {
    assert ParseCommon(kind, j).Ok? <==> CommonShaped(kind, j);
  }

  /** A field set to true; absent counts as false. */
  predicate Flag(j: Json, key: string) { Get(j, key) == Some(Bool(true)) }

  predicate SwitchedOn(disableAll: bool, rule: Json, hook: Json) {
    !disableAll && !Flag(rule, "disabled") && !Flag(hook, "disabled")
  }

  predicate RunsExpected(audit: Audit, hook: Json) {
    Get(hook, "type") == Some(Str("command")) && Get(hook, "command") == Some(Str(audit.expected))
  }

  /** Matches every tool, and nothing in the rule or the hook makes it asynchronous or conditional. */
  predicate Blocks(rule: Json, hook: Json) {
    && Get(rule, "matcher") == Some(Str(""))
    && !Flag(rule, "async") && !Flag(hook, "async")
    && !Flag(rule, "asyncRewake") && !Flag(hook, "asyncRewake")
    && Get(rule, "if") == None && Get(hook, "if") == None
  }

  /** The hook's own timeout, else its rule's, else Claude Code's ten minutes. */
  function Seconds(rule: Json, hook: Json): int {
    match (Get(hook, "timeout"), Get(rule, "timeout"))
    case (Some(Number(n)), _) => n
    case (_, Some(Number(n))) => n
    case _ => 600
  }

  predicate Outlasts(audit: Audit, rule: Json, hook: Json) {
    audit.kind.Claude? ==> Seconds(rule, hook) > audit.daemonSecs
  }

  /** How a hook is reported. */
  predicate Described(hook: Json, d: string) {
    Get(hook, "type").Some? && Get(hook, "type").value.Str?
    && match Get(hook, "command")
       case Some(Str(command)) => d == "<" + Get(hook, "type").value.text + " hook: " + command + ">"
       case _ => d == "<" + Get(hook, "type").value.text + " hook>"
  }

  /** What the parsed rule and hook say, read off the documents. */
  lemma ParsedSays(audit: Audit, disableAll: bool, rule: Json, hook: Json, d: string)
    requires ParseRule(audit.kind, rule).Ok? && ParseHook(audit.kind, hook).Ok?
    ensures var r := ParseRule(audit.kind, rule).value;
      && (RunsGate(audit, disableAll, r, hook) <==> SwitchedOn(disableAll, rule, hook) && RunsExpected(audit, hook))
      && (Holds(audit, r, hook) <==> Blocks(rule, hook) && Outlasts(audit, rule, hook))
      && (RunsForeign(audit, disableAll, r, hook, d) <==>
            SwitchedOn(disableAll, rule, hook) && !RunsExpected(audit, hook) && Described(hook, d))
  {
    hide Get;
    var r, h := ParseRule(audit.kind, rule).value, ParseHook(audit.kind, hook).value;
    CommonSays(audit.kind, rule);
    CommonSays(audit.kind, hook);
    assert r.common == ParseCommon(audit.kind, rule).value && h.common == ParseCommon(audit.kind, hook).value;
    hide ParseCommon;
    assert r.matcher == Some("") <==> Get(rule, "matcher") == Some(Str(""));
    assert h.hookType == "command" <==> Get(hook, "type") == Some(Str("command"));
    assert h.command == Some(audit.expected) <==> Get(hook, "command") == Some(Str(audit.expected));
    assert Enabled(disableAll, r, h) <==> SwitchedOn(disableAll, rule, hook);
    assert Blocking(r, h) <==> Blocks(rule, hook);
    assert HookSeconds(r, h) == Seconds(rule, hook);
    assert Descriptor(h) == d <==> Described(hook, d);
  }

  lemma CommonSays(kind: Kind, j: Json)
    requires ParseCommon(kind, j).Ok?
    ensures var c := ParseCommon(kind, j).value;
      && (c.disabled <==> Flag(j, "disabled")) && (c.isAsync <==> Flag(j, "async"))
      && (c.rewake <==> Flag(j, "asyncRewake")) && (c.condition.None? <==> Get(j, "if") == None)
      && (match Get(j, "timeout") case Some(Number(n)) => c.timeout == Some(n) case _ => c.timeout == None)
  {
  }

  /** Well formed, and if it is an enabled gate hook then one that blocks and outlasts the daemon. */
  predicate HookAllowed(audit: Audit, disableAll: bool, event: string, rule: Json, hook: Json) {
    && HookShaped(audit.kind, hook)
    && (event == PRE_TOOL_USE && SwitchedOn(disableAll, rule, hook) && RunsExpected(audit, hook) ==>
          Blocks(rule, hook) && Outlasts(audit, rule, hook))
  }

  ghost predicate HooksAllowed(audit: Audit, disableAll: bool, event: string, rule: Json, hooks: seq<Json>) {
    forall i :: 0 <= i < |hooks| ==> HookAllowed(audit, disableAll, event, rule, hooks[i])
  }

  ghost predicate RuleAllowed(audit: Audit, disableAll: bool, event: string, rule: Json) {
    RuleShaped(audit.kind, rule) && HooksAllowed(audit, disableAll, event, rule, rule.fields["hooks"].items)
  }

  ghost predicate RulesAllowed(audit: Audit, disableAll: bool, event: string, rules: seq<Json>) {
    forall i :: 0 <= i < |rules| ==> RuleAllowed(audit, disableAll, event, rules[i])
  }

  ghost predicate EventsAllowed(audit: Audit, disableAll: bool, events: map<string, Json>, keys: seq<string>) {
    forall k :: k in keys && k in events ==> events[k].Arr? && RulesAllowed(audit, disableAll, k, events[k].items)
  }

  /** The documents an inspection accepts. */
  ghost predicate Acceptable(audit: Audit, settings: Json) {
    && settings.Obj?
    && ("disableAllHooks" in settings.fields ==>
          settings.fields["disableAllHooks"].Bool?
          && (audit.kind.Codex? ==> settings.fields["disableAllHooks"] == Bool(false)))
    && ("hooks" in settings.fields ==>
          && settings.fields["hooks"].Obj?
          && var disableAll := "disableAllHooks" in settings.fields && settings.fields["disableAllHooks"] == Bool(true);
             var events := settings.fields["hooks"].fields;
             forall k :: k in events ==> events[k].Arr? && RulesAllowed(audit, disableAll, k, events[k].items))
  }

  lemma JudgedIff(audit: Audit, disableAll: bool, event: string, rule: Rule, at: (nat, nat), hook: Json, acc: Security)
    requires ParseHook(audit.kind, hook).Ok?
    ensures JudgeHook(audit, disableAll, event, rule, at, ParseHook(audit.kind, hook).value, acc).Ok? <==>
            (event == PRE_TOOL_USE && RunsGate(audit, disableAll, rule, hook) ==> Holds(audit, rule, hook))
  {
    hide ParseHook, Descriptor, Blocking, OutlastsDaemon;
  }

  lemma {:induction false} HooksIff(
    audit: Audit, disableAll: bool, event: string, index: nat, rule: Json, hooks: seq<Json>, acc: Security)
    requires ParseRule(audit.kind, rule).Ok?
    ensures InspectHooks(audit, disableAll, event, index, ParseRule(audit.kind, rule).value, hooks, acc).Ok? <==>
            HooksAllowed(audit, disableAll, event, rule, hooks)
  {
    hide ParseHook, ParseRule, JudgeHook, RunsGate, Holds, HookShaped, SwitchedOn, RunsExpected, Blocks, Outlasts;
    if hooks != [] {
      var n := |hooks| - 1;
      var parsed := ParseRule(audit.kind, rule).value;
      HooksIff(audit, disableAll, event, index, rule, hooks[..n], acc);
      ShapesParse(audit.kind, hooks[n]);
      assert HooksAllowed(audit, disableAll, event, rule, hooks) <==>
             HooksAllowed(audit, disableAll, event, rule, hooks[..n])
             && HookAllowed(audit, disableAll, event, rule, hooks[n]);
      var before := InspectHooks(audit, disableAll, event, index, parsed, hooks[..n], acc);
      if before.Ok? && ParseHook(audit.kind, hooks[n]).Ok? {
        JudgedIff(audit, disableAll, event, parsed, (index, n), hooks[n], before.value);
        ParsedSays(audit, disableAll, rule, hooks[n], "");
      }
    }
  }

  lemma {:induction false} RulesIff(audit: Audit, disableAll: bool, event: string, rules: seq<Json>, acc: Security)
    ensures InspectRules(audit, disableAll, event, rules, acc).Ok? <==> RulesAllowed(audit, disableAll, event, rules)
  {
    hide ParseRule, InspectHooks, HooksAllowed, RuleShaped;
    if rules != [] {
      var n := |rules| - 1;
      RulesIff(audit, disableAll, event, rules[..n], acc);
      ShapesParse(audit.kind, rules[n]);
      assert RulesAllowed(audit, disableAll, event, rules) <==>
             RulesAllowed(audit, disableAll, event, rules[..n]) && RuleAllowed(audit, disableAll, event, rules[n]);
      var before := InspectRules(audit, disableAll, event, rules[..n], acc);
      var rule := ParseRule(audit.kind, rules[n]);
      if before.Ok? && rule.Ok? {
        HooksIff(audit, disableAll, event, n, rules[n], rule.value.hooks, before.value);
      }
    }
  }

  lemma {:induction false} EventsIff(
    audit: Audit, disableAll: bool, events: map<string, Json>, keys: seq<string>, acc: Security)
    requires forall k :: k in keys ==> k in events
    ensures InspectEvents(audit, disableAll, events, keys, acc).Ok? <==> EventsAllowed(audit, disableAll, events, keys)
  {
    hide InspectRules, RulesAllowed;
    if keys != [] {
      var n := |keys| - 1;
      assert keys == keys[..n] + [keys[n]];
      EventsIff(audit, disableAll, events, keys[..n], acc);
      var before := InspectEvents(audit, disableAll, events, keys[..n], acc);
      if before.Ok? && events[keys[n]].Arr? {
        RulesIff(audit, disableAll, keys[n], events[keys[n]].items, before.value);
      }
    }
  }

  /**
   An inspection refuses exactly a document of the wrong shape, one that switches
   all Codex hooks off, and one with an enabled gate hook that does not hold.
   */
  lemma AcceptedIff(audit: Audit, settings: Json)
    ensures Inspect(audit, settings).Ok? <==> Acceptable(audit, settings)
  {
    hide InspectEvents, RulesAllowed, SortedKeys;
    if settings.Obj? && OptionalBool(settings, "disableAllHooks").Ok?
       && "hooks" in settings.fields && settings.fields["hooks"].Obj? {
      var events := settings.fields["hooks"].fields;
      EventsIff(audit, OptionalBool(settings, "disableAllHooks").value, events, SortedKeys(events.Keys), NOTHING_FOUND);
    }
  }

  /** A rule under an event and one of its hooks, by position. */
  function HookAt(events: map<string, Json>, event: string, p: (nat, nat)): Option<(Json, Json)> {
    if event in events && events[event].Arr? && p.0 < |events[event].items|
       && HasHooksArray(events[event].items[p.0]) && p.1 < |HooksOf(events[event].items[p.0])|
    then Some((events[event].items[p.0], HooksOf(events[event].items[p.0])[p.1])) else None
  }

  ghost predicate GateAt(audit: Audit, disableAll: bool, events: map<string, Json>, p: (nat, nat)) {
    var at := HookAt(events, PRE_TOOL_USE, p);
    at.Some? && SwitchedOn(disableAll, at.value.0, at.value.1) && RunsExpected(audit, at.value.1)
  }

  ghost predicate ForeignAt(
    audit: Audit, disableAll: bool, events: map<string, Json>, event: string, p: (nat, nat), d: string)
  {
    var at := HookAt(events, event, p);
    at.Some? && SwitchedOn(disableAll, at.value.0, at.value.1) && !RunsExpected(audit, at.value.1)
    && Described(at.value.1, d)
  }

  /** In an acceptable document every rule and hook parses. */
  lemma AllowedParse(audit: Audit, disableAll: bool, events: map<string, Json>, event: string, p: (nat, nat))
    requires event in events && events[event].Arr? && RulesAllowed(audit, disableAll, event, events[event].items)
    requires p.0 < |events[event].items|
    ensures var rule := events[event].items[p.0];
      && ParseRule(audit.kind, rule).Ok? && HasHooksArray(rule)
      && ParseRule(audit.kind, rule).value.hooks == HooksOf(rule)
      && (p.1 < |HooksOf(rule)| ==> ParseHook(audit.kind, HooksOf(rule)[p.1]).Ok?)
  {
    hide ParseRule, ParseHook, SwitchedOn, RunsExpected, Blocks, Outlasts, HookShaped;
    var rule := events[event].items[p.0];
    assert RuleAllowed(audit, disableAll, event, rule);
    ShapesParse(audit.kind, rule);
    var hooks := rule.fields["hooks"].items;
    if p.1 < |hooks| {
      assert HookAllowed(audit, disableAll, event, rule, hooks[p.1]);
      ShapesParse(audit.kind, hooks[p.1]);
    }
  }

  lemma GateIsAt(audit: Audit, disableAll: bool, events: map<string, Json>, p: (nat, nat))
    requires PRE_TOOL_USE in events ==>
      events[PRE_TOOL_USE].Arr? && RulesAllowed(audit, disableAll, PRE_TOOL_USE, events[PRE_TOOL_USE].items)
    ensures PreToolGate(audit, disableAll, events, p) <==> GateAt(audit, disableAll, events, p)
    ensures PreToolGate(audit, disableAll, events, p) && PreToolHolds(audit, events, p) ==>
      var at := HookAt(events, PRE_TOOL_USE, p).value; Blocks(at.0, at.1) && Outlasts(audit, at.0, at.1)
  {
    hide ParseRule, ParseHook, RunsGate, Holds, SwitchedOn, RunsExpected, Blocks, Outlasts, RulesAllowed;
    if PRE_TOOL_USE in events && p.0 < |events[PRE_TOOL_USE].items| {
      AllowedParse(audit, disableAll, events, PRE_TOOL_USE, p);
      var rule := events[PRE_TOOL_USE].items[p.0];
      if p.1 < |HooksOf(rule)| { ParsedSays(audit, disableAll, rule, HooksOf(rule)[p.1], ""); }
    }
  }

  lemma ForeignIsAt(audit: Audit, disableAll: bool, events: map<string, Json>, k: string, d: string)
    requires k in events && events[k].Arr? && RulesAllowed(audit, disableAll, k, events[k].items)
    ensures RulesForeign(audit, disableAll, events[k].items, d) <==>
            exists p: (nat, nat) :: ForeignAt(audit, disableAll, events, k, p, d)
  {
    hide ParseRule, ParseHook, RunsForeign, SwitchedOn, RunsExpected, Described, RulesAllowed;
    var rules := events[k].items;
    if RulesForeign(audit, disableAll, rules, d) {
      var i: nat :| i < |rules| && RuleForeign(audit, disableAll, rules[i], d);
      AllowedParse(audit, disableAll, events, k, (i, 0));
      var parsed := ParseRule(audit.kind, rules[i]).value;
      var j: nat :| j < |parsed.hooks| && RunsForeign(audit, disableAll, parsed, parsed.hooks[j], d);
      AllowedParse(audit, disableAll, events, k, (i, j));
      ParsedSays(audit, disableAll, rules[i], parsed.hooks[j], d);
      assert ForeignAt(audit, disableAll, events, k, (i, j), d);
    }
    if p: (nat, nat) :| ForeignAt(audit, disableAll, events, k, p, d) {
      AllowedParse(audit, disableAll, events, k, p);
      var parsed := ParseRule(audit.kind, rules[p.0]).value;
      ParsedSays(audit, disableAll, rules[p.0], parsed.hooks[p.1], d);
      assert RuleForeign(audit, disableAll, rules[p.0], d);
    }
  }

  /**
   An accepted inspection: the gate positions are exactly the enabled hooks
   under `PreToolUse` running the expected command, each of them blocks and
   outlasts the daemon, and the foreign list names exactly the other enabled
   hooks, each descriptor once. All of it is said of the document's own fields.
   */
  lemma InspectionMeans(audit: Audit, settings: Json, sec: Security)
    requires Inspect(audit, settings) == Ok(sec)
    ensures settings.Obj? && ("hooks" in settings.fields ==> settings.fields["hooks"].Obj?)
    ensures sec.gate <==> sec.gates != []
    ensures var off := Flag(settings, "disableAllHooks");
      var events := if "hooks" in settings.fields then settings.fields["hooks"].fields else map[];
      && (forall p: (nat, nat) :: p in sec.gates <==> GateAt(audit, off, events, p))
      && (forall p: (nat, nat) :: p in sec.gates ==>
            var at := HookAt(events, PRE_TOOL_USE, p).value; Blocks(at.0, at.1) && Outlasts(audit, at.0, at.1))
      && (forall d :: d in sec.foreign <==>
            exists k, p: (nat, nat) :: ForeignAt(audit, off, events, k, p, d))
      && (forall i, j :: 0 <= i < j < |sec.foreign| ==> sec.foreign[i] != sec.foreign[j])
  {
    hide Inspect, PreToolGate, PreToolHolds, GateAt, HookAt, ForeignAt, RulesForeign, RulesAllowed, Blocks, Outlasts;
    hide SortedKeys;
    InspectedDocument(audit, settings, sec);
    AcceptedIff(audit, settings);
    var off := Flag(settings, "disableAllHooks");
    var events := if "hooks" in settings.fields then settings.fields["hooks"].fields else map[];
    assert forall k :: k in events ==> events[k].Arr? && RulesAllowed(audit, off, k, events[k].items);
    forall p: (nat, nat) ensures PreToolGate(audit, off, events, p) <==> GateAt(audit, off, events, p)
      ensures PreToolGate(audit, off, events, p) && PreToolHolds(audit, events, p) ==>
        GateAt(audit, off, events, p) && HookAt(events, PRE_TOOL_USE, p).Some?
        && var at := HookAt(events, PRE_TOOL_USE, p).value; Blocks(at.0, at.1) && Outlasts(audit, at.0, at.1)
    {
      GateIsAt(audit, off, events, p);
      GateSome(audit, off, events, p);
    }
    forall d ensures EventsForeign(audit, off, events, SortedKeys(events.Keys), d) <==>
                     exists k, p: (nat, nat) :: ForeignAt(audit, off, events, k, p, d)
    {
      SomeForeign(audit, off, events, d);
    }
  }

  lemma GateSome(audit: Audit, disableAll: bool, events: map<string, Json>, p: (nat, nat))
    ensures GateAt(audit, disableAll, events, p) ==> HookAt(events, PRE_TOOL_USE, p).Some?
  {
    hide SwitchedOn, RunsExpected, HookAt;
  }

  lemma SomeForeign(audit: Audit, disableAll: bool, events: map<string, Json>, d: string)
    requires forall k :: k in events ==> events[k].Arr? && RulesAllowed(audit, disableAll, k, events[k].items)
    ensures EventsForeign(audit, disableAll, events, SortedKeys(events.Keys), d) <==>
            exists k, p: (nat, nat) :: ForeignAt(audit, disableAll, events, k, p, d)
  {
    hide ForeignAt, RulesForeign, RulesAllowed, SortedKeys;
    forall k | k in events ensures RulesForeign(audit, disableAll, events[k].items, d) <==>
                                   exists p: (nat, nat) :: ForeignAt(audit, disableAll, events, k, p, d)
    {
      ForeignIsAt(audit, disableAll, events, k, d);
    }
    if k, p: (nat, nat) :| ForeignAt(audit, disableAll, events, k, p, d) {
      ForeignListed(audit, disableAll, events, k, p, d);
    }
  }

  lemma ForeignListed(
    audit: Audit, disableAll: bool, events: map<string, Json>, k: string, p: (nat, nat), d: string)
    requires ForeignAt(audit, disableAll, events, k, p, d)
    ensures k in events
  {
    hide SwitchedOn, RunsExpected, Described;
  }

  // ---------------------------------------------------------------------
  // A fresh install is accepted exactly below the installed timeout
  // ---------------------------------------------------------------------

  function ClaudeHookEvents(): seq<string> {
    ["PreToolUse", "PostToolUse", "PermissionRequest", "Elicitation", "UserPromptSubmit",
     "Stop", "SubagentStop", "ConfigChange", "TeammateIdle", "TaskCompleted"]
  }

  /** What the installer asks for, given the configured daemon timeout and where the binary is. */
  function ClaudeHook(path: string, configured: Option<nat>): Wanted {
    Wanted(Quote(path), Some(InstalledHookTimeout(EffectiveHookTimeout(configured))))
  }

  /** Events may be listed, but nothing is under them. */
  predicate NoHooks(hooks: map<string, Json>) { forall e :: e in hooks ==> hooks[e] == Arr([]) }

  predicate HooksOn(fields: map<string, Json>) {
    "disableAllHooks" in fields ==> fields["disableAllHooks"] == Bool(false)
  }

  function FreshSettings(fields: map<string, Json>, hooks: map<string, Json>, path: string, configured: Option<nat>)
    : Json
  {
    Obj(fields["hooks" := Obj(InstalledHooks(hooks, ClaudeHookEvents(), ClaudeHook(path, configured)))])
  }

  /** The installed hook as the inspector reads it. */
  lemma FreshHookParses(want: Wanted)
    requires want.timeout.Some? && want.timeout.value <= U64_MAX
    ensures ParseHook(Claude, HooksOf(NewRule(want))[0])
            == Ok(Hook(Common(false, false, false, None, want.timeout), "command", Some(want.command)))
  {
  }

  lemma FreshRuleParses(want: Wanted)
    ensures ParseRule(Claude, NewRule(want))
            == Ok(Rule(Common(false, false, false, None, None), Some(""), [HooksOf(NewRule(want))[0]]))
  {
    assert NewRule(want).fields["hooks"].items == HooksOf(NewRule(want));
  }

  /** What one freshly written event adds. */
  function FreshVerdict(event: string, outlasts: bool, acc: Security): Verdict<Security> {
    if event != PRE_TOOL_USE then Ok(acc)
    else if outlasts then Ok(acc.(gate := true, gates := acc.gates + [(0, 0)]))
    else Err(Refused)
  }

  lemma FreshEvent(audit: Audit, event: string, want: Wanted, acc: Security)
    requires audit.kind == Claude && audit.expected == want.command
    requires want.timeout.Some? && want.timeout.value <= U64_MAX
    ensures InspectRules(audit, false, event, [NewRule(want)], acc)
            == FreshVerdict(event, want.timeout.value > audit.daemonSecs, acc)
  {
    FreshHookParses(want);
    FreshRuleParses(want);
    var hook := HooksOf(NewRule(want))[0];
    var rule := ParseRule(Claude, NewRule(want)).value;
    assert [NewRule(want)][..0] == [] && [hook][..0] == [];
    hide ParseHook, ParseRule, NewRule;
    var parsed := ParseHook(Claude, hook).value;
    assert HookSeconds(rule, parsed) == want.timeout.value;
    assert InspectHooks(audit, false, event, 0, rule, [hook], acc)
        == JudgeHook(audit, false, event, rule, (0, 0), parsed, acc);
  }

  ghost predicate Distinct(keys: seq<string>) { forall i, j :: 0 <= i < j < |keys| ==> keys[i] != keys[j] }

  /** After the keys so far: the gate if `PreToolUse` was among them, and a refusal if its timeout is too short. */
  lemma {:induction false} FreshEvents(
    audit: Audit, want: Wanted, events: map<string, Json>, keys: seq<string>)
    requires audit.kind == Claude && audit.expected == want.command
    requires want.timeout.Some? && want.timeout.value <= U64_MAX
    requires Distinct(keys) && forall k :: k in keys ==> k in events
    requires forall k :: k in events ==> events[k] == Arr([]) || events[k] == Arr([NewRule(want)])
    requires PRE_TOOL_USE in events ==> events[PRE_TOOL_USE] == Arr([NewRule(want)])
    ensures InspectEvents(audit, false, events, keys, NOTHING_FOUND)
            == if PRE_TOOL_USE in keys
               then FreshVerdict(PRE_TOOL_USE, want.timeout.value > audit.daemonSecs, NOTHING_FOUND)
               else Ok(NOTHING_FOUND)
  {
    hide NewRule;
    if keys != [] {
      var n := |keys| - 1;
      assert keys == keys[..n] + [keys[n]];
      FreshEvents(audit, want, events, keys[..n]);
      assert keys[n] == PRE_TOOL_USE ==> PRE_TOOL_USE !in keys[..n];
      var before := InspectEvents(audit, false, events, keys[..n], NOTHING_FOUND);
      if before.Ok? {
        FreshEvent(audit, keys[n], want, before.value);
        hide InspectRules;
        assert InspectRules(audit, false, keys[n], [], before.value) == Ok(before.value) by {
          NoRules(audit, keys[n], before.value);
        }
      }
    }
  }

  lemma NoRules(audit: Audit, event: string, acc: Security)
    ensures InspectRules(audit, false, event, [], acc) == Ok(acc)
  {
  }

  lemma PreToolUseListed()
    ensures PRE_TOOL_USE in ClaudeHookEvents()
  {
    assert ClaudeHookEvents()[0] == PRE_TOOL_USE;
  }

  lemma FreshHooks(hooks: map<string, Json>, want: Wanted)
    requires NoHooks(hooks) && IsWisphiveHookCommand(want.command)
    ensures var events := InstalledHooks(hooks, ClaudeHookEvents(), want);
      && PRE_TOOL_USE in events && events[PRE_TOOL_USE] == Arr([NewRule(want)])
      && forall k :: k in events ==> events[k] == Arr([]) || events[k] == Arr([NewRule(want)])
  {
    hide IsWisphiveHookCommand, NewRule, InstalledHooks, ClaudeHookEvents;
    InstalledEach(hooks, ClaudeHookEvents(), want);
    PreToolUseListed();
    assert UpdateRules([], want) == [] && !Found([]);
    assert AddedRules([], want) == [NewRule(want)];
  }

  /** The inspection of settings whose every event is empty or freshly written. */
  lemma FreshDocument(fields: map<string, Json>, events: map<string, Json>, want: Wanted, daemonSecs: nat)
    requires HooksOn(fields) && PRE_TOOL_USE in events && events[PRE_TOOL_USE] == Arr([NewRule(want)])
    requires want.timeout.Some? && want.timeout.value <= U64_MAX
    requires forall k :: k in events ==> events[k] == Arr([]) || events[k] == Arr([NewRule(want)])
    ensures Inspect(Audit(Claude, daemonSecs, want.command), Obj(fields["hooks" := Obj(events)]))
            == FreshVerdict(PRE_TOOL_USE, want.timeout.value > daemonSecs, NOTHING_FOUND)
  {
    var audit := Audit(Claude, daemonSecs, want.command);
    var settings := Obj(fields["hooks" := Obj(events)]);
    FreshEvents(audit, want, events, SortedKeys(events.Keys));
    HooksRead(audit, fields, events);
    hide Inspect, InspectEvents, NewRule;
  }

  lemma HooksRead(audit: Audit, fields: map<string, Json>, events: map<string, Json>)
    requires HooksOn(fields)
    ensures Inspect(audit, Obj(fields["hooks" := Obj(events)]))
            == InspectEvents(audit, false, events, SortedKeys(events.Keys), NOTHING_FOUND)
  {
    hide InspectEvents;
    var settings := Obj(fields["hooks" := Obj(events)]);
    assert Get(settings, "hooks") == Some(Obj(events));
    assert OptionalBool(settings, "disableAllHooks") == Ok(false);
  }

  /**
   Whatever timeout is configured, a fresh Claude install is accepted with its
   gate and nothing foreign by every daemon whose approval timeout is below the
   installed value, and refused by every other.
   */
  lemma FreshInstallAccepted(fields: map<string, Json>, hooks: map<string, Json>, path: string,
                             configured: Option<nat>, daemonSecs: nat)
    requires FileName(path) == Some(HOOK_NAME) && NoHooks(hooks) && HooksOn(fields)
    ensures Inspect(Audit(Claude, daemonSecs, ExpectedCommand(Claude, path)),
                    FreshSettings(fields, hooks, path, configured))
            == if daemonSecs < EffectiveHookTimeout(configured) + 100
               then Ok(Security(true, [], [(0, 0)])) else Err(Refused)
  {
    hide IsWisphiveHookCommand, InstalledHooks, Quote, NewRule, Inspect, FileName, ClaudeHookEvents, HooksOn, NoHooks;
    var want := ClaudeHook(path, configured);
    ClaudeFormRecognised(path, "");
    assert Quote(path) + "" == Quote(path);
    FreshHooks(hooks, want);
    FreshDocument(fields, InstalledHooks(hooks, ClaudeHookEvents(), want), want, daemonSecs);
    assert NOTHING_FOUND.gates + [(0, 0)] == [(0, 0)];
  }

  /** In particular the daemon that shares the configuration accepts. */
  lemma SameConfigurationAccepts(fields: map<string, Json>, hooks: map<string, Json>, path: string,
                                 configured: Option<nat>)
    requires FileName(path) == Some(HOOK_NAME) && NoHooks(hooks) && HooksOn(fields)
    ensures Inspect(Audit(Claude, EffectiveHookTimeout(configured), ExpectedCommand(Claude, path)),
                    FreshSettings(fields, hooks, path, configured))
            == Ok(Security(true, [], [(0, 0)]))
  {
    hide Inspect, FreshSettings, FileName, NoHooks, HooksOn, ExpectedCommand;
    FreshInstallAccepted(fields, hooks, path, configured, EffectiveHookTimeout(configured));
  }
}
