/** Installing and uninstalling hooks: what repeats, what undoes what, and what nobody touches. */
module HookInstallTheorems {
  import opened Lists
  import opened Json
  import opened ShellQuote
  import opened HookInstall
  import ShellGrammar

  // ---------------------------------------------------------------------
  // One hook, one rule
  // ---------------------------------------------------------------------

  lemma UpdatedStaysOurs(hook: Json, want: Wanted)
    requires IsOurs(hook) && IsWisphiveHookCommand(want.command)
    ensures IsOurs(UpdateHook(hook, want))
    ensures UpdateHook(UpdateHook(hook, want), want) == UpdateHook(hook, want)
  {
    hide IsWisphiveHookCommand;
    var once := UpdateHook(hook, want);
    assert UpdateHook(once, want).fields == once.fields;
  }

  lemma UpdateIfOursTwice(hook: Json, want: Wanted)
    requires IsWisphiveHookCommand(want.command)
    ensures UpdateIfOurs(UpdateIfOurs(hook, want), want) == UpdateIfOurs(hook, want)
    ensures IsOurs(UpdateIfOurs(hook, want)) == IsOurs(hook)
  {
    if IsOurs(hook) {
      UpdatedStaysOurs(hook, want);
    }
    hide IsOurs, UpdateHook;
  }

  lemma UpdateAllTwice(hooks: seq<Json>, want: Wanted)
    requires IsWisphiveHookCommand(want.command)
    ensures UpdateAll(UpdateAll(hooks, want), want) == UpdateAll(hooks, want)
    ensures AnyOurs(UpdateAll(hooks, want)) == AnyOurs(hooks)
  {
    hide UpdateIfOurs, IsOurs;
    forall i | 0 <= i < |hooks|
      ensures UpdateIfOurs(UpdateIfOurs(hooks[i], want), want) == UpdateIfOurs(hooks[i], want)
      ensures IsOurs(UpdateAll(hooks, want)[i]) == IsOurs(hooks[i])
    {
      UpdateIfOursTwice(hooks[i], want);
    }
  }

  lemma {:induction false} UpdateAllForeign(hooks: seq<Json>, want: Wanted)
    requires IsWisphiveHookCommand(want.command)
    ensures Foreign(UpdateAll(hooks, want)) == Foreign(hooks)
  {
    hide IsOurs, UpdateHook;
    if hooks != [] {
      var n := |hooks| - 1;
      UpdateAllForeign(hooks[..n], want);
      UpdateIfOursTwice(hooks[n], want);
      assert UpdateAll(hooks, want)[..n] == UpdateAll(hooks[..n], want);
    }
  }

  lemma UpdateRuleFacts(rule: Json, want: Wanted)
    requires IsWisphiveHookCommand(want.command)
    ensures UpdateRule(UpdateRule(rule, want), want) == UpdateRule(rule, want)
    ensures RuleHasOurs(UpdateRule(rule, want)) == RuleHasOurs(rule)
    ensures RemovedRule(UpdateRule(rule, want)) == RemovedRule(rule)
  {
    hide IsWisphiveHookCommand;
    var once := UpdateRule(rule, want);
    if HasHooksArray(rule) {
      UpdateAllTwice(HooksOf(rule), want);
      UpdateAllForeign(HooksOf(rule), want);
      hide UpdateAll, Foreign, AnyOurs;
      assert once.fields["hooks" := once.fields["hooks"]] == once.fields;
      var kept := Foreign(HooksOf(rule));
      assert once.fields["hooks" := Arr(kept)] == rule.fields["hooks" := Arr(kept)];
    } else {
      UpdateIfOursTwice(rule, want);
      FlatStaysFlat(rule, want);
    }
  }

  lemma FlatStaysFlat(rule: Json, want: Wanted)
    ensures HasHooksArray(UpdateIfOurs(rule, want)) == HasHooksArray(rule)
  {
    hide IsWisphiveHookCommand;
  }

  /** A rule without our hook is left exactly as it was; in any rule only ours change. */
  lemma UpdateTouchesOnlyOurs(rule: Json, want: Wanted)
    ensures !RuleHasOurs(rule) ==> UpdateRule(rule, want) == rule
    ensures HasHooksArray(rule) ==>
      && HasHooksArray(UpdateRule(rule, want))
      && UpdateRule(rule, want).fields - {"hooks"} == rule.fields - {"hooks"}
      && |HooksOf(UpdateRule(rule, want))| == |HooksOf(rule)|
      && forall i :: 0 <= i < |HooksOf(rule)| && !IsOurs(HooksOf(rule)[i]) ==>
           HooksOf(UpdateRule(rule, want))[i] == HooksOf(rule)[i]
  {
    hide IsOurs, UpdateHook;
    if !RuleHasOurs(rule) && HasHooksArray(rule) {
      assert UpdateAll(HooksOf(rule), want) == HooksOf(rule);
      assert rule.fields["hooks" := rule.fields["hooks"]] == rule.fields;
    }
  }

  // ---------------------------------------------------------------------
  // The rules of one event
  // ---------------------------------------------------------------------

  lemma NewRuleFacts(want: Wanted)
    requires IsWisphiveHookCommand(want.command)
    ensures RuleHasOurs(NewRule(want)) && RemovedRule(NewRule(want)) == None
    ensures UpdateRule(NewRule(want), want) == NewRule(want)
  {
    hide IsWisphiveHookCommand;
    var rule := NewRule(want);
    var hook := HooksOf(rule)[0];
    assert HooksOf(rule) == [hook] && IsOurs(hook);
    assert UpdateHook(hook, want).fields == hook.fields;
    assert UpdateAll([hook], want) == [hook];
    assert rule.fields["hooks" := Arr([hook])] == rule.fields;
    FilterNone((h: Json) => !IsOurs(h), [hook]);
  }

  lemma AddedRulesTwice(rules: seq<Json>, want: Wanted)
    requires IsWisphiveHookCommand(want.command)
    ensures Found(AddedRules(rules, want))
    ensures AddedRules(AddedRules(rules, want), want) == AddedRules(rules, want)
  {
    hide UpdateRule, NewRule, RuleHasOurs;
    var once := AddedRules(rules, want);
    var updated := UpdateRules(rules, want);
    NewRuleFacts(want);
    forall i | 0 <= i < |rules|
      ensures UpdateRule(once[i], want) == once[i] && RuleHasOurs(once[i]) == RuleHasOurs(rules[i])
    {
      assert once[i] == updated[i];
      UpdateRuleFacts(rules[i], want);
    }
    if !Found(rules) {
      assert once[|rules|] == NewRule(want);
    }
    assert Found(once);
    assert UpdateRules(once, want) == once;
  }

  /** Carries the wanted command, and the wanted timeout if one is wanted. */
  predicate UpToDate(hook: Json, want: Wanted) {
    GetString(hook, "command") == Some(want.command)
    && (want.timeout.Some? ==> Get(hook, "timeout") == Some(Number(want.timeout.value)))
  }

  /** Every hook of ours in the rule is up to date. */
  ghost predicate RuleUpToDate(rule: Json, want: Wanted) {
    if HasHooksArray(rule)
    then forall i :: 0 <= i < |HooksOf(rule)| && IsOurs(HooksOf(rule)[i]) ==> UpToDate(HooksOf(rule)[i], want)
    else IsOurs(rule) ==> UpToDate(rule, want)
  }

  lemma UpdatedRuleUpToDate(rule: Json, want: Wanted)
    ensures RuleUpToDate(UpdateRule(rule, want), want)
  {
    hide IsWisphiveHookCommand;
    FlatStaysFlat(rule, want);
  }

  /** After installing, the event has a hook of ours, and every one of them is up to date. */
  lemma InstalledUpToDate(rules: seq<Json>, want: Wanted)
    requires IsWisphiveHookCommand(want.command)
    ensures Found(AddedRules(rules, want))
    ensures forall i :: 0 <= i < |AddedRules(rules, want)| ==> RuleUpToDate(AddedRules(rules, want)[i], want)
  {
    hide UpdateRule, NewRule, RuleHasOurs, RuleUpToDate;
    AddedRulesTwice(rules, want);
    var once := AddedRules(rules, want);
    forall i | 0 <= i < |once| ensures RuleUpToDate(once[i], want) {
      assert AddedRules(once, want)[i] == once[i];
      assert UpdateRules(once, want)[i] == UpdateRule(once[i], want);
      UpdatedRuleUpToDate(once[i], want);
    }
  }

  lemma {:induction false} RemovedAfterUpdate(rules: seq<Json>, want: Wanted)
    requires IsWisphiveHookCommand(want.command)
    ensures RemovedRules(UpdateRules(rules, want)) == RemovedRules(rules)
  {
    hide UpdateRule, RemovedRule;
    if rules != [] {
      var n := |rules| - 1;
      RemovedAfterUpdate(rules[..n], want);
      UpdateRuleFacts(rules[n], want);
      assert UpdateRules(rules, want)[..n] == UpdateRules(rules[..n], want);
    }
  }

  lemma RemovedAfterAdd(rules: seq<Json>, want: Wanted)
    requires IsWisphiveHookCommand(want.command)
    ensures RemovedRules(AddedRules(rules, want)) == RemovedRules(rules)
  {
    hide UpdateRule, RemovedRule, UpdateRules, NewRule;
    RemovedAfterUpdate(rules, want);
    NewRuleFacts(want);
    var updated := UpdateRules(rules, want);
    if Found(rules) {
      assert AddedRules(rules, want) == updated;
    } else {
      var added := updated + [NewRule(want)];
      assert added[..|updated|] == updated;
    }
  }

  /** Everybody else's hooks in a rule, which is one hook itself when it has no list of them. */
  function ForeignRule(rule: Json): seq<Json> {
    if HasHooksArray(rule) then Foreign(HooksOf(rule)) else Foreign([rule])
  }

  /** Everybody else's hooks under an event, in order. */
  function ForeignRules(rules: seq<Json>): seq<Json> {
    if rules == [] then []
    else ForeignRules(rules[..|rules| - 1]) + ForeignRule(rules[|rules| - 1])
  }

  lemma UpdateRuleForeign(rule: Json, want: Wanted)
    requires IsWisphiveHookCommand(want.command)
    ensures ForeignRule(UpdateRule(rule, want)) == ForeignRule(rule)
  {
    if HasHooksArray(rule) {
      UpdateAllForeign(HooksOf(rule), want);
      hide IsOurs, UpdateAll, Foreign;
    } else {
      UpdateAllForeign([rule], want);
      FlatStaysFlat(rule, want);
      hide IsOurs, Foreign;
      assert UpdateAll([rule], want) == [UpdateIfOurs(rule, want)];
    }
  }

  lemma {:induction false} ForeignAfterUpdate(rules: seq<Json>, want: Wanted)
    requires IsWisphiveHookCommand(want.command)
    ensures ForeignRules(UpdateRules(rules, want)) == ForeignRules(rules)
  {
    hide UpdateRule, Foreign;
    if rules != [] {
      var n := |rules| - 1;
      ForeignAfterUpdate(rules[..n], want);
      UpdateRuleForeign(rules[n], want);
      assert UpdateRules(rules, want)[..n] == UpdateRules(rules[..n], want);
    }
  }

  lemma ForeignAfterAdd(rules: seq<Json>, want: Wanted)
    requires IsWisphiveHookCommand(want.command)
    ensures ForeignRules(AddedRules(rules, want)) == ForeignRules(rules)
  {
    hide Foreign, UpdateRules, NewRule, Found, IsWisphiveHookCommand;
    ForeignAfterUpdate(rules, want);
    var updated := UpdateRules(rules, want);
    if Found(rules) {
      assert AddedRules(rules, want) == updated;
    } else {
      NewRuleNotForeign(want);
      assert (updated + [NewRule(want)])[..|updated|] == updated;
      assert ForeignRules(updated) + [] == ForeignRules(updated);
    }
  }

  lemma NewRuleNotForeign(want: Wanted)
    requires IsWisphiveHookCommand(want.command)
    ensures ForeignRule(NewRule(want)) == []
  {
    hide IsWisphiveHookCommand;
    NewRuleFacts(want);
    hide Foreign;
  }

  lemma ForeignFacts(hooks: seq<Json>)
    ensures Foreign(Foreign(hooks)) == Foreign(hooks) && !AnyOurs(Foreign(hooks))
  {
    hide IsOurs, Filter;
    var p := (h: Json) => !IsOurs(h);
    FilterMembers(p, hooks);
    FilterAll(p, Foreign(hooks));
    assert forall i :: 0 <= i < |Foreign(hooks)| ==> Foreign(hooks)[i] in Foreign(hooks);
  }

  lemma RemovedRuleForeign(rule: Json)
    ensures match RemovedRule(rule)
            case Some(left) => ForeignRule(left) == ForeignRule(rule) && !RuleHasOurs(left)
            case None => ForeignRule(rule) == []
  {
    if HasHooksArray(rule) {
      hide IsOurs, AnyOurs, Foreign;
      ForeignFacts(HooksOf(rule));
    } else if IsOurs(rule) {
      hide IsOurs, Filter;
      FilterNone((h: Json) => !IsOurs(h), [rule]);
    } else {
      hide IsOurs, Foreign;
    }
  }

  lemma {:induction false} ForeignAfterRemove(rules: seq<Json>)
    ensures ForeignRules(RemovedRules(rules)) == ForeignRules(rules)
    ensures !Found(RemovedRules(rules))
  {
    hide RemovedRule, Foreign, RuleHasOurs;
    if rules != [] {
      var n := |rules| - 1;
      var before := RemovedRules(rules[..n]);
      ForeignAfterRemove(rules[..n]);
      RemovedRuleForeign(rules[n]);
      match RemovedRule(rules[n]) {
        case Some(left) => { assert (before + [left])[..|before|] == before; }
        case None => { assert before + [] == before; }
      }
    }
  }

  // ---------------------------------------------------------------------
  // Which hooks are ours
  // ---------------------------------------------------------------------

  /** Ours are exactly the entries whose command is a string that runs `wisphive-hook`. */
  lemma OursIff(hook: Json)
    ensures IsOurs(hook) <==> exists cmd :: Get(hook, "command") == Some(Str(cmd)) && ShellGrammar.RunsHook(cmd)
  {
    hide IsWisphiveHookCommand, ShellGrammar.RunsHook;
    if Get(hook, "command").Some? && Get(hook, "command").value.Str? {
      ShellGrammar.RecognisedIff(Get(hook, "command").value.text);
    }
  }

  // ---------------------------------------------------------------------
  // Which rules uninstalling keeps
  // ---------------------------------------------------------------------

  /** Nothing in it is anybody else's: every hook is ours, or there is none. */
  predicate NothingForeign(rule: Json) {
    if HasHooksArray(rule) then forall i :: 0 <= i < |HooksOf(rule)| ==> IsOurs(HooksOf(rule)[i]) else IsOurs(rule)
  }

  predicate IsEmptyRule(rule: Json) { HasHooksArray(rule) && HooksOf(rule) == [] }

  /** A rule that stays keeps its matcher and all else but our hooks; the others stay in order. */
  ghost predicate KeptFrom(rule: Json, left: Json) {
    if HasHooksArray(rule) then
      && HasHooksArray(left) && left.fields - {"hooks"} == rule.fields - {"hooks"}
      && HooksOf(left) == Foreign(HooksOf(rule))
    else left == rule
  }

  lemma ForeignNone(hooks: seq<Json>)
    ensures Foreign(hooks) == [] <==> forall i :: 0 <= i < |hooks| ==> IsOurs(hooks[i])
  {
    hide IsOurs, Filter;
    FilterMembers((h: Json) => !IsOurs(h), hooks);
    if forall i :: 0 <= i < |hooks| ==> IsOurs(hooks[i]) {
      FilterNone((h: Json) => !IsOurs(h), hooks);
    } else {
      var i :| 0 <= i < |hooks| && !IsOurs(hooks[i]);
      assert hooks[i] in Foreign(hooks);
    }
  }

  lemma RuleKeptIff(rule: Json)
    ensures RemovedRule(rule).None? <==> NothingForeign(rule)
    ensures RemovedRule(rule).Some? ==> KeptFrom(rule, RemovedRule(rule).value)
  {
    hide IsOurs, Foreign;
    if HasHooksArray(rule) { ForeignNone(HooksOf(rule)); }
  }

  /** The rules left are, one for one, those in which something is anybody else's. */
  lemma {:induction false} UninstallKeepsRules(rules: seq<Json>)
    ensures var stay := Filter((rule: Json) => !NothingForeign(rule), rules);
      && |RemovedRules(rules)| == |stay|
      && forall i :: 0 <= i < |stay| ==> KeptFrom(stay[i], RemovedRules(rules)[i])
  {
    hide RemovedRule, NothingForeign, KeptFrom;
    if rules != [] {
      var n := |rules| - 1;
      UninstallKeepsRules(rules[..n]);
      RuleKeptIff(rules[n]);
    }
  }

  /** A rule survives unchanged exactly when it has no hook of ours and is not an empty list of hooks. */
  lemma RuleUntouchedIff(rule: Json)
    ensures RemovedRule(rule) == Some(rule) <==> !RuleHasOurs(rule) && !IsEmptyRule(rule)
  {
    hide IsOurs, Filter;
    if HasHooksArray(rule) {
      var hooks := HooksOf(rule);
      if !AnyOurs(hooks) {
        FilterAll((h: Json) => !IsOurs(h), hooks);
        assert rule.fields["hooks" := rule.fields["hooks"]] == rule.fields;
      } else {
        ForeignFacts(hooks);
        assert rule.fields["hooks"] == Arr(hooks);
        assert rule.fields["hooks" := Arr(Foreign(hooks))]["hooks"] == Arr(Foreign(hooks));
      }
    }
  }

  /** Uninstalling from a list of rules changes nothing exactly when that holds of every one of them. */
  lemma {:induction false} UninstallNothingIff(rules: seq<Json>)
    ensures |RemovedRules(rules)| <= |rules|
    ensures RemovedRules(rules) == rules <==>
            forall i :: 0 <= i < |rules| ==> !RuleHasOurs(rules[i]) && !IsEmptyRule(rules[i])
  {
    hide RemovedRule, RuleHasOurs, IsEmptyRule;
    if rules != [] {
      var n := |rules| - 1;
      UninstallNothingIff(rules[..n]);
      RuleUntouchedIff(rules[n]);
      assert rules == rules[..n] + [rules[n]];
      if RemovedRules(rules) == rules {
        assert RemovedRules(rules)[..n] == rules[..n] && RemovedRules(rules)[n] == rules[n];
      }
    }
  }

  /** So a rule of the user's with an empty list of hooks is dropped, though nothing in it is ours. */
  lemma EmptyRuleDropped(matcher: string)
    ensures var rule := Obj(map["matcher" := Str(matcher), "hooks" := Arr([])]);
      !RuleHasOurs(rule) && RemovedRules([rule]) == []
  {
    var rule := Obj(map["matcher" := Str(matcher), "hooks" := Arr([])]);
    assert HasHooksArray(rule) && HooksOf(rule) == [];
    assert RemovedRule(rule).None?;
    assert [rule][..0] == [];
  }

  // ---------------------------------------------------------------------
  // The whole document, one event
  // ---------------------------------------------------------------------

  /** Installing twice is installing once. */
  lemma InstallTwice(settings: Json, event: string, want: Wanted)
    requires HasHooksObject(settings) && IsWisphiveHookCommand(want.command)
    ensures var once := Added(settings, event, want); HasHooksObject(once) && Added(once, event, want) == once
  {
    hide AddedRules;
    var hooks := HooksObject(settings);
    var entries := if event in hooks then hooks[event] else Arr([]);
    if entries.Arr? { AddedRulesTwice(entries.items, want); }
    var once := Added(settings, event, want);
    assert AddedHooks(HooksObject(once), event, want) == HooksObject(once);
    assert once.fields["hooks" := once.fields["hooks"]] == once.fields;
  }

  /** Uninstalling forgets whether we were installed, exactly when the event was already listed. */
  lemma UninstallAfterInstall(settings: Json, event: string, want: Wanted)
    requires HasHooksObject(settings) && IsWisphiveHookCommand(want.command)
    ensures Removed(Added(settings, event, want), event) == Removed(settings, event)
            <==> event in HooksObject(settings)
  {
    hide AddedRules, RemovedRules;
    var hooks := HooksObject(settings);
    var added := Added(settings, event, want);
    if event in hooks {
      if hooks[event].Arr? { RemovedAfterAdd(hooks[event].items, want); }
      var removed := RemovedEntries(hooks[event]);
      assert HooksObject(added)[event := removed] == hooks[event := removed];
      var after := Obj(hooks[event := removed]);
      assert added.fields["hooks" := after] == settings.fields["hooks" := after];
    } else {
      assert event in HooksObject(Removed(added, event));
      assert event !in HooksObject(Removed(settings, event));
    }
  }

  /** A document whose hooks do not list the event keeps an empty list behind. */
  lemma UninstallLeavesEmptyList(want: Wanted, event: string)
    requires IsWisphiveHookCommand(want.command)
    ensures var settings := Obj(map["hooks" := Obj(map[])]);
      Removed(Added(settings, event, want), event) == Obj(map["hooks" := Obj(map[event := Arr([])])])
      && Removed(settings, event) == settings
  {
    hide AddedRules;
    var settings := Obj(map["hooks" := Obj(map[])]);
    RemovedAfterAdd([], want);
    assert HooksObject(settings) == map[];
    assert HooksObject(Added(settings, event, want)) == map[event := Arr(AddedRules([], want))];
    assert map[event := Arr(AddedRules([], want))][event := Arr([])] == map[event := Arr([])];
    assert Added(settings, event, want).fields["hooks" := Obj(map[event := Arr([])])]
        == map["hooks" := Obj(map[event := Arr([])])];
  }

  /** Hooks of everybody else listed under an event. */
  function ForeignUnder(settings: Json, event: string): seq<Json> {
    if HasHooksObject(settings) && event in HooksObject(settings) && HooksObject(settings)[event].Arr?
    then ForeignRules(HooksObject(settings)[event].items) else []
  }

  /** Uninstalling leaves a document as it was exactly when the event has no hook of ours and no empty rule. */
  lemma UninstallUnchangedIff(settings: Json, event: string)
    requires HasHooksObject(settings)
    ensures Removed(settings, event) == settings <==>
            (event in HooksObject(settings) && HooksObject(settings)[event].Arr? ==>
               forall rule :: rule in HooksObject(settings)[event].items ==> !RuleHasOurs(rule) && !IsEmptyRule(rule))
  {
    hide RemovedRules, RuleHasOurs, IsEmptyRule;
    var hooks := HooksObject(settings);
    if event in hooks && hooks[event].Arr? {
      var rules := hooks[event].items;
      UninstallNothingIff(rules);
      var after := hooks[event := Arr(RemovedRules(rules))];
      assert after[event] == Arr(RemovedRules(rules));
      assert Removed(settings, event).fields["hooks"] == Obj(after);
      if RemovedRules(rules) == rules {
        assert after == hooks;
        assert settings.fields["hooks" := settings.fields["hooks"]] == settings.fields;
      }
    } else if event in hooks {
      assert hooks[event := hooks[event]] == hooks;
      assert settings.fields["hooks" := settings.fields["hooks"]] == settings.fields;
    }
  }

  /**
   Neither installing nor uninstalling changes, drops or reorders a hook that is
   not ours, under any event, or touches anything outside the event's list.
   */
  lemma ForeignHooksKept(settings: Json, event: string, want: Wanted, other: string)
    requires HasHooksObject(settings) && IsWisphiveHookCommand(want.command)
    ensures ForeignUnder(Added(settings, event, want), other) == ForeignUnder(settings, other)
    ensures ForeignUnder(Removed(settings, event), other) == ForeignUnder(settings, other)
    ensures forall after :: after in {Added(settings, event, want), Removed(settings, event)} ==>
      && after.Obj? && HasHooksObject(after) && after.fields - {"hooks"} == settings.fields - {"hooks"}
      && HooksObject(after) - {event} == HooksObject(settings) - {event}
  {
    hide AddedRules, RemovedRules, ForeignRules;
    var hooks := HooksObject(settings);
    if other == event {
      if event in hooks && hooks[event].Arr? {
        ForeignAfterAdd(hooks[event].items, want);
        ForeignAfterRemove(hooks[event].items);
      } else {
        ForeignAfterAdd([], want);
        assert ForeignRules([]) == [] by { NoForeignRules(); }
      }
    }
  }

  lemma NoForeignRules()
    ensures ForeignRules([]) == []
  {
  }

  // ---------------------------------------------------------------------
  // All events of an agent
  // ---------------------------------------------------------------------

  function InstalledHooks(hooks: map<string, Json>, events: seq<string>, want: Wanted): map<string, Json> {
    if events == [] then hooks
    else AddedHooks(InstalledHooks(hooks, events[..|events| - 1], want), events[|events| - 1], want)
  }

  lemma AddedEntriesTwice(entries: Json, want: Wanted)
    requires IsWisphiveHookCommand(want.command)
    ensures AddedEntries(AddedEntries(entries, want), want) == AddedEntries(entries, want)
  {
    hide AddedRules;
    if entries.Arr? { AddedRulesTwice(entries.items, want); }
  }

  function EntriesOf(hooks: map<string, Json>, event: string): Json {
    if event in hooks then hooks[event] else Arr([])
  }

  /** The loop over events edits each listed event once and no other. */
  lemma {:induction false} InstalledEach(hooks: map<string, Json>, events: seq<string>, want: Wanted)
    requires IsWisphiveHookCommand(want.command)
    ensures InstalledHooks(hooks, events, want).Keys == hooks.Keys + set e | e in events
    ensures forall e :: e in InstalledHooks(hooks, events, want) ==>
      InstalledHooks(hooks, events, want)[e]
      == if e in events then AddedEntries(EntriesOf(hooks, e), want) else hooks[e]
  {
    hide AddedEntries;
    if events != [] {
      var n := |events| - 1;
      var last := events[n];
      assert events == events[..n] + [last];
      InstalledEach(hooks, events[..n], want);
      AddedEntriesTwice(EntriesOf(hooks, last), want);
    }
  }

  /** Installing all of an agent's events twice is installing them once. */
  lemma InstallAllTwice(hooks: map<string, Json>, events: seq<string>, want: Wanted)
    requires IsWisphiveHookCommand(want.command)
    ensures var once := InstalledHooks(hooks, events, want); InstalledHooks(once, events, want) == once
  {
    hide AddedEntries, InstalledHooks;
    var once := InstalledHooks(hooks, events, want);
    InstalledEach(hooks, events, want);
    InstalledEach(once, events, want);
    var twice := InstalledHooks(once, events, want);
    assert twice.Keys == once.Keys;
    forall e | e in twice ensures twice[e] == once[e] {
      if e in events { AddedEntriesTwice(EntriesOf(hooks, e), want); }
    }
  }
}
