/**
 Editing hook settings: installing a command under an event, and removing it
 again without touching anybody else's hooks. The document is a parsed value;
 rules are edited in place as the installer does.
 */
module HookInstall {
  import opened Lists
  import opened Json
  import opened ShellQuote

  /** A hook, or a flat legacy rule, that runs our binary. */
  predicate IsOurs(hook: Json) {
    var command := GetString(hook, "command");
    command.Some? && IsWisphiveHookCommand(command.value)
  }

  predicate HasHooksArray(rule: Json) { Get(rule, "hooks").Some? && Get(rule, "hooks").value.Arr? }

  function HooksOf(rule: Json): seq<Json>
    requires HasHooksArray(rule)
  {
    rule.fields["hooks"].items
  }

  /** What the installer writes into a command hook. */
  datatype Wanted = Wanted(command: string, timeout: Option<nat>)

  function UpdateHook(hook: Json, want: Wanted): Json {
    if !hook.Obj? then hook
    else
      var named := hook.fields["command" := Str(want.command)];
      Obj(match want.timeout
          case Some(t) => named["timeout" := Number(t)]
          case None => named)
  }

  function UpdateIfOurs(hook: Json, want: Wanted): Json {
    if IsOurs(hook) then UpdateHook(hook, want) else hook
  }

  function UpdateAll(hooks: seq<Json>, want: Wanted): (r: seq<Json>)
    ensures |r| == |hooks| && forall i :: 0 <= i < |r| ==> r[i] == UpdateIfOurs(hooks[i], want)
  {
    seq(|hooks|, i requires 0 <= i < |hooks| => UpdateIfOurs(hooks[i], want))
  }

  function UpdateRule(rule: Json, want: Wanted): Json {
    if HasHooksArray(rule) then Obj(rule.fields["hooks" := Arr(UpdateAll(HooksOf(rule), want))])
    else UpdateIfOurs(rule, want)
  }

  function UpdateRules(rules: seq<Json>, want: Wanted): (r: seq<Json>)
    ensures |r| == |rules| && forall i :: 0 <= i < |r| ==> r[i] == UpdateRule(rules[i], want)
  {
    seq(|rules|, i requires 0 <= i < |rules| => UpdateRule(rules[i], want))
  }

  predicate AnyOurs(hooks: seq<Json>) { exists i :: 0 <= i < |hooks| && IsOurs(hooks[i]) }

  predicate RuleHasOurs(rule: Json) {
    if HasHooksArray(rule) then AnyOurs(HooksOf(rule)) else IsOurs(rule)
  }

  predicate Found(rules: seq<Json>) { exists i :: 0 <= i < |rules| && RuleHasOurs(rules[i]) }

  function NewRule(want: Wanted): Json {
    var hook := map["type" := Str("command"), "command" := Str(want.command)];
    Obj(map["matcher" := Str(""),
            "hooks" := Arr([Obj(match want.timeout
                                case Some(t) => hook["timeout" := Number(t)]
                                case None => hook)])])
  }

  /** The rules of an event after installing: ours brought up to date, or one added. */
  function AddedRules(rules: seq<Json>, want: Wanted): seq<Json> {
    UpdateRules(rules, want) + if Found(rules) then [] else [NewRule(want)]
  }

  function AddedEntries(entries: Json, want: Wanted): Json {
    if entries.Arr? then Arr(AddedRules(entries.items, want)) else entries
  }

  datatype Refusal = MissingHooks | HooksNotAnObject | RootNotAnObject

  function AddedHooks(hooks: map<string, Json>, event: string, want: Wanted): map<string, Json> {
    hooks[event := AddedEntries(if event in hooks then hooks[event] else Arr([]), want)]
  }

  predicate HasHooksObject(settings: Json) { Get(settings, "hooks").Some? && Get(settings, "hooks").value.Obj? }

  function HooksObject(settings: Json): map<string, Json>
    requires HasHooksObject(settings)
  {
    settings.fields["hooks"].fields
  }

  function WithHooks(settings: Json, hooks: map<string, Json>): Json
    requires settings.Obj?
  {
    Obj(settings.fields["hooks" := Obj(hooks)])
  }

  function Added(settings: Json, event: string, want: Wanted): Json
    requires HasHooksObject(settings)
  {
    WithHooks(settings, AddedHooks(HooksObject(settings), event, want))
  }

  // ---------------------------------------------------------------------
  // Removing
  // ---------------------------------------------------------------------

  function Foreign(hooks: seq<Json>): seq<Json> { Filter((h: Json) => !IsOurs(h), hooks) }

  /** What is left of a rule: nothing, when no hook of anybody else remains in it. */
  function RemovedRule(rule: Json): Option<Json> {
    if HasHooksArray(rule) then
      var kept := Foreign(HooksOf(rule));
      if kept == [] then None else Some(Obj(rule.fields["hooks" := Arr(kept)]))
    else if IsOurs(rule) then None else Some(rule)
  }

  function RemovedRules(rules: seq<Json>): seq<Json> {
    if rules == [] then []
    else
      var n := |rules| - 1;
      RemovedRules(rules[..n])
      + match RemovedRule(rules[n]) case Some(rule) => [rule] case None => []
  }

  function RemovedEntries(entries: Json): Json {
    if entries.Arr? then Arr(RemovedRules(entries.items)) else entries
  }

  function Removed(settings: Json, event: string): Json {
    if HasHooksObject(settings) && event in HooksObject(settings)
    then WithHooks(settings, HooksObject(settings)[event := RemovedEntries(HooksObject(settings)[event])])
    else settings
  }

  // ---------------------------------------------------------------------
  // The edits in place
  // ---------------------------------------------------------------------

  /** The inner loop over one rule's hooks. */
  method UpdateHooksOf(hooks: seq<Json>, want: Wanted) returns (updated: seq<Json>, found: bool)
    ensures updated == UpdateAll(hooks, want) && found == AnyOurs(hooks)
  {
    updated, found := hooks, false;
    hide IsOurs, UpdateHook, AnyOurs;
    assert !AnyOurs(hooks[..0]) by { NoneOurs(); }
    for i := 0 to |hooks|
      invariant |updated| == |hooks|
      invariant forall k :: 0 <= k < i ==> updated[k] == UpdateIfOurs(hooks[k], want)
      invariant forall k :: i <= k < |hooks| ==> updated[k] == hooks[k]
      invariant found <==> AnyOurs(hooks[..i])
    {
      AnyOursSnoc(hooks, i);
      if IsOurs(updated[i]) {
        found := true;
        updated := updated[i := UpdateHook(updated[i], want)];
      }
    }
    assert hooks[..|hooks|] == hooks;
  }

  lemma AnyOursSnoc(hooks: seq<Json>, i: nat)
    requires i < |hooks|
    ensures AnyOurs(hooks[..i + 1]) <==> AnyOurs(hooks[..i]) || IsOurs(hooks[i])
  {
    hide IsOurs;
    assert hooks[..i + 1][i] == hooks[i];
    assert forall k :: 0 <= k < i ==> hooks[..i + 1][k] == hooks[..i][k];
  }

  lemma NoneOurs()
    ensures !AnyOurs([])
  {
  }

  method UpdateExistingWisphiveHooks(rules: array<Json>, want: Wanted) returns (found: bool)
    modifies rules
    ensures rules[..] == UpdateRules(old(rules[..]), want)
    ensures found == Found(old(rules[..]))
  {
    found := false;
    ghost var was := rules[..];
    for i := 0 to rules.Length
      invariant forall k :: 0 <= k < i ==> rules[k] == UpdateRule(was[k], want)
      invariant forall k :: i <= k < rules.Length ==> rules[k] == was[k]
      invariant found <==> Found(was[..i])
    {
      hide IsOurs, UpdateHook, UpdateAll;
      FoundSnoc(was, i);
      var rule := rules[i];
      if HasHooksArray(rule) {
        var hooks, any := UpdateHooksOf(HooksOf(rule), want);
        rules[i] := Obj(rule.fields["hooks" := Arr(hooks)]);
        found := found || any;
      } else if IsOurs(rule) {
        found := true;
        rules[i] := UpdateHook(rule, want);
      }
    }
    assert was[..rules.Length] == was;
  }

  lemma FoundSnoc(rules: seq<Json>, i: nat)
    requires i < |rules|
    ensures Found(rules[..i + 1]) <==> Found(rules[..i]) || RuleHasOurs(rules[i])
  {
    hide RuleHasOurs;
    assert rules[..i + 1][i] == rules[i];
    assert forall k :: 0 <= k < i ==> rules[..i + 1][k] == rules[..i][k];
  }

  class SettingsDocument {
    var root: Json

    constructor (root: Json)
      ensures this.root == root
    {
      this.root := root;
    }

    /** An absent `hooks` member becomes an empty object; a present one must be an object. */
    method EnsureHooksObject() returns (result: Result<(), Refusal>)
      modifies this
      ensures result.Ok? <==> old(root).Obj? && ("hooks" in old(root).fields ==> old(root).fields["hooks"].Obj?)
      ensures result.Ok? ==> HasHooksObject(root)
      ensures result.Ok? ==> root == if "hooks" in old(root).fields then old(root) else WithHooks(old(root), map[])
      ensures result.Err? ==> root == old(root)
    {
      if !root.Obj? {
        return Err(RootNotAnObject);
      }
      if "hooks" in root.fields && !root.fields["hooks"].Obj? {
        return Err(HooksNotAnObject);
      }
      if "hooks" !in root.fields {
        root := Obj(root.fields["hooks" := Obj(map[])]);
      }
      return Ok(());
    }

    method AddHookEntry(event: string, want: Wanted) returns (result: Result<(), Refusal>)
      modifies this
      ensures result.Ok? <==> HasHooksObject(old(root))
      ensures result.Ok? ==> root == Added(old(root), event, want)
      ensures result.Err? ==> root == old(root)
    {
      if Get(root, "hooks").None? {
        return Err(MissingHooks);
      }
      if !HasHooksObject(root) {
        return Err(HooksNotAnObject);
      }
      var hooks := HooksObject(root);
      if event !in hooks {
        hooks := hooks[event := Arr([])];
      }
      if hooks[event].Arr? {
        var items := hooks[event].items;
        var rules := new Json[|items|](i requires 0 <= i < |items| => items[i]);
        assert rules[..] == items;
        var present := UpdateExistingWisphiveHooks(rules, want);
        var edited := rules[..];
        if !present {
          edited := edited + [NewRule(want)];
        }
        assert edited == AddedRules(items, want);
        hooks := hooks[event := Arr(edited)];
      }
      assert hooks == AddedHooks(HooksObject(root), event, want);
      root := WithHooks(root, hooks);
      return Ok(());
    }

    method RemoveHookEntries(event: string)
      modifies this
      ensures root == Removed(old(root), event)
    {
      if !HasHooksObject(root) || event !in HooksObject(root) || !HooksObject(root)[event].Arr? {
        if HasHooksObject(root) && event in HooksObject(root) {
          var hooks := HooksObject(root);
          assert hooks[event := hooks[event]] == hooks;
          assert root.fields["hooks" := Obj(hooks)] == root.fields;
        }
        return;
      }
      var hooks := HooksObject(root);
      var rules := hooks[event].items;
      var kept := [];
      for i := 0 to |rules|
        invariant kept == RemovedRules(rules[..i])
        invariant root == old(root)
      {
        hide RemovedRule;
        assert rules[..i + 1][..i] == rules[..i];
        var left := RemovedRule(rules[i]);
        if left.Some? {
          kept := kept + [left.value];
        }
      }
      assert rules[..|rules|] == rules;
      root := WithHooks(root, hooks[event := Arr(kept)]);
    }
  }
}
