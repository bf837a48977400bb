/** Which configuration layers let the gate run, told by what they set. */
module CodexLayers {
  import opened Lists
  import opened SemVer
  import opened SemVerTheorems
  import opened Inspector
  import opened CodexAudit
  import opened CodexAuditTheorems
  import PathNames
  import ShellQuote

  // ---------------------------------------------------------------------
  // Keys of persisted hook state
  // ---------------------------------------------------------------------

  predicate Numeral(digits: string) { digits != "" && AllDigits(digits) && Value(digits) <= U64_MAX }

  /** A numeral as the parser of indices takes it: an optional sign, then digits, within 64 bits. */
  ghost predicate SpellsIndex(s: string) {
    exists digits :: Numeral(digits) && (s == digits || s == "+" + digits)
  }

  lemma IndexIff(s: string)
    ensures IsIndex(s) <==> SpellsIndex(s)
  {
    var digits := if s != "" && s[0] == '+' then s[1..] else s;
    if IsIndex(s) {
      assert Numeral(digits) && (s == digits || s == "+" + digits);
    }
    if SpellsIndex(s) {
      var d :| Numeral(d) && (s == d || s == "+" + d);
      assert IsDigit(d[0]);
      if s == "+" + d { assert s[1..] == d; }
    }
  }

  predicate IsEventChar(c: char) { 'a' <= c <= 'z' || '0' <= c <= '9' || c == '_' }

  /** An absolute path to a hooks.json, an event, a rule and a hook, joined by colons. */
  ghost predicate KeyParts(key: string, source: string, event: string, rule: string, hook: string) {
    && key == source + ":" + event + ":" + rule + ":" + hook
    && source != "" && source[0] == '/' && ShellQuote.FileName(source) == Some("hooks.json")
    && event != "" && (forall c :: c in event ==> IsEventChar(c))
    && SpellsIndex(rule) && SpellsIndex(hook)
  }

  ghost predicate KeyOfAHook(key: string) {
    exists source, event, rule, hook :: KeyParts(key, source, event, rule, hook)
  }

  lemma NoColon(s: string)
    ensures SpellsIndex(s) ==> ':' !in s
    ensures (forall c :: c in s ==> IsEventChar(c)) ==> ':' !in s
  {
    if SpellsIndex(s) {
      var d :| Numeral(d) && (s == d || s == "+" + d);
      assert ':' !in d;
    }
  }

  lemma SnakeIff(s: string)
    ensures IsSnakeCase(s) <==> s != "" && forall c :: c in s ==> IsEventChar(c)
  {
    if s != "" && forall c :: c in s ==> IsEventChar(c) {
      assert forall i :: 0 <= i < |s| ==> IsEventChar(s[i]);
    }
  }

  lemma SplitFour(source: string, event: string, rule: string, hook: string)
    requires ':' !in event && ':' !in rule && ':' !in hook
    ensures Split(source + ":" + event + ":" + rule + ":" + hook, ':') == Split(source, ':') + [event, rule, hook]
  {
    hide Split;
    PathNames.SplitSnoc(source, event, ':');
    PathNames.SplitSnoc(source + ":" + event, rule, ':');
    PathNames.SplitSnoc(source + ":" + event + ":" + rule, hook, ':');
    var parts := Split(source, ':');
    assert parts + [event] + [rule] + [hook] == parts + [event, rule, hook];
  }

  lemma {:induction false} JoinSnoc(parts: seq<string>, x: string)
    requires parts != []
    ensures Join(parts + [x], ':') == Join(parts, ':') + ":" + x
  {
    if |parts| == 1 {
      assert (parts + [x])[1..] == [x];
      assert Join([x], ':') == x;
    } else {
      assert (parts + [x])[1..] == parts[1..] + [x];
      JoinSnoc(parts[1..], x);
    }
  }

  /** The key as its last three parts and what is before them. */
  lemma SplitBack(key: string, n: nat)
    requires n == |Split(key, ':')| && n >= 4
    ensures var parts := Split(key, ':');
      key == Join(parts[..n - 3], ':') + ":" + parts[n - 3] + ":" + parts[n - 2] + ":" + parts[n - 1]
  {
    hide Split, Join;
    var parts := Split(key, ':');
    JoinSplit(key, ':');
    assert parts == parts[..n - 1] + [parts[n - 1]];
    assert parts[..n - 1] == parts[..n - 2] + [parts[n - 2]];
    assert parts[..n - 2] == parts[..n - 3] + [parts[n - 3]];
    JoinSnoc(parts[..n - 1], parts[n - 1]);
    JoinSnoc(parts[..n - 2], parts[n - 2]);
    JoinSnoc(parts[..n - 3], parts[n - 3]);
  }

  /** The format test recognises exactly such keys, colons in the path included. */
  lemma KeyShapedIff(key: string)
    ensures StateKeyShaped(key) <==> KeyOfAHook(key)
  {
    hide Split, Join, IsIndex, IsSnakeCase, SpellsIndex, ShellQuote.FileName, IsEventChar;
    var parts := Split(key, ':');
    var n := |parts|;
    if StateKeyShaped(key) {
      SplitBack(key, n);
      var source := Join(parts[..n - 3], ':');
      IndexIff(parts[n - 2]);
      IndexIff(parts[n - 1]);
      SnakeIff(parts[n - 3]);
      assert KeyParts(key, source, parts[n - 3], parts[n - 2], parts[n - 1]);
    }
    if KeyOfAHook(key) {
      var source, event, rule, hook :| KeyParts(key, source, event, rule, hook);
      PartsShaped(key, source, event, rule, hook);
    }
  }

  lemma PartsShaped(key: string, source: string, event: string, rule: string, hook: string)
    requires KeyParts(key, source, event, rule, hook)
    ensures StateKeyShaped(key)
  {
    hide Split, Join, IsIndex, IsSnakeCase, SpellsIndex, ShellQuote.FileName, IsEventChar;
    NoColon(event);
    NoColon(rule);
    NoColon(hook);
    SplitFour(source, event, rule, hook);
    JoinSplit(source, ':');
    IndexIff(rule);
    IndexIff(hook);
    SnakeIff(event);
    var parts := Split(key, ':');
    var n := |parts|;
    assert parts[..n - 3] == Split(source, ':');
  }

  // ---------------------------------------------------------------------
  // Layers
  // ---------------------------------------------------------------------

  /** The key under which Codex records whether a hook of the project file is enabled. */
  function GateKey(site: Site, rule: nat, hook: nat): string {
    ProjectHooks(site) + ":pre_tool_use:" + Decimal(rule) + ":" + Decimal(hook)
  }

  /**
   Hooks are on and not restricted to managed ones, no gate hook is recorded as
   anything but enabled, and every recorded key is in the known format.
   */
  ghost predicate LetsGateRun(site: Site, gates: seq<(nat, nat)>, scan: Scan) {
    && !scan.hooksDisabled && !scan.managedOnly
    && (forall key, state, rule, hook ::
          (key, state) in scan.states && (rule, hook) in gates && key == GateKey(site, rule, hook) ==>
            state == Some(true))
    && (forall key, state :: (key, state) in scan.states ==> KeyOfAHook(key))
  }

  lemma GateKeysAre(site: Site, gates: seq<(nat, nat)>, key: string)
    ensures key in GateKeys(ProjectHooks(site), gates) <==>
            exists rule, hook :: (rule, hook) in gates && key == GateKey(site, rule, hook)
  {
    hide Decimal, ProjectHooks;
    var keys := GateKeys(ProjectHooks(site), gates);
    if key in keys {
      var i :| 0 <= i < |keys| && keys[i] == key;
      assert (gates[i].0, gates[i].1) in gates;
    }
    if rule, hook :| (rule, hook) in gates && key == GateKey(site, rule, hook) {
      var i :| 0 <= i < |gates| && gates[i] == (rule, hook);
      assert keys[i] == key;
    }
  }

  /** A layer is refused exactly when it does not let the gate run. */
  lemma RefusedIff(site: Site, gates: seq<(nat, nat)>, scan: Scan)
    ensures LayerRefused(scan, GateKeys(ProjectHooks(site), gates)) <==> !LetsGateRun(site, gates, scan)
  {
    hide StateKeyShaped, KeyOfAHook, GateKeys, GateKey;
    forall key ensures key in GateKeys(ProjectHooks(site), gates) <==>
                       exists rule, hook :: (rule, hook) in gates && key == GateKey(site, rule, hook)
    {
      GateKeysAre(site, gates, key);
    }
    forall key ensures StateKeyShaped(key) <==> KeyOfAHook(key) { KeyShapedIff(key); }
    var states := scan.states;
    assert forall i :: 0 <= i < |states| ==> (states[i].0, states[i].1) in states;
    assert forall key, state :: (key, state) in states ==> exists i :: 0 <= i < |states| && states[i] == (key, state);
  }
}
