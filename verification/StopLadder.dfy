/**
 The stop ladder for a managed process group: SIGTERM, a grace period, SIGKILL,
 and a confirmation that the group is empty. The operating system is an
 arbitrary adversary that answers from the whole history of what was asked; the
 only thing taken for granted is that a sleep lasts at least its interval.
 */
module StopLadder {
  import opened Lists

  const STOP_TERM_GRACE: nat := 2000
  const STOP_KILL_CONFIRM: nat := 2000
  const STOP_POLL_INTERVAL: nat := 25
  const ESRCH: int := 3

  datatype Signal = Term | Kill | Probe

  datatype SysResult = Success | Errno(code: int)

  datatype WaitResult = Running | Exited(status: Option<int>) | WaitError

  datatype Event =
    | KillPg(pgid: int, signal: Signal, result: SysResult)
    | TryWait(wait: WaitResult)
    | StartKill
    | Now(time: nat)
    | Sleep

  datatype Env = Env(
    killpg: (seq<Event>, int, Signal) -> SysResult,
    tryWait: seq<Event> -> WaitResult,
    delay: seq<Event> -> nat)

  /** The earliest time it can be, given what was read off the clock and slept through. */
  function Clock(trace: seq<Event>): nat {
    if trace == [] then 0
    else
      var before := Clock(trace[..|trace| - 1]);
      match trace[|trace| - 1]
      case Now(t) => t
      case Sleep => before + STOP_POLL_INTERVAL
      case _ => before
  }

  function Sleeps(trace: seq<Event>): nat {
    if trace == [] then 0
    else Sleeps(trace[..|trace| - 1]) + if trace[|trace| - 1] == Sleep then 1 else 0
  }

  predicate IsKill(e: Event) { e.KillPg? && e.signal == Kill }

  function Kills(trace: seq<Event>): nat {
    if trace == [] then 0
    else Kills(trace[..|trace| - 1]) + if IsKill(trace[|trace| - 1]) then 1 else 0
  }

  predicate IsReap(e: Event) { e.TryWait? && e.wait.Exited? }

  predicate FoundEmpty(e: Event) { e.KillPg? && e.signal == Probe && e.result == Errno(3) }

  lemma Appended(trace: seq<Event>, e: Event)
    ensures Sleeps(trace + [e]) == Sleeps(trace) + if e == Sleep then 1 else 0
    ensures Kills(trace + [e]) == Kills(trace) + if IsKill(e) then 1 else 0
    ensures Clock(trace + [e])
            == match e { case Now(t) => t case Sleep => Clock(trace) + STOP_POLL_INTERVAL case _ => Clock(trace) }
  {
    assert (trace + [e])[..|trace|] == trace;
  }

  datatype GroupResult = Sent | Refused | Failed(errno: int)

  /** Refuses every group id that is not above one, without a system call. */
  method SignalGroup(env: Env, before: seq<Event>, pgid: int, signal: Signal)
    returns (trace: seq<Event>, result: GroupResult)
    ensures pgid <= 1 ==> trace == before && result == Refused
    ensures pgid > 1 ==>
      && trace == before + [KillPg(pgid, signal, env.killpg(before, pgid, signal))]
      && result == match env.killpg(before, pgid, signal) { case Success => Sent case Errno(n) => Failed(n) }
  {
    if pgid <= 1 {
      return before, Refused;
    }
    var answer := env.killpg(before, pgid, signal);
    trace := before + [KillPg(pgid, signal, answer)];
    match answer {
      case Success => { result := Sent; }
      case Errno(n) => { result := Failed(n); }
    }
  }

  method ProcessGroupGone(env: Env, before: seq<Event>, pgid: int) returns (trace: seq<Event>, gone: bool)
    ensures pgid <= 1 ==> trace == before && !gone
    ensures pgid > 1 ==>
      && trace == before + [KillPg(pgid, Probe, env.killpg(before, pgid, Probe))]
      && (gone <==> env.killpg(before, pgid, Probe) == Errno(ESRCH))
  {
    var result;
    trace, result := SignalGroup(env, before, pgid, Probe);
    gone := result == Failed(ESRCH);
  }

  // ---------------------------------------------------------------------
  // What a trace of the ladder satisfies
  // ---------------------------------------------------------------------

  /** Position of the clock reading that starts the grace period. */
  function StartAt(pgid: int): nat { if pgid > 1 then 1 else 0 }

  /** Signals go only to this group, and only when its id is above one. */
  ghost predicate Aimed(trace: seq<Event>, pgid: int) {
    forall i :: 0 <= i < |trace| && trace[i].KillPg? ==> trace[i].pgid == pgid && pgid > 1
  }

  /** SIGTERM comes first and once, then the clock is read. */
  ghost predicate Opened(trace: seq<Event>, pgid: int) {
    && |trace| > StartAt(pgid)
    && trace[StartAt(pgid)].Now?
    && (pgid > 1 ==> trace[0].KillPg? && trace[0].signal == Term)
    && (forall i :: 1 <= i < |trace| && trace[i].KillPg? ==> trace[i].signal != Term)
  }

  /** SIGKILL follows a clock reading at or past the end of the grace period. */
  ghost predicate Graceful(trace: seq<Event>, start: nat) {
    forall i :: 0 <= i < |trace| && (IsKill(trace[i]) || trace[i] == StartKill) ==>
      exists j :: 0 <= j < i && trace[j].Now? && trace[j].time >= start + STOP_TERM_GRACE
  }

  /** The leader is reaped at most once; probes come only after it, a direct kill only before. */
  ghost predicate Ordered(trace: seq<Event>) {
    && (forall i, j :: 0 <= i < j < |trace| && IsReap(trace[i]) ==> !trace[j].TryWait? && trace[j] != StartKill)
    && (forall j :: 0 <= j < |trace| && trace[j].KillPg? && trace[j].signal == Probe ==>
          exists i :: 0 <= i < j && IsReap(trace[i]))
  }

  /** The status reaped so far. */
  ghost predicate ReapedAs(trace: seq<Event>, code: Option<Option<int>>) {
    match code
    case None => forall i :: 0 <= i < |trace| ==> !IsReap(trace[i])
    case Some(status) => exists i :: 0 <= i < |trace| && trace[i] == TryWait(Exited(status))
  }

  ghost predicate NeverEmpty(trace: seq<Event>) {
    forall i :: 0 <= i < |trace| ==> !FoundEmpty(trace[i])
  }

  /** The safety of every prefix of a run. */
  ghost predicate Safe(trace: seq<Event>, pgid: int) {
    && Aimed(trace, pgid)
    && Opened(trace, pgid)
    && Graceful(trace, trace[StartAt(pgid)].time)
    && Ordered(trace)
    && Kills(trace) <= 1
  }

  lemma SafeAppend(trace: seq<Event>, pgid: int, e: Event)
    requires Safe(trace, pgid)
    requires e.KillPg? ==> e.pgid == pgid && pgid > 1 && e.signal != Term
    requires IsKill(e) || e == StartKill ==>
      exists j :: 0 <= j < |trace| && trace[j].Now? && trace[j].time >= trace[StartAt(pgid)].time + STOP_TERM_GRACE
    requires IsKill(e) ==> Kills(trace) == 0
    requires e.TryWait? || e == StartKill ==> ReapedAs(trace, None)
    requires e.KillPg? && e.signal == Probe ==> exists i :: 0 <= i < |trace| && IsReap(trace[i])
    ensures Safe(trace + [e], pgid)
  {
    Appended(trace, e);
    hide Kills, Clock, Sleeps;
    var more := trace + [e];
    assert more[..|trace|] == trace;
    assert Graceful(more, trace[StartAt(pgid)].time) by {
      forall i | 0 <= i < |more| && (IsKill(more[i]) || more[i] == StartKill)
        ensures exists j :: 0 <= j < i && more[j].Now? && more[j].time >= trace[StartAt(pgid)].time + STOP_TERM_GRACE
      {
        var j :| 0 <= j < i && trace[j].Now? && trace[j].time >= trace[StartAt(pgid)].time + STOP_TERM_GRACE;
        assert more[j] == trace[j];
      }
    }
    assert Ordered(more) by {
      forall j | 0 <= j < |more| && more[j].KillPg? && more[j].signal == Probe
        ensures exists i :: 0 <= i < j && IsReap(more[i])
      {
        var i :| 0 <= i < j && IsReap(trace[i]);
        assert more[i] == trace[i];
      }
    }
  }

  lemma ReapedAppend(trace: seq<Event>, code: Option<Option<int>>, e: Event)
    requires ReapedAs(trace, code) && !IsReap(e)
    ensures ReapedAs(trace + [e], code)
  {
    if code.Some? {
      var i :| 0 <= i < |trace| && trace[i] == TryWait(Exited(code.value));
      assert (trace + [e])[i] == trace[i];
    }
  }

  // ---------------------------------------------------------------------
  // What the ladder asks, and when
  // ---------------------------------------------------------------------

  /** The answer in the history is the one the system gave. */
  predicate Answered(env: Env, before: seq<Event>, e: Event) {
    match e
    case KillPg(pgid, signal, result) => result == env.killpg(before, pgid, signal)
    case TryWait(wait) => wait == env.tryWait(before)
    case Now(t) => t == Clock(before) + env.delay(before)
    case _ => true
  }

  ghost predicate Truthful(env: Env, trace: seq<Event>) {
    forall i :: 0 <= i < |trace| ==> Answered(env, trace[..i], trace[i])
  }

  predicate IsProbe(e: Event) { e.KillPg? && e.signal == Probe }

  ghost predicate ReapedBefore(trace: seq<Event>, j: nat)
    requires j <= |trace|
  {
    exists i :: 0 <= i < j && IsReap(trace[i])
  }

  /** Before each later clock reading the leader was asked after, or, once reaped, the group was. */
  ghost predicate AsksEachPoll(trace: seq<Event>, pgid: int) {
    forall j :: StartAt(pgid) < j < |trace| && trace[j].Now? ==>
      if ReapedBefore(trace, j) then (pgid > 1 ==> IsProbe(trace[j - 1])) else trace[j - 1].TryWait?
  }

  /** The group is asked after at once when the leader is reaped. */
  ghost predicate ProbesAtOnce(trace: seq<Event>, pgid: int) {
    forall i :: 0 <= i < |trace| && IsReap(trace[i]) && pgid > 1 ==> i + 1 < |trace| && IsProbe(trace[i + 1])
  }

  /** A clock reading past the grace period, with none before it. */
  predicate FirstPast(trace: seq<Event>, start: nat, j: nat) {
    && j < |trace| && trace[j].Now? && trace[j].time >= start + STOP_TERM_GRACE
    && forall k :: 0 <= k < j && trace[k].Now? ==> trace[k].time < start + STOP_TERM_GRACE
  }

  /** At that reading the group is killed, and the leader too if it has not been reaped. */
  ghost predicate KillsAtOnce(trace: seq<Event>, pgid: int, start: nat) {
    forall j: nat :: FirstPast(trace, start, j) ==>
      && (pgid > 1 ==> j + 1 < |trace| && IsKill(trace[j + 1]))
      && (!ReapedBefore(trace, j) ==>
            var k := if pgid > 1 then j + 2 else j + 1; k < |trace| && trace[k] == StartKill)
  }

  ghost predicate Diligent(env: Env, trace: seq<Event>, pgid: int) {
    Truthful(env, trace) && AsksEachPoll(trace, pgid) && ProbesAtOnce(trace, pgid)
  }

  lemma TruthfulAppend(env: Env, trace: seq<Event>, e: Event)
    requires Truthful(env, trace) && Answered(env, trace, e)
    ensures Truthful(env, trace + [e])
  {
    hide Answered;
    var more := trace + [e];
    forall i | 0 <= i < |more| ensures Answered(env, more[..i], more[i]) {
      assert more[..i] == trace[..i];
    }
  }

  lemma ReapedEarlier(trace: seq<Event>, e: Event, j: nat)
    requires j <= |trace|
    ensures ReapedBefore(trace + [e], j) <==> ReapedBefore(trace, j)
  {
    if ReapedBefore(trace, j) {
      var i :| 0 <= i < j && IsReap(trace[i]);
      assert (trace + [e])[i] == trace[i];
    }
  }

  /** What a next event must be for the history to stay diligent. */
  lemma DiligentAppend(env: Env, trace: seq<Event>, pgid: int, e: Event)
    requires Diligent(env, trace, pgid) && |trace| > StartAt(pgid) && Answered(env, trace, e)
    requires !IsReap(e) || pgid <= 1
    requires e.Now? ==>
      if ReapedBefore(trace, |trace|) then (pgid > 1 ==> IsProbe(trace[|trace| - 1])) else trace[|trace| - 1].TryWait?
    ensures Diligent(env, trace + [e], pgid)
  {
    hide Answered, Truthful, ReapedBefore, IsReap, IsProbe;
    TruthfulAppend(env, trace, e);
    var more := trace + [e];
    forall j | StartAt(pgid) < j < |more| && more[j].Now?
      ensures if ReapedBefore(more, j) then (pgid > 1 ==> IsProbe(more[j - 1])) else more[j - 1].TryWait?
    {
      ReapedEarlier(trace, e, j);
    }
  }

  /** A leader found exited and the probe that follows. */
  lemma DiligentReap(env: Env, trace: seq<Event>, pgid: int, wait: Event, probe: Event)
    requires Diligent(env, trace, pgid) && |trace| > StartAt(pgid) && pgid > 1
    requires IsReap(wait) && Answered(env, trace, wait) && IsProbe(probe) && Answered(env, trace + [wait], probe)
    ensures Diligent(env, trace + [wait] + [probe], pgid)
  {
    hide Answered, Truthful, ReapedBefore;
    TruthfulAppend(env, trace, wait);
    TruthfulAppend(env, trace + [wait], probe);
    var more := trace + [wait] + [probe];
    forall j | StartAt(pgid) < j < |more| && more[j].Now?
      ensures if ReapedBefore(more, j) then (pgid > 1 ==> IsProbe(more[j - 1])) else more[j - 1].TryWait?
    {
      ReapedEarlier(trace, wait, j);
      ReapedEarlier(trace + [wait], probe, j);
    }
  }

  /** No clock reading so far is past the grace period. */
  ghost predicate NotPast(trace: seq<Event>, start: nat) {
    forall k :: 0 <= k < |trace| && trace[k].Now? ==> trace[k].time < start + STOP_TERM_GRACE
  }

  /** Only the first reading past the grace period calls for a kill. */
  lemma KillsAtOnceExtends(before: seq<Event>, trace: seq<Event>, pgid: int, start: nat)
    requires KillsAtOnce(before, pgid, start) && before <= trace
    requires NotPast(before, start) ==>
      forall k :: |before| <= k < |trace| && trace[k].Now? ==> trace[k].time < start + STOP_TERM_GRACE
    ensures KillsAtOnce(trace, pgid, start)
  {
    forall j: nat | FirstPast(trace, start, j) ensures FirstPast(before, start, j) {
      assert j >= |before| ==> NotPast(before, start);
    }
    forall j: nat | FirstPast(before, start, j) ensures ReapedBefore(trace, j) <==> ReapedBefore(before, j) {
      assert forall i :: 0 <= i < j ==> trace[i] == before[i];
    }
  }

  lemma KillsAtOnceNow(
    before: seq<Event>, trace: seq<Event>, code: Option<Option<int>>, pgid: int, start: nat)
    requires before != [] && NotPast(before[..|before| - 1], start) && ReapedAs(before, code)
    requires before[|before| - 1].Now? && before <= trace
    requires pgid > 1 ==> |before| < |trace| && IsKill(trace[|before|])
    requires code.None? ==>
      var k := if pgid > 1 then |before| + 1 else |before|; k < |trace| && trace[k] == StartKill
    requires before[|before| - 1].time >= start + STOP_TERM_GRACE
    ensures KillsAtOnce(trace, pgid, start)
  {
    assert trace[|before| - 1] == before[|before| - 1];
    assert forall k :: 0 <= k < |before| - 1 ==> before[..|before| - 1][k] == trace[k];
    assert forall j: nat :: FirstPast(trace, start, j) ==> j == |before| - 1;
    if code.Some? {
      var i :| 0 <= i < |before| && before[i] == TryWait(Exited(code.value));
      assert trace[i] == before[i];
      assert ReapedBefore(trace, |before| - 1);
    }
  }

  // ---------------------------------------------------------------------
  // The loop
  // ---------------------------------------------------------------------

  datatype StopError = Unconfirmed

  /** No time passed, no SIGKILL was sent and the group was not found empty. */
  ghost predicate Uneventful(before: seq<Event>, trace: seq<Event>) {
    && Sleeps(trace) == Sleeps(before) && Clock(trace) == Clock(before) && Kills(trace) == Kills(before)
    && (NeverEmpty(before) ==> NeverEmpty(trace))
    && before <= trace
  }

  /** Reap the leader once it has exited; afterwards it is not polled again. */
  method Reap(env: Env, before: seq<Event>, code: Option<Option<int>>, ghost pgid: int)
    returns (trace: seq<Event>, reaped: Option<Option<int>>)
    requires Safe(before, pgid) && ReapedAs(before, code)
    ensures Safe(trace, pgid) && ReapedAs(trace, reaped) && Uneventful(before, trace)
    ensures code.Some? ==> trace == before && reaped == code
    ensures code.None? ==> trace == before + [TryWait(env.tryWait(before))]
    ensures code.None? ==> reaped == match env.tryWait(before) { case Exited(status) => Some(status) case _ => None }
  {
    trace, reaped := before, code;
    if code.None? {
      var wait := env.tryWait(before);
      SafeAppend(before, pgid, TryWait(wait));
      Appended(before, TryWait(wait));
      hide Sleeps, Kills, Clock, Safe;
      trace := before + [TryWait(wait)];
      if wait.Exited? {
        reaped := Some(wait.status);
        assert trace[|before|] == TryWait(Exited(wait.status));
      }
    }
  }

  /** With the leader reaped, ask whether anybody is left. */
  method Confirm(env: Env, before: seq<Event>, code: Option<int>, pgid: int)
    returns (trace: seq<Event>, gone: bool)
    requires Safe(before, pgid) && ReapedAs(before, Some(code))
    ensures Safe(trace, pgid) && ReapedAs(trace, Some(code))
    ensures !gone ==> Uneventful(before, trace)
    ensures gone ==> trace == before + [KillPg(pgid, Probe, Errno(ESRCH))] && Sleeps(trace) == Sleeps(before)
    ensures pgid <= 1 ==> trace == before && !gone
    ensures pgid > 1 ==>
      && trace == before + [KillPg(pgid, Probe, env.killpg(before, pgid, Probe))]
      && (gone <==> env.killpg(before, pgid, Probe) == Errno(ESRCH))
  {
    trace, gone := ProcessGroupGone(env, before, pgid);
    if pgid > 1 {
      var e := KillPg(pgid, Probe, env.killpg(before, pgid, Probe));
      assert exists i :: 0 <= i < |before| && IsReap(before[i]);
      SafeAppend(before, pgid, e);
      ReapedAppend(before, Some(code), e);
      Appended(before, e);
    }
  }

  /** The grace period is over, by a reading of the clock. */
  ghost predicate GraceOver(trace: seq<Event>, start: nat) {
    exists j :: 0 <= j < |trace| && trace[j].Now? && trace[j].time >= start + STOP_TERM_GRACE
  }

  method KillGroup(env: Env, before: seq<Event>, ghost code: Option<Option<int>>, pgid: int)
    returns (trace: seq<Event>)
    requires Safe(before, pgid) && ReapedAs(before, code) && Kills(before) == 0 && NeverEmpty(before)
    requires GraceOver(before, before[StartAt(pgid)].time)
    ensures Safe(trace, pgid) && ReapedAs(trace, code) && before <= trace && NeverEmpty(trace)
    ensures Sleeps(trace) == Sleeps(before) && Clock(trace) == Clock(before)
    ensures pgid > 1 ==> Kills(trace) == 1
    ensures pgid <= 1 ==> trace == before
    ensures pgid > 1 ==> trace == before + [KillPg(pgid, Kill, env.killpg(before, pgid, Kill))]
    ensures Diligent(env, before, pgid) ==> Diligent(env, trace, pgid)
  {
    hide *;
    var result;
    trace, result := SignalGroup(env, before, pgid, Kill);
    if pgid > 1 {
      ghost var e := KillPg(pgid, Kill, env.killpg(before, pgid, Kill));
      KillAppended(before, code, pgid, e);
      if Diligent(env, before, pgid) { KillDiligent(env, before, pgid, e); }
    }
  }

  lemma KillAppended(before: seq<Event>, code: Option<Option<int>>, pgid: int, e: Event)
    requires Safe(before, pgid) && ReapedAs(before, code) && Kills(before) == 0 && NeverEmpty(before)
    requires GraceOver(before, before[StartAt(pgid)].time)
    requires e.KillPg? && e.signal == Kill && e.pgid == pgid && pgid > 1
    ensures var trace := before + [e];
      && Safe(trace, pgid) && ReapedAs(trace, code) && NeverEmpty(trace)
      && Sleeps(trace) == Sleeps(before) && Clock(trace) == Clock(before) && Kills(trace) == 1
  {
    SafeAppend(before, pgid, e);
    ReapedAppend(before, code, e);
    Appended(before, e);
    hide Safe, ReapedAs, Sleeps, Kills, Clock;
  }

  lemma KillDiligent(env: Env, before: seq<Event>, pgid: int, e: Event)
    requires Safe(before, pgid) && Diligent(env, before, pgid)
    requires e == KillPg(pgid, Kill, env.killpg(before, pgid, Kill))
    ensures Diligent(env, before + [e], pgid)
  {
    hide Diligent;
    DiligentAppend(env, before, pgid, e);
  }

  method KillLeader(ghost env: Env, before: seq<Event>, code: Option<Option<int>>, ghost pgid: int)
    returns (trace: seq<Event>)
    requires Safe(before, pgid) && ReapedAs(before, code)
    requires GraceOver(before, before[StartAt(pgid)].time)
    ensures Safe(trace, pgid) && ReapedAs(trace, code)
    ensures Sleeps(trace) == Sleeps(before) && Clock(trace) == Clock(before) && Kills(trace) == Kills(before)
    ensures NeverEmpty(before) ==> NeverEmpty(trace)
    ensures trace == if code.None? then before + [StartKill] else before
    ensures Diligent(env, before, pgid) ==> Diligent(env, trace, pgid)
  {
    trace := before;
    if code.None? {
      SafeAppend(before, pgid, StartKill);
      ReapedAppend(before, code, StartKill);
      Appended(before, StartKill);
      hide ReapedAs, Sleeps, Kills, Clock, Diligent;
      trace := before + [StartKill];
      if Diligent(env, before, pgid) { DiligentAppend(env, before, pgid, StartKill); }
    }
  }

  lemma GraceKept(before: seq<Event>, trace: seq<Event>, pgid: int)
    requires before <= trace && |before| > StartAt(pgid) && before[StartAt(pgid)].Now?
    requires GraceOver(before, before[StartAt(pgid)].time)
    ensures trace[StartAt(pgid)] == before[StartAt(pgid)] && GraceOver(trace, trace[StartAt(pgid)].time)
  {
    var j :| 0 <= j < |before| && before[j].Now? && before[j].time >= before[StartAt(pgid)].time + STOP_TERM_GRACE;
    assert trace[j] == before[j];
  }

  lemma Started(trace: seq<Event>, pgid: int)
    requires Safe(trace, pgid)
    ensures |trace| > StartAt(pgid) && trace[StartAt(pgid)].Now?
  {
  }

  /** What an escalation appends. */
  ghost predicate Escalated(before: seq<Event>, trace: seq<Event>, code: Option<Option<int>>, pgid: int) {
    && before <= trace
    && (pgid > 1 ==> |before| < |trace| && IsKill(trace[|before|]))
    && (code.None? ==> var k := if pgid > 1 then |before| + 1 else |before|; k < |trace| && trace[k] == StartKill)
    && (forall k :: |before| <= k < |trace| ==> !trace[k].Now?)
  }

  lemma EscalatedBy(before: seq<Event>, killed: seq<Event>, code: Option<Option<int>>, pgid: int, e: Event)
    requires killed == if pgid > 1 then before + [e] else before
    requires IsKill(e)
    ensures Escalated(before, if code.None? then killed + [StartKill] else killed, code, pgid)
  {
  }

  /** Rung two: SIGKILL the group, and the leader itself while it is still unreaped. */
  method Escalate(env: Env, before: seq<Event>, code: Option<Option<int>>, pgid: int)
    returns (trace: seq<Event>)
    requires Safe(before, pgid) && ReapedAs(before, code) && Kills(before) == 0 && NeverEmpty(before)
    requires GraceOver(before, before[StartAt(pgid)].time)
    requires Diligent(env, before, pgid)
    ensures Safe(trace, pgid) && ReapedAs(trace, code) && NeverEmpty(trace) && Diligent(env, trace, pgid)
    ensures Sleeps(trace) == Sleeps(before) && Clock(trace) == Clock(before)
    ensures pgid > 1 ==> Kills(trace) == 1
    ensures Escalated(before, trace, code, pgid)
  {
    hide *;
    Started(before, pgid);
    var killed := KillGroup(env, before, code, pgid);
    GraceKept(before, killed, pgid);
    trace := KillLeader(env, killed, code, pgid);
    EscalatedBy(before, killed, code, pgid, KillPg(pgid, Kill, env.killpg(before, pgid, Kill)));
  }

  method ReadClock(env: Env, before: seq<Event>, code: Option<Option<int>>, ghost pgid: int)
    returns (trace: seq<Event>, now: nat)
    requires Safe(before, pgid) && ReapedAs(before, code)
    ensures Safe(trace, pgid) && ReapedAs(trace, code)
    ensures trace == before + [Now(now)] && now == Clock(trace) && now == Clock(before) + env.delay(before)
    ensures Sleeps(trace) == Sleeps(before) && Kills(trace) == Kills(before)
  {
    now := Clock(before) + env.delay(before);
    trace := before + [Now(now)];
    SafeAppend(before, pgid, Now(now));
    ReapedAppend(before, code, Now(now));
    Appended(before, Now(now));
  }

  /** Rung one: SIGTERM to the group, and the start of the grace period. */
  method Begin(env: Env, pgid: int) returns (trace: seq<Event>, start: nat)
    ensures Safe(trace, pgid) && ReapedAs(trace, None) && NeverEmpty(trace)
    ensures Sleeps(trace) == 0 && Kills(trace) == 0 && Clock(trace) == start
    ensures |trace| == StartAt(pgid) + 1 && trace[StartAt(pgid)] == Now(start)
    ensures Diligent(env, trace, pgid) && NotPast(trace, start)
  {
    var opening, result := SignalGroup(env, [], pgid, Term);
    start := env.delay(opening);
    trace := opening + [Now(start)];
    if pgid > 1 {
      Appended([], KillPg(pgid, Term, env.killpg([], pgid, Term)));
      assert opening == [KillPg(pgid, Term, env.killpg([], pgid, Term))];
    }
    Appended(opening, Now(start));
    OpeningTruthful(env, pgid, opening, start);
    hide Sleeps, Kills, Clock;
  }

  lemma OpeningTruthful(env: Env, pgid: int, opening: seq<Event>, start: nat)
    requires opening == if pgid > 1 then [KillPg(pgid, Term, env.killpg([], pgid, Term))] else []
    requires start == env.delay(opening) && Clock(opening) == 0
    ensures Truthful(env, opening + [Now(start)])
  {
    hide Clock;
    assert Truthful(env, []);
    if pgid > 1 {
      assert [] + opening == opening;
      TruthfulAppend(env, [], opening[0]);
    }
    TruthfulAppend(env, opening, Now(start));
  }

  /** One poll: reap, confirm once reaped, and read the clock unless the group is gone. */
  method Poll(env: Env, before: seq<Event>, code: Option<Option<int>>, pgid: int)
    returns (trace: seq<Event>, reaped: Option<Option<int>>, gone: bool, now: nat)
    requires Safe(before, pgid) && ReapedAs(before, code) && NeverEmpty(before)
    requires Diligent(env, before, pgid) && |before| > StartAt(pgid)
    ensures Safe(trace, pgid) && ReapedAs(trace, reaped) && before < trace && Sleeps(trace) == Sleeps(before)
    ensures Diligent(env, trace, pgid)
    ensures gone ==> forall k :: |before| <= k < |trace| ==> !trace[k].Now?
    ensures gone ==> FoundEmpty(trace[|trace| - 1]) && reaped.Some?
                     && NeverEmpty(trace[..|trace| - 1]) && ReapedAs(trace[..|trace| - 1], reaped)
    ensures !gone ==> ReadOff(env, before, trace, pgid, reaped, now)
  {
    hide Safe, ReapedAs, Sleeps, Kills, Clock, Diligent;
    trace, reaped := Reap(env, before, code, pgid);
    gone, now := false, 0;
    ghost var waited := trace;
    if reaped.Some? {
      trace, gone := Confirm(env, trace, reaped.value, pgid);
    }
    PollDiligent(env, before, code, waited, reaped, trace, pgid);
    if gone {
      assert trace[..|trace| - 1] == waited;
      return;
    }
    ghost var polled := trace;
    trace, now := ReadClock(env, trace, reaped, pgid);
    assert Diligent(env, trace, pgid) by { DiligentAppend(env, polled, pgid, Now(now)); }
  }

  /** A poll asks after the leader until it is reaped, and then after the group. */
  lemma PollDiligent(env: Env, before: seq<Event>, code: Option<Option<int>>, waited: seq<Event>,
                     reaped: Option<Option<int>>, trace: seq<Event>, pgid: int)
    requires Diligent(env, before, pgid) && |before| > StartAt(pgid) && ReapedAs(waited, reaped)
    requires waited == if code.Some? then before else before + [TryWait(env.tryWait(before))]
    requires code.Some? ==> reaped == code
    requires code.None? ==> (reaped.Some? <==> env.tryWait(before).Exited?)
    requires trace == if reaped.Some? && pgid > 1
                      then waited + [KillPg(pgid, Probe, env.killpg(waited, pgid, Probe))] else waited
    ensures Diligent(env, trace, pgid) && |trace| > StartAt(pgid)
    ensures if ReapedBefore(trace, |trace|) then (pgid > 1 ==> IsProbe(trace[|trace| - 1]))
            else trace[|trace| - 1].TryWait?
  {
    hide Diligent, Clock;
    var wait := TryWait(env.tryWait(before));
    var probe := KillPg(pgid, Probe, env.killpg(waited, pgid, Probe));
    if code.None? {
      if reaped.Some? && pgid > 1 {
        DiligentReap(env, before, pgid, wait, probe);
      } else {
        DiligentAppend(env, before, pgid, wait);
      }
    } else if pgid > 1 {
      DiligentAppend(env, before, pgid, probe);
    }
    if reaped.Some? {
      var i :| 0 <= i < |waited| && waited[i] == TryWait(Exited(reaped.value));
      assert trace[i] == waited[i];
      assert ReapedBefore(trace, |trace|);
    }
  }

  /**
   Where the ladder stands between polls. Before SIGKILL, `since` is the start
   of the grace period and `base` is zero; after it, `since` is when SIGKILL
   was decided and `base` the number of sleeps by then.
   */
  ghost predicate Standing(trace: seq<Event>, pgid: int, start: nat, deadline: Option<nat>, since: nat, base: nat)
  {
    && base <= Sleeps(trace) <= base + 80
    && Clock(trace) >= since + STOP_POLL_INTERVAL * (Sleeps(trace) - base)
    && (deadline.None? ==> base == 0 && since == start && Kills(trace) == 0)
    && (deadline.Some? ==>
          && base <= 80 && deadline.value == since + STOP_KILL_CONFIRM && since >= start + STOP_TERM_GRACE
          && Now(since) in trace && (pgid > 1 ==> Kills(trace) == 1))
  }

  /** Gave up: SIGKILL went out after the grace and nobody confirmed death for the whole period after. */
  ghost predicate GaveUp(trace: seq<Event>, pgid: int, start: nat) {
    && NeverEmpty(trace)
    && (pgid > 1 ==> Kills(trace) == 1)
    && trace != [] && trace[|trace| - 1].Now?
    && exists t: nat :: Now(t) in trace && t >= start + STOP_TERM_GRACE
         && trace[|trace| - 1].time >= t + STOP_KILL_CONFIRM
  }

  /** Sleeping keeps the bounds as long as the deadline in force has not been reached. */
  lemma StandingSleeps(
    trace: seq<Event>, pgid: int, start: nat, deadline: Option<nat>, since: nat, base: nat, code: Option<Option<int>>)
    requires Safe(trace, pgid) && ReapedAs(trace, code) && NeverEmpty(trace)
    requires Standing(trace, pgid, start, deadline, since, base)
    requires Clock(trace) < since + 2000
    ensures Standing(trace + [Sleep], pgid, start, deadline, since, base)
    ensures Safe(trace + [Sleep], pgid) && ReapedAs(trace + [Sleep], code) && NeverEmpty(trace + [Sleep])
    ensures Sleeps(trace + [Sleep]) == Sleeps(trace) + 1 <= base + 80
  {
    SafeAppend(trace, pgid, Sleep);
    ReapedAppend(trace, code, Sleep);
    Appended(trace, Sleep);
    hide Safe, ReapedAs, Sleeps, Kills, Clock;
  }

  /** What a poll that ends with a clock reading says about the grace period. */
  lemma PastByPoll(before: seq<Event>, trace: seq<Event>, start: nat, now: nat)
    requires before < trace && trace[|trace| - 1] == Now(now)
    requires forall k :: |before| <= k < |trace| && trace[k].Now? ==> k == |trace| - 1
    ensures NotPast(trace, start) <==> NotPast(before, start) && now < start + STOP_TERM_GRACE
    ensures NotPast(trace[..|trace| - 1], start) <==> NotPast(before, start)
  {
    assert forall k :: 0 <= k < |before| ==> trace[k] == before[k];
    assert forall k :: 0 <= k < |trace| - 1 ==> trace[..|trace| - 1][k] == trace[k];
  }

  lemma PastKept(before: seq<Event>, trace: seq<Event>, start: nat)
    requires before <= trace && forall k :: |before| <= k < |trace| ==> !trace[k].Now?
    ensures NotPast(trace, start) <==> NotPast(before, start)
  {
    assert forall k :: 0 <= k < |before| ==> trace[k] == before[k];
  }

  lemma NothingPast(trace: seq<Event>, pgid: int, start: nat)
    requires NotPast(trace, start)
    ensures KillsAtOnce(trace, pgid, start)
  {
  }

  /** A group id that is not above one is never signalled, so never found empty either. */
  lemma NeverSignalled(trace: seq<Event>, pgid: int)
    requires Safe(trace, pgid) && pgid <= 1
    ensures forall e :: e in trace ==> !e.KillPg?
  {
  }

  /** Where the ladder stands when it starts a poll. */
  ghost predicate Between(env: Env, trace: seq<Event>, pgid: int, start: nat, code: Option<Option<int>>,
                          deadline: Option<nat>, since: nat, base: nat)
  {
    && Safe(trace, pgid) && ReapedAs(trace, code) && NeverEmpty(trace) && Diligent(env, trace, pgid)
    && KillsAtOnce(trace, pgid, start) && (deadline.None? <==> NotPast(trace, start))
    && |trace| > StartAt(pgid) && trace[StartAt(pgid)] == Now(start)
    && Standing(trace, pgid, start, deadline, since, base)
  }

  /** What a poll that found somebody left adds. */
  ghost predicate ReadOff(
    env: Env, before: seq<Event>, trace: seq<Event>, pgid: int, code: Option<Option<int>>, now: nat)
  {
    && Safe(trace, pgid) && ReapedAs(trace, code) && NeverEmpty(trace) && Diligent(env, trace, pgid)
    && before < trace && trace[|trace| - 1] == Now(now)
    && (forall k :: |before| <= k < |trace| && trace[k].Now? ==> k == |trace| - 1)
    && Sleeps(trace) == Sleeps(before) && Kills(trace) == Kills(before) && now == Clock(trace) >= Clock(before)
  }

  lemma StandingRead(env: Env, before: seq<Event>, trace: seq<Event>, pgid: int, start: nat, code: Option<Option<int>>,
                     deadline: Option<nat>, since: nat, base: nat, now: nat)
    requires Standing(before, pgid, start, deadline, since, base)
    requires ReadOff(env, before, trace, pgid, code, now)
    ensures Standing(trace, pgid, start, deadline, since, base)
  {
    hide Safe, ReapedAs, Sleeps, Kills, Clock, Diligent, NeverEmpty;
    if deadline.Some? {
      var i :| 0 <= i < |before| && before[i] == Now(since);
      assert trace[i] == before[i];
    }
  }

  /** Asleep after a reading that called for nothing. */
  lemma Waits(env: Env, before: seq<Event>, trace: seq<Event>, pgid: int, start: nat, was: Option<Option<int>>,
              code: Option<Option<int>>, deadline: Option<nat>, since: nat, base: nat, now: nat)
    requires Between(env, before, pgid, start, was, deadline, since, base)
    requires ReadOff(env, before, trace, pgid, code, now)
    requires now < if deadline.None? then start + STOP_TERM_GRACE else deadline.value
    ensures Between(env, trace + [Sleep], pgid, start, code, deadline, since, base)
    ensures Sleeps(trace + [Sleep]) == Sleeps(before) + 1 <= 160
  {
    hide Safe, ReapedAs, Sleeps, Kills, Clock, Diligent, NeverEmpty, KillsAtOnce, NotPast;
    StandingRead(env, before, trace, pgid, start, code, deadline, since, base, now);
    PastByPoll(before, trace, start, now);
    KillsAtOnceExtends(before, trace, pgid, start) by { PastBefore(before, trace, start, now); }
    Rests(env, trace, pgid, start, code, deadline, since, base);
  }

  lemma PastBefore(before: seq<Event>, trace: seq<Event>, start: nat, now: nat)
    requires before < trace && trace[|trace| - 1] == Now(now)
    requires forall k :: |before| <= k < |trace| && trace[k].Now? ==> k == |trace| - 1
    requires NotPast(before, start) ==> now < start + STOP_TERM_GRACE
    ensures NotPast(before, start) ==>
      forall k :: |before| <= k < |trace| && trace[k].Now? ==> trace[k].time < start + STOP_TERM_GRACE
  {
    hide NotPast;
  }

  lemma Rests(env: Env, trace: seq<Event>, pgid: int, start: nat, code: Option<Option<int>>,
              deadline: Option<nat>, since: nat, base: nat)
    requires Between(env, trace, pgid, start, code, deadline, since, base) && Clock(trace) < since + 2000
    ensures Between(env, trace + [Sleep], pgid, start, code, deadline, since, base)
    ensures Sleeps(trace + [Sleep]) == Sleeps(trace) + 1 <= 160
  {
    hide Safe, ReapedAs, Sleeps, Kills, Clock, Diligent, NeverEmpty, KillsAtOnce, NotPast;
    StandingSleeps(trace, pgid, start, deadline, since, base, code);
    DiligentAppend(env, trace, pgid, Sleep);
    PastKept(trace, trace + [Sleep], start);
    KillsAtOnceExtends(trace, trace + [Sleep], pgid, start);
  }

  /** Asleep after the reading that called for SIGKILL. */
  lemma Killing(env: Env, before: seq<Event>, polled: seq<Event>, trace: seq<Event>, pgid: int, start: nat,
                was: Option<Option<int>>, code: Option<Option<int>>, since: nat, base: nat, now: nat)
    requires Between(env, before, pgid, start, was, None, since, base)
    requires ReadOff(env, before, polled, pgid, code, now) && now >= start + STOP_TERM_GRACE
    requires Safe(trace, pgid) && ReapedAs(trace, code) && NeverEmpty(trace) && Diligent(env, trace, pgid)
    requires Sleeps(trace) == Sleeps(polled) && Clock(trace) == Clock(polled) && (pgid > 1 ==> Kills(trace) == 1)
    requires Escalated(polled, trace, code, pgid)
    ensures Between(env, trace + [Sleep], pgid, start, code, Some(now + STOP_KILL_CONFIRM), now, Sleeps(polled))
    ensures Sleeps(trace + [Sleep]) == Sleeps(before) + 1 <= 160
  {
    hide Safe, ReapedAs, Sleeps, Kills, Clock, Diligent, NeverEmpty, KillsAtOnce, NotPast;
    PastByPoll(before, polled, start, now);
    KillsAtOnceNow(polled, trace, code, pgid, start);
    PastKept(polled, trace, start);
    assert trace[|polled| - 1] == Now(now);
    Rests(env, trace, pgid, start, code, Some(now + STOP_KILL_CONFIRM), now, Sleeps(polled));
  }

  lemma GivesUp(env: Env, before: seq<Event>, trace: seq<Event>, pgid: int, start: nat, was: Option<Option<int>>,
                code: Option<Option<int>>, deadline: nat, since: nat, base: nat, now: nat)
    requires Between(env, before, pgid, start, was, Some(deadline), since, base)
    requires ReadOff(env, before, trace, pgid, code, now) && now >= deadline
    ensures GaveUp(trace, pgid, start) && KillsAtOnce(trace, pgid, start)
    ensures |trace| > StartAt(pgid) && trace[StartAt(pgid)] == Now(start)
    ensures Safe(trace, pgid) && Diligent(env, trace, pgid) && Sleeps(trace) == Sleeps(before)
    ensures !FoundEmpty(trace[|trace| - 1])
  {
    hide Safe, ReapedAs, Sleeps, Kills, Clock, Diligent, NeverEmpty, KillsAtOnce, NotPast;
    StandingRead(env, before, trace, pgid, start, code, Some(deadline), since, base, now);
    KillsAtOnceExtends(before, trace, pgid, start);
  }

  lemma BetweenFacts(env: Env, trace: seq<Event>, pgid: int, start: nat, code: Option<Option<int>>,
                     deadline: Option<nat>, since: nat, base: nat)
    requires Between(env, trace, pgid, start, code, deadline, since, base)
    ensures Safe(trace, pgid) && ReapedAs(trace, code) && NeverEmpty(trace) && Diligent(env, trace, pgid)
    ensures |trace| > StartAt(pgid) && trace[StartAt(pgid)] == Now(start) && KillsAtOnce(trace, pgid, start)
    ensures Standing(trace, pgid, start, deadline, since, base)
  {
    hide Safe, ReapedAs, NeverEmpty, Diligent, KillsAtOnce, NotPast, Standing;
  }

  lemma BetweenAtStart(env: Env, trace: seq<Event>, pgid: int, start: nat)
    requires Safe(trace, pgid) && ReapedAs(trace, None) && NeverEmpty(trace) && Diligent(env, trace, pgid)
    requires Sleeps(trace) == 0 && Kills(trace) == 0 && Clock(trace) == start && NotPast(trace, start)
    requires |trace| > StartAt(pgid) && trace[StartAt(pgid)] == Now(start)
    ensures Between(env, trace, pgid, start, None, None, start, 0)
  {
    hide Safe, ReapedAs, NeverEmpty, Diligent, KillsAtOnce, NotPast, Sleeps, Kills, Clock;
    NothingPast(trace, pgid, start);
  }

  /** The last poll found the group empty. */
  lemma Ends(before: seq<Event>, trace: seq<Event>, pgid: int, start: nat)
    requires before < trace && |before| > StartAt(pgid) && before[StartAt(pgid)] == Now(start)
    requires KillsAtOnce(before, pgid, start)
    requires FoundEmpty(trace[|trace| - 1]) && Safe(trace, pgid)
    requires forall k :: |before| <= k < |trace| ==> !trace[k].Now?
    ensures trace[StartAt(pgid)] == Now(start) && KillsAtOnce(trace, pgid, start) && pgid > 1
  {
    hide KillsAtOnce;
    KillsAtOnceExtends(before, trace, pgid, start);
  }

  method StopManaged(env: Env, pgid: int) returns (result: Result<Option<int>, StopError>, trace: seq<Event>)
    ensures |trace| > StartAt(pgid) && Safe(trace, pgid)
    ensures Sleeps(trace) <= 160
    ensures result.Ok? <==> FoundEmpty(trace[|trace| - 1])
    ensures result.Ok? ==> ReapedAs(trace[..|trace| - 1], Some(result.value)) && NeverEmpty(trace[..|trace| - 1])
    ensures result.Err? ==> GaveUp(trace, pgid, trace[StartAt(pgid)].time)
    ensures pgid <= 1 ==> result.Err? && forall e :: e in trace ==> !e.KillPg?
    ensures Diligent(env, trace, pgid) && KillsAtOnce(trace, pgid, trace[StartAt(pgid)].time)
  {
    hide *;
    var start;
    trace, start := Begin(env, pgid);
    var killDeadline: Option<nat> := None;
    var exitCode: Option<Option<int>> := None;
    ghost var since: nat, base: nat := start, 0;
    BetweenAtStart(env, trace, pgid, start);
    while true
      invariant Between(env, trace, pgid, start, exitCode, killDeadline, since, base)
      invariant Sleeps(trace) <= 160
      decreases 160 - Sleeps(trace)
    {
      BetweenFacts(env, trace, pgid, start, exitCode, killDeadline, since, base);
      var gone, now;
      ghost var before, was := trace, exitCode;
      trace, exitCode, gone, now := Poll(env, trace, exitCode, pgid);
      if gone {
        Ends(before, trace, pgid, start);
        return Ok(exitCode.value), trace;
      }
      if killDeadline.None? && now >= start + STOP_TERM_GRACE {
        ghost var polled := trace;
        ReadGraceOver(env, before, polled, pgid, start, exitCode, since, base, now);
        trace := Escalate(env, trace, exitCode, pgid);
        Killing(env, before, polled, trace, pgid, start, was, exitCode, since, base, now);
        killDeadline := Some(now + STOP_KILL_CONFIRM);
        since, base := now, Sleeps(polled);
      } else if killDeadline.Some? && now >= killDeadline.value {
        GivesUp(env, before, trace, pgid, start, was, exitCode, killDeadline.value, since, base, now);
        if pgid <= 1 { NeverSignalled(trace, pgid); }
        return Err(Unconfirmed), trace;
      } else {
        Waits(env, before, trace, pgid, start, was, exitCode, killDeadline, since, base, now);
      }
      trace := trace + [Sleep];
    }
  }

  lemma ReadGraceOver(env: Env, before: seq<Event>, trace: seq<Event>, pgid: int, start: nat, code: Option<Option<int>>,
                      since: nat, base: nat, now: nat)
    requires |before| > StartAt(pgid) && before[StartAt(pgid)] == Now(start)
    requires ReadOff(env, before, trace, pgid, code, now) && now >= start + STOP_TERM_GRACE
    requires Standing(before, pgid, start, None, since, base)
    ensures trace[StartAt(pgid)] == Now(start) && GraceOver(trace, start) && Kills(trace) == 0 && NeverEmpty(trace)
  {
    hide Safe, ReapedAs, Sleeps, Kills, Clock, Diligent, NeverEmpty;
    assert trace[StartAt(pgid)] == before[StartAt(pgid)];
  }
}
