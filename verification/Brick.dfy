/**
 The hook's brick detector: after three denials in a row for the same cause it
 notifies once, at most hourly per cause, and remembers at most eight causes.
 A cause is the 64-bit prefix of a hash, so its order as a number is its order
 as the fixed-width hexadecimal key of the stored map.
 */
module Brick {
  import opened Lists

  const THRESHOLD: nat := 3
  const RENOTIFY_SECS: nat := 3600
  const MAX_TRACKED_CAUSES: nat := 8
  const U32_MAX: nat := 0xFFFF_FFFF

  type Cause = nat

  datatype DetectorState = DetectorState(cause: Option<Cause>, consecutive: nat, notified: map<Cause, nat>)

  function Fresh(): DetectorState { DetectorState(None, 0, map[]) }

  /** First in order of notification time, then of key. */
  predicate IsOldest(notified: map<Cause, nat>, c: Cause) {
    && c in notified
    && forall d :: d in notified ==> notified[c] < notified[d] || (notified[c] == notified[d] && c <= d)
  }

  lemma {:induction false} OldestExists(notified: map<Cause, nat>)
    requires notified != map[]
    ensures exists c :: IsOldest(notified, c)
    decreases |notified|
  {
    var k :| k in notified;
    var rest := notified - {k};
    if rest == map[] {
      assert notified.Keys == rest.Keys + {k};
      assert IsOldest(notified, k);
    } else {
      assert notified.Keys == rest.Keys + {k};
      OldestExists(rest);
      var c :| IsOldest(rest, c);
      assert IsOldest(notified, if notified[c] < notified[k] || (notified[c] == notified[k] && c <= k) then c else k);
    }
  }

  function Oldest(notified: map<Cause, nat>): (c: Cause)
    requires notified != map[]
    ensures IsOldest(notified, c)
  {
    OldestExists(notified);
    var c :| IsOldest(notified, c);
    c
  }

  function Capped(notified: map<Cause, nat>): (kept: map<Cause, nat>)
    ensures |kept| <= MAX_TRACKED_CAUSES
    decreases |notified|
  {
    if |notified| <= MAX_TRACKED_CAUSES then notified else
      assert notified.Keys == (notified - {Oldest(notified)}).Keys + {Oldest(notified)};
      Capped(notified - {Oldest(notified)})
  }

  function Counted(s: DetectorState, cause: Cause): nat {
    var run := if s.cause == Some(cause) then s.consecutive else 0;
    if run < U32_MAX then run + 1 else run
  }

  predicate RateLimited(notified: map<Cause, nat>, cause: Cause, now: nat) {
    cause in notified && (if now >= notified[cause] then now - notified[cause] else 0) < RENOTIFY_SECS
  }

  predicate Fires(s: DetectorState, cause: Cause, now: nat) {
    Counted(s, cause) >= THRESHOLD && !RateLimited(s.notified, cause, now)
  }

  function Denied(s: DetectorState, cause: Cause, now: nat): DetectorState {
    DetectorState(Some(cause), Counted(s, cause),
                  if Fires(s, cause, now) then Capped(s.notified[cause := now]) else s.notified)
  }

  method ProcessDenial(loaded: DetectorState, cause: Cause, now: nat) returns (state: DetectorState, notify: bool)
    ensures state == Denied(loaded, cause, now)
    ensures notify <==> Fires(loaded, cause, now)
  {
    state := loaded;
    if state.cause != Some(cause) {
      state := state.(cause := Some(cause), consecutive := 0);
    }
    if state.consecutive < U32_MAX {
      state := state.(consecutive := state.consecutive + 1);
    }
    notify := state.consecutive >= THRESHOLD && !RateLimited(state.notified, cause, now);
    if notify {
      var notified := state.notified[cause := now];
      while |notified| > MAX_TRACKED_CAUSES
        invariant Capped(notified) == Capped(loaded.notified[cause := now])
        decreases |notified|
      {
        var oldest := Oldest(notified);
        assert notified.Keys == (notified - {oldest}).Keys + {oldest};
        notified := notified - {oldest};
      }
      state := state.(notified := notified);
    }
  }

  // ---------------------------------------------------------------------
  // Runs
  // ---------------------------------------------------------------------

  datatype Event = Denial(cause: Cause, now: nat) | Healthy

  function State(events: seq<Event>): DetectorState {
    if events == [] then Fresh()
    else
      var n := |events| - 1;
      match events[n]
      case Denial(cause, now) => Denied(State(events[..n]), cause, now)
      case Healthy => Fresh()
  }

  predicate Notifies(events: seq<Event>, i: nat)
    requires i < |events|
  {
    events[i].Denial? && Fires(State(events[..i]), events[i].cause, events[i].now)
  }

  /** How many of the last events were denials for this cause in a row. */
  function RunLength(events: seq<Event>, cause: Cause): nat {
    if events == [] || !events[|events| - 1].Denial? || events[|events| - 1].cause != cause then 0
    else 1 + RunLength(events[..|events| - 1], cause)
  }

  /** Notifications since the last healthy event. */
  function Sent(events: seq<Event>): seq<(Cause, nat)> {
    if events == [] || events[|events| - 1].Healthy? then []
    else
      var n := |events| - 1;
      Sent(events[..n]) + if Notifies(events, n) then [(events[n].cause, events[n].now)] else []
  }

  ghost predicate Monotone(events: seq<Event>) {
    forall i, j :: 0 <= i < j < |events| && events[i].Denial? && events[j].Denial? ==> events[i].now <= events[j].now
  }

  // ---------------------------------------------------------------------
  // The run length, and the bound on tracked causes
  // ---------------------------------------------------------------------

  lemma {:induction false} CountIsRunLength(events: seq<Event>, cause: Cause)
    ensures var run := RunLength(events, cause);
      (if State(events).cause == Some(cause) then State(events).consecutive else 0)
      == if run < U32_MAX then run else U32_MAX
  {
    if events != [] {
      CountIsRunLength(events[..|events| - 1], cause);
    }
  }

  lemma {:induction false} RunIsLastEvents(events: seq<Event>, cause: Cause, k: nat)
    requires k < RunLength(events, cause)
    ensures k < |events| && events[|events| - 1 - k].Denial? && events[|events| - 1 - k].cause == cause
  {
    if k > 0 { RunIsLastEvents(events[..|events| - 1], cause, k - 1); }
  }

  /** Every notification is the third or later of denials in a row for its cause, with nothing healthy between. */
  lemma NotifiesAfterThree(events: seq<Event>, i: nat)
    requires i < |events| && Notifies(events, i)
    ensures i >= 2 && events[i].Denial?
    ensures forall k :: i - 2 <= k <= i ==> events[k].Denial? && events[k].cause == events[i].cause
  {
    var upto := events[..i + 1];
    assert upto[..i] == events[..i];
    CountIsRunLength(events[..i], events[i].cause);
    RunIsLastEvents(upto, events[i].cause, 1);
    RunIsLastEvents(upto, events[i].cause, 2);
  }

  lemma {:induction false} TrackedCapped(events: seq<Event>)
    ensures |State(events).notified| <= 8
  {
    if events != [] { TrackedCapped(events[..|events| - 1]); }
  }

  // ---------------------------------------------------------------------
  // Renotification
  // ---------------------------------------------------------------------

  /** Causes other than `cause` notified at `t` or later. */
  function Others(sent: seq<(Cause, nat)>, cause: Cause, t: nat): set<Cause> {
    set e | e in sent && e.0 != cause && e.1 >= t :: e.0
  }

  /** Still remembered, at `t` or later, or pushed out by eight others. */
  ghost predicate Accounted(notified: map<Cause, nat>, sent: seq<(Cause, nat)>, cause: Cause, t: nat) {
    (cause in notified && notified[cause] >= t) || |Others(sent, cause, t)| >= MAX_TRACKED_CAUSES
  }

  ghost predicate Ledger(notified: map<Cause, nat>, sent: seq<(Cause, nat)>) {
    && (forall c :: c in notified ==> (c, notified[c]) in sent)
    && (forall e :: e in sent ==> Accounted(notified, sent, e.0, e.1))
  }

  lemma OthersGrow(sent: seq<(Cause, nat)>, more: seq<(Cause, nat)>, cause: Cause, t: nat)
    ensures Others(sent, cause, t) <= Others(sent + more, cause, t)
    ensures |Others(sent, cause, t)| <= |Others(sent + more, cause, t)|
  {
    assert forall e :: e in sent ==> e in sent + more;
    SubsetSize(Others(sent, cause, t), Others(sent + more, cause, t));
  }

  /** Recording a notification at a time no earlier than any before keeps the ledger. */
  lemma LedgerInsert(notified: map<Cause, nat>, sent: seq<(Cause, nat)>, cause: Cause, now: nat)
    requires Ledger(notified, sent) && forall e :: e in sent ==> e.1 <= now
    ensures Ledger(notified[cause := now], sent + [(cause, now)])
  {
    var more := sent + [(cause, now)];
    forall e | e in more ensures Accounted(notified[cause := now], more, e.0, e.1) {
      OthersGrow(sent, [(cause, now)], e.0, e.1);
    }
    assert (cause, now) in more;
  }

  /** Dropping the oldest of more than eight causes keeps the ledger. */
  lemma LedgerEvict(notified: map<Cause, nat>, sent: seq<(Cause, nat)>)
    requires Ledger(notified, sent) && |notified| > MAX_TRACKED_CAUSES
    ensures Ledger(notified - {Oldest(notified)}, sent)
  {
    var oldest := Oldest(notified);
    var rest := notified - {oldest};
    assert notified.Keys == rest.Keys + {oldest};
    forall e | e in sent ensures Accounted(rest, sent, e.0, e.1) {
      assert Accounted(notified, sent, e.0, e.1);
      if e.0 == oldest && notified[oldest] >= e.1 {
        forall c | c in rest.Keys ensures c in Others(sent, oldest, e.1) {
          assert (c, notified[c]) in sent;
        }
        SubsetSize(rest.Keys, Others(sent, oldest, e.1));
      }
    }
  }

  lemma {:induction false} LedgerCapped(notified: map<Cause, nat>, sent: seq<(Cause, nat)>)
    requires Ledger(notified, sent)
    ensures Ledger(Capped(notified), sent)
    decreases |notified|
  {
    if |notified| > MAX_TRACKED_CAUSES {
      LedgerEvict(notified, sent);
      assert notified.Keys == (notified - {Oldest(notified)}).Keys + {Oldest(notified)};
      LedgerCapped(notified - {Oldest(notified)}, sent);
    }
  }

  lemma {:induction false} SentUpto(events: seq<Event>, now: nat)
    requires forall i :: 0 <= i < |events| && events[i].Denial? ==> events[i].now <= now
    ensures forall e :: e in Sent(events) ==> e.1 <= now
  {
    if events != [] { SentUpto(events[..|events| - 1], now); }
  }

  lemma {:induction false} LedgerHolds(events: seq<Event>)
    requires Monotone(events)
    ensures Ledger(State(events).notified, Sent(events))
  {
    hide Capped;
    if events != [] {
      var n := |events| - 1;
      LedgerHolds(events[..n]);
      if Notifies(events, n) {
        SentUpto(events[..n], events[n].now);
        var before := State(events[..n]).notified;
        LedgerInsert(before, Sent(events[..n]), events[n].cause, events[n].now);
        LedgerCapped(before[events[n].cause := events[n].now], Sent(events));
      } else {
        assert Sent(events[..n]) + [] == Sent(events[..n]);
      }
    }
  }

  /** Within the hour a cause notifies again only when eight others were notified no earlier. */
  lemma RenotifiesOnlyIfPushedOut(events: seq<Event>, i: nat, t: nat)
    requires Monotone(events) && i < |events| && Notifies(events, i)
    requires (events[i].cause, t) in Sent(events[..i]) && events[i].now - t < 3600
    ensures |Others(Sent(events[..i]), events[i].cause, t)| >= 8
  {
    LedgerHolds(events[..i]);
  }

  /** A third denial in a row always notifies when that cause was not notified within the hour. */
  lemma NotifiesWhenDue(events: seq<Event>, i: nat)
    requires Monotone(events) && i < |events| && events[i].Denial?
    requires RunLength(events[..i + 1], events[i].cause) >= 3
    requires forall e :: e in Sent(events[..i]) && e.0 == events[i].cause ==> events[i].now - e.1 >= 3600
    ensures Notifies(events, i)
  {
    var cause := events[i].cause;
    assert events[..i + 1][..i] == events[..i];
    CountIsRunLength(events[..i], cause);
    LedgerHolds(events[..i]);
    var notified := State(events[..i]).notified;
    if cause in notified {
      assert (cause, notified[cause]) in Sent(events[..i]);
    }
  }

  /**
   The two exact ends together: while fewer than eight other causes have been
   notified, a denial notifies if and only if it is at least the third in a row
   and its cause was not notified within the hour.
   */
  lemma NotifiesExactly(events: seq<Event>, i: nat)
    requires Monotone(events) && i < |events| && events[i].Denial?
    requires |Others(Sent(events[..i]), events[i].cause, 0)| < 8
    ensures Notifies(events, i) <==>
            && RunLength(events[..i + 1], events[i].cause) >= 3
            && forall e :: e in Sent(events[..i]) && e.0 == events[i].cause ==> events[i].now - e.1 >= 3600
  {
    var cause := events[i].cause;
    var sent := Sent(events[..i]);
    assert events[..i + 1][..i] == events[..i];
    CountIsRunLength(events[..i], cause);
    if Notifies(events, i) {
      forall e | e in sent && e.0 == cause ensures events[i].now - e.1 >= RENOTIFY_SECS {
        if events[i].now - e.1 < RENOTIFY_SECS {
          RenotifiesOnlyIfPushedOut(events, i, e.1);
          assert Others(sent, cause, e.1) <= Others(sent, cause, 0);
          SubsetSize(Others(sent, cause, e.1), Others(sent, cause, 0));
        }
      }
    }
    if RunLength(events[..i + 1], cause) >= THRESHOLD
      && forall e :: e in sent && e.0 == cause ==> events[i].now - e.1 >= RENOTIFY_SECS
    {
      NotifiesWhenDue(events, i);
    }
  }
}
