/**
 The per-requester limiter on terminal replays: a map from requester to recent
 hit times, pruned on every call. The reference is the full history of grants,
 which the limiter never keeps.
 */
module ReplayGate {
  import opened Lists

  const REPLAY_WINDOW_MILLIS: nat := 60_000
  const REPLAY_MAX_PER_WINDOW: nat := 10

  datatype Limits = Limits(window: nat, max: nat)

  datatype Attempt = Attempt(key: string, now: nat)

  /** Time since `t`, zero when `t` lies ahead. */
  function Elapsed(now: nat, t: nat): nat { if now >= t then now - t else 0 }

  function Recent(times: seq<nat>, now: nat, window: nat): seq<nat> {
    Filter((t: nat) => Elapsed(now, t) < window, times)
  }

  function Pruned(hits: map<string, seq<nat>>, now: nat, window: nat): map<string, seq<nat>> {
    map key | key in hits && Recent(hits[key], now, window) != [] :: Recent(hits[key], now, window)
  }

  function HitsOf(hits: map<string, seq<nat>>, key: string): seq<nat> {
    if key in hits then hits[key] else []
  }

  predicate Fits(hits: map<string, seq<nat>>, a: Attempt, limits: Limits) {
    |HitsOf(Pruned(hits, a.now, limits.window), a.key)| < limits.max
  }

  function Acquired(hits: map<string, seq<nat>>, a: Attempt, limits: Limits): map<string, seq<nat>> {
    var pruned := Pruned(hits, a.now, limits.window);
    pruned[a.key := HitsOf(pruned, a.key) + if Fits(hits, a, limits) then [a.now] else []]
  }

  class ReplayRateLimiter {
    var hits: map<string, seq<nat>>
    const limits: Limits

    constructor WithLimits(limits: Limits)
      ensures hits == map[] && this.limits == limits
    {
      hits := map[];
      this.limits := limits;
    }

    constructor ()
      ensures hits == map[] && limits == Limits(60_000, 10)
    {
      hits := map[];
      limits := Limits(REPLAY_WINDOW_MILLIS, REPLAY_MAX_PER_WINDOW);
    }

    method TryAcquire(key: string, now: nat) returns (granted: bool)
      modifies this
      ensures granted == Fits(old(hits), Attempt(key, now), limits)
      ensures hits == Acquired(old(hits), Attempt(key, now), limits)
    {
      var window := limits.window;
      hits := Pruned(hits, now, window);
      var mine := HitsOf(hits, key);
      hits := hits[key := mine];
      assert mine + [] == mine;
      if |mine| >= limits.max {
        return false;
      }
      hits := hits[key := mine + [now]];
      return true;
    }
  }

  // ---------------------------------------------------------------------
  // Runs, and the history the limiter does not keep
  // ---------------------------------------------------------------------

  function Hits(attempts: seq<Attempt>, limits: Limits): map<string, seq<nat>> {
    if attempts == [] then map[]
    else Acquired(Hits(attempts[..|attempts| - 1], limits), attempts[|attempts| - 1], limits)
  }

  predicate Granted(attempts: seq<Attempt>, limits: Limits, i: nat)
    requires i < |attempts|
  {
    Fits(Hits(attempts[..i], limits), attempts[i], limits)
  }

  /** Times of all attempts ever granted to a key. */
  function Grants(attempts: seq<Attempt>, limits: Limits, key: string): seq<nat> {
    if attempts == [] then []
    else
      var n := |attempts| - 1;
      Grants(attempts[..n], limits, key)
      + if attempts[n].key == key && Granted(attempts, limits, n) then [attempts[n].now] else []
  }

  ghost predicate Monotone(attempts: seq<Attempt>) {
    forall i, j :: 0 <= i < j < |attempts| ==> attempts[i].now <= attempts[j].now
  }

  ghost predicate Upto(times: seq<nat>, now: nat) { forall t :: t in times ==> t <= now }

  /** A filter applied after a weaker one. */
  lemma {:induction false} FilterTwice<T(!new)>(p: T -> bool, q: T -> bool, s: seq<T>)
    requires forall x :: x in s && p(x) ==> q(x)
    ensures Filter(p, Filter(q, s)) == Filter(p, s)
  {
    if s != [] {
      var n := |s| - 1;
      assert s == s[..n] + [s[n]];
      FilterTwice(p, q, s[..n]);
      if q(s[n]) { FilterAppend(p, Filter(q, s[..n]), s[n]); }
      assert Filter(q, s[..n]) + [] == Filter(q, s[..n]);
    }
  }

  /** Pruning early and pruning again forgets nothing that pruning now would keep. */
  lemma RecentTwice(times: seq<nat>, before: nat, now: nat, window: nat)
    requires before <= now
    ensures Recent(Recent(times, before, window), now, window) == Recent(times, now, window)
  {
    FilterTwice((t: nat) => Elapsed(now, t) < window, (t: nat) => Elapsed(before, t) < window, times);
  }

  lemma PrunedHits(hits: map<string, seq<nat>>, now: nat, window: nat, key: string)
    ensures HitsOf(Pruned(hits, now, window), key) == Recent(HitsOf(hits, key), now, window)
  {
  }

  /** The pruned list is the whole grant history filtered to the window. */
  lemma {:induction false} HitsAreRecentGrants(attempts: seq<Attempt>, limits: Limits, key: string, now: nat)
    requires Monotone(attempts)
    requires attempts != [] ==> attempts[|attempts| - 1].now <= now
    ensures Recent(HitsOf(Hits(attempts, limits), key), now, limits.window)
            == Recent(Grants(attempts, limits, key), now, limits.window)
  {
    hide Filter;
    if attempts != [] {
      var n := |attempts| - 1;
      var a := attempts[n];
      var before := Hits(attempts[..n], limits);
      HitsAreRecentGrants(attempts[..n], limits, key, a.now);
      PrunedHits(before, a.now, limits.window, key);
      RecentTwice(HitsOf(before, key), a.now, now, limits.window);
      RecentTwice(Grants(attempts[..n], limits, key), a.now, now, limits.window);
      if a.key == key && Granted(attempts, limits, n) {
        var p := (t: nat) => Elapsed(now, t) < limits.window;
        FilterAppend(p, HitsOf(Pruned(before, a.now, limits.window), key), a.now);
        FilterAppend(p, Grants(attempts[..n], limits, key), a.now);
      } else {
        var h := HitsOf(Pruned(before, a.now, limits.window), key);
        assert h + [] == h;
        assert Grants(attempts, limits, key) == Grants(attempts[..n], limits, key);
      }
    }
  }

  /** Right after an attempt the stored list is the grant history filtered to the window. */
  lemma StoredHits(attempts: seq<Attempt>, limits: Limits, key: string)
    requires Monotone(attempts) && attempts != [] && limits.window > 0
    ensures HitsOf(Hits(attempts, limits), key)
            == Recent(Grants(attempts, limits, key), attempts[|attempts| - 1].now, limits.window)
  {
    hide Filter;
    var n := |attempts| - 1;
    var a := attempts[n];
    var before := Hits(attempts[..n], limits);
    HitsAreRecentGrants(attempts, limits, key, a.now);
    PrunedHits(before, a.now, limits.window, key);
    var kept := Recent(HitsOf(before, key), a.now, limits.window);
    RecentTwice(HitsOf(before, key), a.now, a.now, limits.window);
    if a.key == key && Granted(attempts, limits, n) {
      FilterAppend((t: nat) => Elapsed(a.now, t) < limits.window, kept, a.now);
    } else {
      assert kept + [] == kept;
    }
  }

  /** Granted exactly when fewer than `max` earlier grants of that key are younger than the window. */
  lemma GrantedIff(attempts: seq<Attempt>, limits: Limits, i: nat)
    requires Monotone(attempts) && i < |attempts|
    ensures Granted(attempts, limits, i) <==>
            |Recent(Grants(attempts[..i], limits, attempts[i].key), attempts[i].now, limits.window)| < limits.max
  {
    hide Filter;
    HitsAreRecentGrants(attempts[..i], limits, attempts[i].key, attempts[i].now);
    PrunedHits(Hits(attempts[..i], limits), attempts[i].now, limits.window, attempts[i].key);
  }

  /** Grants in the half-open interval of one window's length starting at `t`. */
  function Within(times: seq<nat>, t: nat, window: nat): seq<nat> {
    Filter((x: nat) => t <= x < t + window, times)
  }

  /** Of two filters, the weaker keeps at least as many. */
  lemma {:induction false} FilterFewer<T(!new)>(p: T -> bool, q: T -> bool, s: seq<T>)
    requires forall x :: x in s && p(x) ==> q(x)
    ensures |Filter(p, s)| <= |Filter(q, s)|
  {
    if s != [] {
      var n := |s| - 1;
      assert s == s[..n] + [s[n]];
      FilterFewer(p, q, s[..n]);
    }
  }

  lemma {:induction false} GrantsUpto(attempts: seq<Attempt>, limits: Limits, key: string, now: nat)
    requires forall i :: 0 <= i < |attempts| ==> attempts[i].now <= now
    ensures Upto(Grants(attempts, limits, key), now)
  {
    if attempts != [] {
      GrantsUpto(attempts[..|attempts| - 1], limits, key, now);
    }
  }

  /** No interval as long as the window holds more than `max` grants of one key. */
  lemma {:induction false} SlidingWindow(attempts: seq<Attempt>, limits: Limits, key: string, t: nat)
    requires Monotone(attempts)
    ensures |Within(Grants(attempts, limits, key), t, limits.window)| <= limits.max
  {
    hide Filter;
    if attempts == [] {
      FilterNone((x: nat) => t <= x < t + limits.window, []);
    } else {
      var n := |attempts| - 1;
      var a := attempts[n];
      var prior := Grants(attempts[..n], limits, key);
      SlidingWindow(attempts[..n], limits, key, t);
      if a.key == key && Granted(attempts, limits, n) {
        GrantedIff(attempts, limits, n);
        GrantsUpto(attempts[..n], limits, key, a.now);
        hide Granted, Fits, Monotone;
        OneMoreGrant(prior, a.now, t, limits);
      } else {
        assert Grants(attempts, limits, key) == prior;
      }
    }
  }

  /** A grant that fits its own trailing window fits every window it falls in. */
  lemma OneMoreGrant(prior: seq<nat>, now: nat, t: nat, limits: Limits)
    requires |Within(prior, t, limits.window)| <= limits.max && Upto(prior, now)
    requires |Recent(prior, now, limits.window)| < limits.max
    ensures |Within(prior + [now], t, limits.window)| <= limits.max
  {
    hide Filter;
    FilterAppend((x: nat) => t <= x < t + limits.window, prior, now);
    if t <= now < t + limits.window {
      FilterFewer((x: nat) => t <= x < t + limits.window,
                  (x: nat) => Elapsed(now, x) < limits.window, prior);
    }
  }

  /** One requester's attempts never change what another is granted. */
  lemma {:induction false} BudgetsAreSeparate(attempts: seq<Attempt>, limits: Limits, key: string)
    requires Monotone(attempts)
    ensures Grants(attempts, limits, key)
            == Grants(Filter((a: Attempt) => a.key == key, attempts), limits, key)
  {
    hide Fits;
    if attempts != [] {
      var n := |attempts| - 1;
      var p := (a: Attempt) => a.key == key;
      var mine := Filter(p, attempts[..n]);
      BudgetsAreSeparate(attempts[..n], limits, key);
      if attempts[n].key == key {
        var alone := mine + [attempts[n]];
        assert Filter(p, attempts) == alone;
        assert alone[..|mine|] == mine && alone[|mine|] == attempts[n];
        FilterMonotone(p, attempts);
        GrantedIff(attempts, limits, n);
        GrantedIff(alone, limits, |mine|);
      } else {
        assert Filter(p, attempts) == mine;
      }
    }
  }

  lemma {:induction false} FilterMonotone(p: Attempt -> bool, attempts: seq<Attempt>)
    requires Monotone(attempts)
    ensures Monotone(Filter(p, attempts))
  {
    if attempts != [] {
      var n := |attempts| - 1;
      FilterMonotone(p, attempts[..n]);
      FilterMembers(p, attempts[..n]);
      forall i | 0 <= i < |Filter(p, attempts[..n])|
        ensures Filter(p, attempts[..n])[i].now <= attempts[n].now
      {
        assert Filter(p, attempts[..n])[i] in attempts[..n];
      }
    }
  }
}
