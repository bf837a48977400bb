/** What the attach protocol promises, over every run. */
module TerminalTheorems {
  import opened Lists
  import opened Terminal
  import opened TerminalProtocol
  import opened TerminalHistory
  import opened TerminalScreen

  predicate ExactlyOneOf(a: bool, b: bool, c: bool) {
    (a && !b && !c) || (!a && b && !c) || (!a && !b && c)
  }

  lemma FromNumbered(base: nat, frames: seq<Frame>, n: nat)
    requires Numbered(base, frames) && base <= n <= base + |frames|
    ensures From(n, frames) == frames[n - base..]
  {
    hide Filter;
    var k := n - base;
    assert frames == frames[..k] + frames[k..];
    var p := (f: Frame) => n <= f.no;
    FilterConcat(p, frames[..k], frames[k..]);
    FilterNone(p, frames[..k]);
    FilterAll(p, frames[k..]);
  }

  lemma BoundaryFrames(s: State, viewer: Viewer)
    requires Inv(s) && ViewerInv(s, viewer)
    ensures From(viewer.boundary, s.frames) == s.frames[viewer.boundary - s.base..]
    ensures forall f :: f in s.frames[viewer.boundary - s.base..] <==> f in s.frames && viewer.boundary <= f.no
  {
    hide Filter, Effects, Stored, Viewing, Served;
    FromNumbered(s.base, s.frames, viewer.boundary);
    FilterMembers((f: Frame) => viewer.boundary <= f.no, s.frames);
  }

  lemma SplitAt(sent: seq<Frame>, c: nat)
    requires c <= |sent| && Distinct(sent)
    ensures Distinct(sent[..c])
    ensures forall f :: f in sent <==> f in sent[..c] || f in sent[c..]
    ensures forall f :: !(f in sent[..c] && f in sent[c..])
  {
    assert sent == sent[..c] + sent[c..];
    assert forall i, j :: 0 <= i < c && 0 <= j < |sent| - c ==> sent[..c][i] != sent[c..][j];
  }

  /**
   In every interleaving a viewer gets each frame exactly once: frames below its
   boundary are in its snapshot, and each frame from the boundary on is still to
   be broadcast, still to be received, or accepted, and accepted only once.
   */
  lemma ExactlyOnce(cap: nat, steps: seq<Step>, v: nat)
    requires v in Run(Init(cap), steps).viewers
    ensures
      var s := Run(Init(cap), steps);
      var viewer := s.viewers[v];
      && s.base <= viewer.boundary <= s.base + |s.frames|
      && viewer.cursor <= |s.core.sent|
      && s.seedScreen <= viewer.snapshot
      && Shows(s.frames[..viewer.boundary - s.base], viewer.snapshot[|s.seedScreen|..])
      && Distinct(viewer.accepted)
      && (forall f :: f in viewer.accepted ==> f in s.frames[viewer.boundary - s.base..])
      && (forall f :: f in s.frames[viewer.boundary - s.base..] ==>
            ExactlyOneOf(f.no in s.unsent, f in s.core.sent[viewer.cursor..], f in viewer.accepted))
  {
    hide *;
    RunKeeps(cap, steps);
    var s := Run(Init(cap), steps);
    ViewerOf(s, v);
    ViewerAccepts(s, s.viewers[v]);
    SnapshotTaken(s, s.viewers[v]);
    assert s.viewers[v].cursor <= |s.core.sent| by { CursorBounded(s, s.viewers[v]); }
  }

  lemma CursorBounded(s: State, viewer: Viewer)
    requires ViewerInv(s, viewer)
    ensures viewer.cursor <= |s.core.sent|
  {
    hide Served;
  }

  lemma SnapshotTaken(s: State, viewer: Viewer)
    requires ViewerInv(s, viewer) && s.base <= viewer.boundary <= s.base + |s.frames|
    ensures s.seedScreen <= viewer.snapshot
    ensures var below, shown := s.frames[..viewer.boundary - s.base], viewer.snapshot[|s.seedScreen|..];
      Shows(below, shown) && Fed(shown) == Text(below) && SizedBy(below, shown)
  {
    hide Effects, Filter, Shows, Fed, Text, SizedBy, SeedCount;
    var below := s.frames[..viewer.boundary - s.base];
    EffectsShow(below);
    EffectsFeed(below);
    EffectsSize(below);
    assert viewer.snapshot[|s.seedScreen|..] == Effects(below);
  }

  /**
   In every run a viewer's screen is the seed of the epoch, which holds the
   bytes of the seeded rows oldest first, followed by the output below the
   boundary, byte for byte; it has the size of the last resize below it.
   */
  lemma SnapshotShows(cap: nat, steps: seq<Step>, v: nat)
    requires v in Run(Init(cap), steps).viewers
    ensures
      var s := Run(Init(cap), steps);
      var viewer := s.viewers[v];
      && s.base <= viewer.boundary <= s.base + |s.frames|
      && s.seedScreen <= viewer.snapshot && SeededBy(s.seedScreen, s.prior, cap)
      && var below, shown := s.frames[..viewer.boundary - s.base], viewer.snapshot[|s.seedScreen|..];
         Shows(below, shown) && Fed(shown) == Text(below) && SizedBy(below, shown)
  {
    hide *;
    RunKeeps(cap, steps);
    RunSeeded(cap, steps);
    var s := Run(Init(cap), steps);
    ViewerOf(s, v);
    SnapshotTaken(s, s.viewers[v]);
  }

  /** A respawn in which the rows could be read starts from exactly them. */
  lemma RespawnShowsSeed(cap: nat, steps: seq<Step>, banner: Bytes, bannerOk: bool)
    ensures
      var t := Run(Init(cap), steps + [Respawn(banner, true, bannerOk)]);
      && |t.seedScreen| == 1 && t.seedScreen[0].Process? && Carries(t.seedScreen[0].bytes, Seed(t.prior, cap))
      && t.core.screen == t.seedScreen + [Process(banner)]
      && t.frames == [Frame(t.base, Output(banner))] && t.core.sent == t.frames
  {
    var step := Respawn(banner, true, bannerOk);
    RunSeeded(cap, steps);
    RunStep(Init(cap), steps, step);
    hide Run, SeededBy, Carries;
    SeededStep(Run(Init(cap), steps), step);
    CapKept(Run(Init(cap), steps), step);
    RespawnFields(Run(Init(cap), steps), step);
    hide Next;
  }

  lemma RespawnFields(s: State, step: Step)
    requires step.Respawn?
    ensures var t := Next(s, step);
      && t.core.screen == t.seedScreen + [Process(step.banner)]
      && t.frames == [Frame(t.base, Output(step.banner))] && t.core.sent == t.frames
  {
    hide Concat, OutputRows, Seed, NextSeq;
  }

  lemma ViewerAccepts(s: State, viewer: Viewer)
    requires Inv(s) && ViewerInv(s, viewer)
    ensures Distinct(viewer.accepted)
    ensures forall f :: f in viewer.accepted ==> f in s.frames[viewer.boundary - s.base..]
    ensures forall f :: f in s.frames[viewer.boundary - s.base..] ==>
              ExactlyOneOf(f.no in s.unsent, f in s.core.sent[viewer.cursor..], f in viewer.accepted)
  {
    hide Filter, Effects, Stored, Viewing, Threads, Persisting, SeedCount;
    BoundaryFrames(s, viewer);
    var got := s.core.sent[..viewer.cursor];
    var p := (f: Frame) => viewer.boundary <= f.no;
    SplitAt(s.core.sent, viewer.cursor);
    FilterDistinct(p, got);
    FilterMembers(p, got);
    forall f | f in viewer.accepted ensures f in s.frames[viewer.boundary - s.base..] {
      assert f in s.core.sent;
    }
  }

  lemma {:induction false} DistinctCount(a: seq<Frame>, f: Frame)
    requires Distinct(a)
    ensures multiset(a)[f] == if f in a then 1 else 0
  {
    if a != [] {
      var n := |a| - 1;
      assert a == a[..n] + [a[n]];
      DistinctCount(a[..n], f);
    }
  }

  lemma SameElements(a: seq<Frame>, b: seq<Frame>)
    requires Distinct(a) && Distinct(b) && forall f :: f in a <==> f in b
    ensures multiset(a) == multiset(b)
  {
    forall f ensures multiset(a)[f] == multiset(b)[f] {
      DistinctCount(a, f);
      DistinctCount(b, f);
    }
  }

  /** Once nothing is in flight, a viewer that has read its channel holds exactly the later frames. */
  lemma DrainedViewer(cap: nat, steps: seq<Step>, v: nat)
    requires v in Run(Init(cap), steps).viewers
    requires Run(Init(cap), steps).unsent == {}
    requires Run(Init(cap), steps).viewers[v].cursor == |Run(Init(cap), steps).core.sent|
    ensures
      var s := Run(Init(cap), steps);
      && s.base <= s.viewers[v].boundary <= s.base + |s.frames|
      && multiset(s.viewers[v].accepted) == multiset(s.frames[s.viewers[v].boundary - s.base..])
  {
    RunKeeps(cap, steps);
    hide Run, Init;
    DrainedState(Run(Init(cap), steps), v);
  }

  lemma DrainedState(s: State, v: nat)
    requires Inv(s) && v in s.viewers && s.unsent == {} && s.viewers[v].cursor == |s.core.sent|
    ensures s.base <= s.viewers[v].boundary <= s.base + |s.frames|
    ensures multiset(s.viewers[v].accepted) == multiset(s.frames[s.viewers[v].boundary - s.base..])
  {
    hide *;
    ViewerOf(s, v);
    var viewer := s.viewers[v];
    var later := s.frames[viewer.boundary - s.base..];
    ViewerAccepts(s, viewer);
    NumbersDiffer(s, later);
    AcceptedAll(s.core.sent, s.unsent, viewer, later);
  }

  lemma ViewerOf(s: State, v: nat)
    requires Inv(s) && v in s.viewers
    ensures ViewerInv(s, s.viewers[v]) && s.base <= s.viewers[v].boundary <= s.base + |s.frames|
  {
    hide Lines, Stored, Served;
  }

  lemma AcceptedAll(sent: seq<Frame>, unsent: set<nat>, viewer: Viewer, later: seq<Frame>)
    requires viewer.cursor == |sent| && unsent == {} && Distinct(viewer.accepted) && Distinct(later)
    requires forall f :: f in viewer.accepted ==> f in later
    requires forall f :: f in later ==>
      ExactlyOneOf(f.no in unsent, f in sent[viewer.cursor..], f in viewer.accepted)
    ensures multiset(viewer.accepted) == multiset(later)
  {
    assert sent[viewer.cursor..] == [];
    assert forall f :: f in viewer.accepted <==> f in later;
    SameElements(viewer.accepted, later);
  }

  lemma NumbersDiffer(s: State, later: seq<Frame>)
    requires Inv(s) && exists k :: 0 <= k <= |s.frames| && later == s.frames[k..]
    ensures Distinct(later)
  {
    hide Filter, Effects, Stored, Viewing, Threads, Persisting, Broadcasting;
  }

  /** Live output is accepted in the order it was produced, without a hole. */
  lemma AcceptedOutputIsPrefix(s: State, viewer: Viewer)
    requires Inv(s) && ViewerInv(s, viewer)
    ensures Outputs(viewer.accepted) <= Outputs(s.frames[viewer.boundary - s.base..])
  {
    hide Filter, Effects, Stored, Viewing, Threads, Persisting, Broadcasting, SeedCount;
    var n, sent, c := viewer.boundary, s.core.sent, viewer.cursor;
    var p := (f: Frame) => n <= f.no;
    BoundaryFrames(s, viewer);
    calc {
      Outputs(s.frames[n - s.base..]);
      Outputs(From(n, s.frames));
      { FilterCommutes(IsOutput, p, s.frames); }
      From(n, Outputs(sent) + UnsentOutput(s));
      { FilterConcat(p, Outputs(sent), UnsentOutput(s)); }
      From(n, Outputs(sent)) + From(n, UnsentOutput(s));
      { FilterCommutes(IsOutput, p, sent); }
      Outputs(From(n, sent)) + From(n, UnsentOutput(s));
      { assert sent == sent[..c] + sent[c..]; FilterConcat(p, sent[..c], sent[c..]); }
      Outputs(viewer.accepted + From(n, sent[c..])) + From(n, UnsentOutput(s));
      { FilterConcat(IsOutput, viewer.accepted, From(n, sent[c..])); }
      Outputs(viewer.accepted) + Outputs(From(n, sent[c..])) + From(n, UnsentOutput(s));
    }
  }

  /** Filtering out the lost outputs of a list changes nothing exactly when none of them is lost. */
  lemma KeptIsAll(lost: set<nat>, below: seq<Frame>)
    ensures KeptOutputs(lost, below) == Outputs(below)
            <==> forall f :: f in below && IsOutput(f) ==> f.no !in lost
  {
    hide Filter;
    var p := (f: Frame) => f.body.Output? && f.no !in lost;
    if forall f :: f in below && IsOutput(f) ==> f.no !in lost {
      FilterAgree(p, IsOutput, below);
    } else {
      var f :| f in below && IsOutput(f) && f.no in lost;
      FilterMembers(p, below);
      FilterMembers(IsOutput, below);
      assert f in Outputs(below) && f !in KeptOutputs(lost, below);
    }
  }

  lemma SameTail(a: seq<Frame>, b: seq<Frame>, c: seq<Frame>)
    ensures a + b == a + c <==> b == c
  {
    assert (a + b)[|a|..] == b && (a + c)[|a|..] == c;
  }

  /**
   Once a viewer's wait has ended without timing out, the rows below its
   boundary hold all output of the epoch up to there, after that of earlier
   epochs, exactly when none of that output was in a failed batch.
   */
  lemma SeedComplete(cap: nat, steps: seq<Step>, v: nat)
    requires v in Run(Init(cap), steps).viewers
    requires var phase := Run(Init(cap), steps).viewers[v].phase; !phase.Waiting? && !phase.timedOut
    ensures
      var s := Run(Init(cap), steps);
      var bound := s.viewers[v].boundary;
      && s.base <= bound <= s.base + |s.frames|
      && var below := s.frames[..bound - s.base];
         OutputRows(s.rows, bound) == s.prior + Outputs(below)
         <==> forall f :: f in below && IsOutput(f) ==> f.no !in s.lost
  {
    hide *;
    RunKeeps(cap, steps);
    var s := Run(Init(cap), steps);
    ViewerOf(s, v);
    SettledRows(s, s.viewers[v]);
    var below := s.frames[..s.viewers[v].boundary - s.base];
    SameTail(s.prior, KeptOutputs(s.lost, below), Outputs(below));
    KeptIsAll(s.lost, below);
  }

  /** All output before the `k`th frame of the current epoch, over all epochs, and what is missing of it. */
  ghost function Before(cap: nat, steps: seq<Step>, k: nat): seq<Chunk>
    requires k <= |Run(Init(cap), steps).frames|
  {
    Earlier(cap, steps) + Marked(Outputs(Run(Init(cap), steps).frames[..k]), Run(Init(cap), steps).lost)
  }

  /** All output of all epochs. */
  ghost function Everything(cap: nat, steps: seq<Step>): seq<Frame> {
    AllFrames(Earlier(cap, steps)) + Outputs(Run(Init(cap), steps).frames)
  }

  /**
   The seed followed by the live output is a contiguous piece of everything
   ever output, the seed ending at the position `at` of the boundary; there is
   no seed only if there is nothing before the boundary.
   */
  ghost predicate OnePiece(everything: seq<Frame>, at: nat, seed: seq<Frame>, live: seq<Frame>) {
    && |seed| <= at && at + |live| <= |everything|
    && seed + live == everything[at - |seed|..at + |live|]
    && (seed == [] ==> at == 0)
  }

  /** No missing output among the newest `m` chunks, or at all if `m` is zero. */
  ghost predicate MissingOutOfReach(before: seq<Chunk>, m: nat) {
    forall i :: 0 <= i < |before| && before[i].missing ==> 0 < m && i < |before| - m
  }

  /**
   A viewer whose wait did not time out has no gap and no repeat, from the start
   of its seed to the end of its live stream, exactly when no output missing from
   the database lies within the reach of its seed, in whatever epoch it was output.
   */
  lemma SeamlessOutput(cap: nat, steps: seq<Step>, v: nat)
    requires v in Run(Init(cap), steps).viewers
    requires var phase := Run(Init(cap), steps).viewers[v].phase;
      phase.Live? && !phase.timedOut && phase.served
    ensures
      var s := Run(Init(cap), steps);
      var viewer := s.viewers[v];
      && s.base <= viewer.boundary <= s.base + |s.frames|
      && var before := Before(cap, steps, viewer.boundary - s.base);
         OnePiece(Everything(cap, steps), |before|, viewer.phase.seed, Outputs(viewer.accepted))
         <==> MissingOutOfReach(before, |viewer.phase.seed|)
  {
    hide *;
    RunKeeps(cap, steps);
    var s := Run(Init(cap), steps);
    var viewer := s.viewers[v];
    ViewerOf(s, v);
    var k := viewer.boundary - s.base;
    var before := Before(cap, steps, k);
    SeedOfStored(cap, steps, v);
    BeforeAscends(cap, steps, k);
    AcceptedOutputIsPrefix(s, viewer);
    EverythingSplits(cap, steps, k);
    SeamlessIff(before, Outputs(s.frames[k..]), s.cap, viewer.phase.seed, Outputs(viewer.accepted));
  }

  /**
   The same viewer's seed is the one the byte cap would give on everything ever
   output exactly when none of that is missing and the scan of the stored rows
   does not find an older row that still fits.
   */
  lemma SeedReachesCap(cap: nat, steps: seq<Step>, v: nat)
    requires v in Run(Init(cap), steps).viewers
    requires var phase := Run(Init(cap), steps).viewers[v].phase;
      phase.Live? && !phase.timedOut && phase.served
    ensures
      var s := Run(Init(cap), steps);
      var viewer := s.viewers[v];
      && s.base <= viewer.boundary <= s.base + |s.frames|
      && var before := Before(cap, steps, viewer.boundary - s.base);
         var stored := Present(before);
         var m := |Seed(AllFrames(before), s.cap)|;
         viewer.phase.seed == Seed(AllFrames(before), s.cap) <==>
         && (forall i :: |before| - m <= i < |before| ==> !before[i].missing)
         && m <= |stored| && Stops(stored, s.cap, m)
  {
    hide *;
    RunKeeps(cap, steps);
    var s := Run(Init(cap), steps);
    ViewerOf(s, v);
    SeedOfStored(cap, steps, v);
    BeforeAscends(cap, steps, s.viewers[v].boundary - s.base);
    SeedIff(Before(cap, steps, s.viewers[v].boundary - s.base), s.cap);
  }

  /** The seed is read from what was stored of all output before the boundary. */
  lemma SeedOfStored(cap: nat, steps: seq<Step>, v: nat)
    requires v in Run(Init(cap), steps).viewers
    requires var phase := Run(Init(cap), steps).viewers[v].phase;
      phase.Live? && !phase.timedOut && phase.served
    ensures
      var s := Run(Init(cap), steps);
      var viewer := s.viewers[v];
      && s.base <= viewer.boundary <= s.base + |s.frames|
      && viewer.phase.seed == Seed(Present(Before(cap, steps, viewer.boundary - s.base)), s.cap)
  {
    hide Run, Inv, Filter, Seed, Present, Marked, Earlier, ViewerInv;
    RunKeeps(cap, steps);
    var s := Run(Init(cap), steps);
    var viewer := s.viewers[v];
    ViewerOf(s, v);
    var below := s.frames[..viewer.boundary - s.base];
    ServedSeed(s, viewer);
    PriorIsWhatSurvived(cap, steps);
    KeptTwice(s.lost, below);
    PresentMarked(Outputs(below), s.lost);
    PresentConcat(Earlier(cap, steps), Marked(Outputs(below), s.lost));
  }

  lemma ServedSeed(s: State, viewer: Viewer)
    requires s.base <= viewer.boundary <= s.base + |s.frames| && ViewerInv(s, viewer)
    requires viewer.phase.Live? && !viewer.phase.timedOut && viewer.phase.served
    ensures viewer.phase.seed == Seed(s.prior + KeptOutputs(s.lost, s.frames[..viewer.boundary - s.base]), s.cap)
  {
    hide Filter, Effects, Seed;
  }

  lemma BeforeAscends(cap: nat, steps: seq<Step>, k: nat)
    requires k <= |Run(Init(cap), steps).frames|
    ensures Ascending(Before(cap, steps, k))
  {
    hide Run, Inv, Filter, Marked, Earlier, Ascending, Increasing;
    var s := Run(Init(cap), steps);
    RunKeeps(cap, steps);
    FramesAscend(s, k);
    EarlierBelow(cap, steps);
    EarlierAscends(cap, steps);
    AscendingConcat(Earlier(cap, steps), Outputs(s.frames[..k]), s.lost, s.base);
  }

  lemma EverythingSplits(cap: nat, steps: seq<Step>, k: nat)
    requires k <= |Run(Init(cap), steps).frames|
    ensures Everything(cap, steps)
            == AllFrames(Before(cap, steps, k)) + Outputs(Run(Init(cap), steps).frames[k..])
  {
    hide Run, Earlier, Filter;
    var s := Run(Init(cap), steps);
    assert s.frames == s.frames[..k] + s.frames[k..];
    FilterConcat(IsOutput, s.frames[..k], s.frames[k..]);
    var earlier, marked := Earlier(cap, steps), Marked(Outputs(s.frames[..k]), s.lost);
    assert AllFrames(earlier + marked) == AllFrames(earlier) + AllFrames(marked);
    assert AllFrames(marked) == Outputs(s.frames[..k]);
  }

  lemma SeamlessIff(before: seq<Chunk>, above: seq<Frame>, cap: nat, seed: seq<Frame>, live: seq<Frame>)
    requires Ascending(before) && seed == Seed(Present(before), cap) && live <= above
    ensures OnePiece(AllFrames(before) + above, |before|, seed, live) <==> MissingOutOfReach(before, |seed|)
  {
    hide *;
    SeedCountBounded(Present(before), cap);
    PieceSplits(AllFrames(before), above, seed, live);
    if seed == [] {
      NonePresent(before);
      OutOfReachNone(before);
      assert AllFrames(before)[|before|..] == [];
    } else {
      SuffixIff(before, |seed|);
      OutOfReachNewest(before, |seed|);
    }
  }

  lemma OutOfReachNone(before: seq<Chunk>)
    requires forall i :: 0 <= i < |before| ==> before[i].missing
    ensures MissingOutOfReach(before, 0) <==> before == []
  {
    assert before != [] ==> before[0].missing;
  }

  lemma OutOfReachNewest(before: seq<Chunk>, m: nat)
    requires 0 < m <= |before|
    ensures MissingOutOfReach(before, m) <==> forall i :: |before| - m <= i < |before| ==> !before[i].missing
  {
  }

  lemma NonePresent(chunks: seq<Chunk>)
    requires Present(chunks) == []
    ensures forall i :: 0 <= i < |chunks| ==> chunks[i].missing
  {
    forall i | 0 <= i < |chunks| ensures chunks[i].missing {
      if !chunks[i].missing { InPresent(chunks, i); }
    }
  }

  lemma PieceSplits(head: seq<Frame>, above: seq<Frame>, seed: seq<Frame>, live: seq<Frame>)
    requires live <= above && |seed| <= |head|
    ensures OnePiece(head + above, |head|, seed, live)
            <==> head[|head| - |seed|..] == seed && (seed == [] ==> head == [])
  {
    var piece := (head + above)[|head| - |seed|..|head| + |live|];
    assert live == above[..|live|];
    assert piece == head[|head| - |seed|..] + live;
    if piece == seed + live { assert piece[..|seed|] == seed; }
  }

  /** No insert is ever ignored: a stored row never changes and a new row is stored as it was sent. */
  lemma RowsAreFresh(cap: nat, steps: seq<Step>, step: Step)
    requires Enabled(Run(Init(cap), steps), step)
    ensures
      var s := Run(Init(cap), steps);
      var t := Next(s, step);
      && (forall q :: q in s.rows ==> q in t.rows && t.rows[q] == s.rows[q])
      && (step.CommandPersist? && step.ok ==>
            step.no !in s.rows && step.no in t.rows && t.rows[step.no] == FrameAt(s, step.no))
      && (step.BatchInsert? && step.ok ==>
            forall f :: f in s.batch.fs ==> f.no !in s.rows && f.no in t.rows && t.rows[f.no] == f)
      && (step.Respawn? ==> forall q :: q in s.rows ==> q < t.base)
      && (step.Respawn? && step.bannerOk ==>
            t.base in t.rows && t.rows[t.base] == Frame(t.base, Output(step.banner)))
  {
    RunKeeps(cap, steps);
    hide Run, Inv, Next, FrameAt;
    var s := Run(Init(cap), steps);
    match step
    case CommandPersist(no, ok) => FreshCommand(s, no, ok);
    case BatchInsert(ok) => FreshBatch(s, ok);
    case Respawn(banner, seedOk, bannerOk) => FreshRespawn(s, banner, seedOk, bannerOk);
    case _ => RowsSame(s, step);
  }

  ghost predicate RowsKept(s: State, t: State) { forall q :: q in s.rows ==> q in t.rows && t.rows[q] == s.rows[q] }

  lemma RowsSame(s: State, step: Step)
    requires !step.CommandPersist? && !step.BatchInsert? && !step.Respawn?
    ensures Next(s, step).rows == s.rows
  {
    hide Received, Seed, OutputRows, NotedWatermark;
  }

  lemma FreshCommand(s: State, no: nat, ok: bool)
    requires Inv(s) && Enabled(s, CommandPersist(no, ok))
    ensures var t := Next(s, CommandPersist(no, ok));
      RowsKept(s, t) && (ok ==> no !in s.rows && no in t.rows && t.rows[no] == FrameAt(s, no))
  {
    hide Inv, FrameAt;
    CommandPersistedKeeps(s, no, ok);
    FrameNumber(s, no);
  }

  lemma FrameNumber(s: State, no: nat)
    requires Inv(s) && no in s.commands
    ensures FrameAt(s, no).no == no && no !in s.rows
  {
    hide Filter, Effects, Viewing, Broadcasting, Persisting;
  }

  lemma FreshBatch(s: State, ok: bool)
    requires Inv(s) && s.batch.Collected?
    ensures var t := Next(s, BatchInsert(ok));
      && RowsKept(s, t)
      && (ok ==> forall f :: f in s.batch.fs ==> f.no !in s.rows && f.no in t.rows && t.rows[f.no] == f)
  {
    hide Inv, InsertAll;
    if ok { InsertKeepsRows(s); }
  }

  lemma FreshRespawn(s: State, banner: Bytes, seedOk: bool, bannerOk: bool)
    requires Inv(s)
    ensures var t := Next(s, Respawn(banner, seedOk, bannerOk));
      && RowsKept(s, t) && (forall q :: q in s.rows ==> q < t.base)
      && (bannerOk ==> t.base in t.rows && t.rows[t.base] == Frame(t.base, Output(banner)))
  {
    hide Inv, Concat, OutputRows, Seed;
    RowsNumbered(s);
    RespawnKeeps(s, banner, seedOk, bannerOk);
  }

  lemma InsertKeepsRows(s: State)
    requires Inv(s) && s.batch.Collected?
    ensures forall q :: q in s.rows ==> q in BatchInserted(s).rows && BatchInserted(s).rows[q] == s.rows[q]
    ensures forall f :: f in s.batch.fs ==>
              f.no !in s.rows && f.no in BatchInserted(s).rows && BatchInserted(s).rows[f.no] == f
  {
    hide Lines, Viewing, Filter, Effects, InsertAll;
    BatchInsertedKeeps(s);
    BatchOrder(s);
    InsertAllFresh(s.rows, s.batch.fs);
  }

  // ----- why the no-failure condition is needed -----

  lemma RunStep(s: State, steps: seq<Step>, step: Step)
    ensures Run(s, steps + [step]) == Next(Run(s, steps), step)
  {
    assert (steps + [step])[..|steps|] == steps;
  }

  lemma {:induction false} RunConcat(s: State, a: seq<Step>, b: seq<Step>)
    ensures Run(s, a + b) == Run(Run(s, a), b)
    decreases |b|
  {
    if b == [] {
      assert a + b == a;
    } else {
      var n := |b| - 1;
      assert a + b == (a + b[..n]) + [b[n]];
      RunStep(s, a + b[..n], b[n]);
      RunConcat(s, a, b[..n]);
    }
  }

  ghost predicate Idle(s: State) {
    s.reader.None? && s.queue == [] && s.batch.NoBatch? && s.unsent == {} && s.core.next == s.base + |s.frames|
  }

  /** One chunk of output, sent to the database as a batch of its own. */
  function Batched(bytes: Bytes, ok: bool): seq<Step> {
    [OutputAssign(bytes), OutputSend, OutputEnqueue, BatchTake(1), BatchInsert(ok), BatchNote]
  }

  lemma RunEmpty(s: State)
    ensures Run(s, []) == s
  {
  }

  lemma RunThree(s: State, a: Step, b: Step, c: Step)
    ensures Run(s, [a, b, c]) == Next(Next(Next(s, a), b), c)
  {
    hide Run, Next;
    RunEmpty(s);
    RunStep(s, [], a);
    RunStep(s, [a], b);
    RunStep(s, [a, b], c);
    assert [] + [a] == [a] && [a] + [b] == [a, b] && [a, b] + [c] == [a, b, c];
  }

  lemma CollectedAlone(s: State, bytes: Bytes)
    requires Idle(s) && 0 < |bytes| <= CHUNK_BYTES
    ensures
      var f := Frame(s.core.next, Output(bytes));
      Next(Run(s, [OutputAssign(bytes), OutputSend, OutputEnqueue]), BatchTake(1))
      == s.(core := Publish(AssignOutput(s.core, bytes), f), frames := s.frames + [f],
            batch := Collected([f]))
  {
    hide Run;
    RunThree(s, OutputAssign(bytes), OutputSend, OutputEnqueue);
    var f := Frame(s.core.next, Output(bytes));
    var s1 := OutputAssigned(s, bytes);
    assert FrameAt(s1, f.no) == f;
    var s2 := Next(s1, OutputSend);
    assert s2 == s1.(core := Publish(s1.core, f), unsent := {});
    var s3 := Next(s2, OutputEnqueue);
    assert s3 == s2.(queue := [f], reader := None);
    assert [f][..1] == [f] && [f][1..] == [];
  }

  /** Nothing is in flight after it: the chunk is a row, or lost. */
  function AfterBatch(s: State, bytes: Bytes, ok: bool): State {
    var f := Frame(s.core.next, Output(bytes));
    var core := Publish(AssignOutput(s.core, bytes), f);
    var t := s.(core := core, frames := s.frames + [f], settled := s.settled + [f]);
    if ok then t.(rows := s.rows[f.no := f], core := core.(persisted := f.no + 1))
    else t.(lost := s.lost + {f.no})
  }

  lemma OfferedAlone(t: State, f: Frame, ok: bool)
    requires t.batch == Collected([f]) && IsOutput(f) && f.no !in t.rows && t.core.persisted <= f.no
    ensures Next(Next(t, BatchInsert(ok)), BatchNote)
         == if ok then t.(batch := NoBatch, settled := t.settled + [f], rows := t.rows[f.no := f],
                          core := t.core.(persisted := f.no + 1))
            else t.(batch := NoBatch, settled := t.settled + [f], lost := t.lost + {f.no})
  {
    assert [f][..0] == [];
    assert InsertAll(t.rows, [f]) == t.rows[f.no := f];
    assert NotedWatermark(t.core.persisted, [f]) == f.no + 1;
    assert Numbers([f]) == {f.no};
    if ok {
      assert Next(t, BatchInsert(ok)) == BatchInserted(t);
    } else {
      assert Next(t, BatchInsert(ok)) == BatchFailed(t);
    }
  }

  lemma BatchedRun(s: State, bytes: Bytes, ok: bool)
    requires Idle(s) && 0 < |bytes| <= CHUNK_BYTES
    requires s.core.next !in s.rows && s.core.persisted <= s.core.next
    ensures Run(s, Batched(bytes, ok)) == AfterBatch(s, bytes, ok) && Idle(AfterBatch(s, bytes, ok))
  {
    hide Run, Next;
    var f := Frame(s.core.next, Output(bytes));
    var head := [OutputAssign(bytes), OutputSend, OutputEnqueue];
    assert Batched(bytes, ok) == head + [BatchTake(1), BatchInsert(ok), BatchNote];
    RunConcat(s, head, [BatchTake(1), BatchInsert(ok), BatchNote]);
    RunThree(Run(s, head), BatchTake(1), BatchInsert(ok), BatchNote);
    CollectedAlone(s, bytes);
    OfferedAlone(Next(Run(s, head), BatchTake(1)), f, ok);
  }

  function FailingRun(): seq<Step> {
    Batched([1], true) + (Batched([2], false) + (Batched([3], true)
    + [Attach(0), Settle(0, false), ReadSeed(0, true)]))
  }

  /**
   A failed batch is dropped, the next batch still raises the watermark over it,
   the wait ends without timing out, and the seed has a hole.
   */
  lemma FailedBatchLeavesAGap()
    ensures
      var s := Run(Init(100), FailingRun());
      var a, b, c := Frame(0, Output([1])), Frame(1, Output([2])), Frame(2, Output([3]));
      && 0 in s.viewers && s.viewers[0].phase == Live(false, true, [a, c]) && s.viewers[0].boundary == 3
      && Everything(100, FailingRun()) == [a, b, c]
      && !OnePiece(Everything(100, FailingRun()), 3, [a, c], [])
  {
    hide Run, Earlier, FailingRun;
    var a, b, c := Frame(0, Output([1])), Frame(1, Output([2])), Frame(2, Output([3]));
    GapReached(a, b, c);
    NoEarlier(100, FailingRun()) by { NoRespawns(); }
    assert Everything(100, FailingRun()) == [a, b, c] by { ThreeOutputs(a, b, c); }
    assert [a, b, c][1..3] == [b, c];
    assert [a, c] + [] == [a, c];
    assert [a, c][0] != [b, c][0];
  }

  lemma NoRespawns()
    ensures forall i :: 0 <= i < |FailingRun()| ==> !FailingRun()[i].Respawn?
  {
  }

  lemma GapReached(a: Frame, b: Frame, c: Frame)
    requires a == Frame(0, Output([1])) && b == Frame(1, Output([2])) && c == Frame(2, Output([3]))
    ensures
      var s := Run(Init(100), FailingRun());
      && 0 in s.viewers && s.viewers[0].phase == Live(false, true, [a, c]) && s.viewers[0].boundary == 3
      && s.frames == [a, b, c]
  {
    hide Run, Next, Batched;
    var s0 := Init(100);
    var s1 := AfterBatch(s0, [1], true);
    var s2 := AfterBatch(s1, [2], false);
    var s3 := AfterBatch(s2, [3], true);
    BatchedRun(s0, [1], true);
    BatchedRun(s1, [2], false);
    BatchedRun(s2, [3], true);
    var attached := [Attach(0), Settle(0, false), ReadSeed(0, true)];
    RunConcat(s2, Batched([3], true), attached);
    RunConcat(s1, Batched([2], false), Batched([3], true) + attached);
    RunConcat(s0, Batched([1], true), Batched([2], false) + (Batched([3], true) + attached));
    RunThree(s3, Attach(0), Settle(0, false), ReadSeed(0, true));
    SeedAfterGap(s3, a, b, c);
  }

  lemma {:induction false} NoEarlier(cap: nat, steps: seq<Step>)
    requires forall i :: 0 <= i < |steps| ==> !steps[i].Respawn?
    ensures Earlier(cap, steps) == []
  {
    hide Run;
    if steps != [] { NoEarlier(cap, steps[..|steps| - 1]); }
  }

  lemma ThreeOutputs(a: Frame, b: Frame, c: Frame)
    requires IsOutput(a) && IsOutput(b) && IsOutput(c)
    ensures Outputs([a, b, c]) == [a, b, c]
  {
    FilterAll(IsOutput, [a, b, c]);
  }

  lemma SeedAfterGap(s: State, a: Frame, b: Frame, c: Frame)
    requires a == Frame(0, Output([1])) && b == Frame(1, Output([2])) && c == Frame(2, Output([3]))
    requires s.rows == map[0 := a, 2 := c] && s.core.next == 3 && s.core.persisted == 3
    requires s.core.highWater == 3 && s.viewers == map[] && s.cap == 100
    ensures
      var t := Next(Next(Next(s, Attach(0)), Settle(0, false)), ReadSeed(0, true));
      && 0 in t.viewers && t.viewers[0].phase == Live(false, true, [a, c]) && t.viewers[0].boundary == 3
      && t.frames == s.frames && t.lost == s.lost
  {
    assert OutputRows(s.rows, 0) == [];
    assert OutputRows(s.rows, 1) == [a];
    assert OutputRows(s.rows, 2) == [a];
    assert OutputRows(s.rows, 3) == [a, c];
    assert SeedCount([a, c], 100, 2, 2) == 2;
    assert SeedCount([a, c], 100, 1, 1) == 2;
    assert SeedCount([a, c], 100, 0, 0) == 2;
    assert Seed([a, c], 100) == [a, c];
  }
}
