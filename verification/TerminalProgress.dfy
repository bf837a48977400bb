/** That the terminal protocol does not get stuck: waits end, and a viewer that keeps up receives everything. */
module TerminalProgress {
  import opened Lists
  import opened Terminal
  import opened TerminalProtocol

  // ---------------------------------------------------------------------
  // The persistence wait
  // ---------------------------------------------------------------------

  /** The banner of a respawned session, which is stored without going through the batcher. */
  predicate IsBanner(s: State, f: Frame) { s.seedScreen != [] && f.no == s.base }

  /** Whatever was stored through the batcher is below the watermark. */
  ghost predicate Noted(s: State) {
    forall f :: f in s.settled && !IsBanner(s, f) ==> f.no in s.lost || f.no < s.core.persisted
  }

  /** What a viewer waits for is an output that goes through the batcher, if anything. */
  ghost predicate Awaits(s: State, high: nat) {
    high == 0 || exists f :: f in s.frames && IsOutput(f) && !IsBanner(s, f) && f.no + 1 == high
  }

  ghost predicate Waiting(s: State) {
    && Noted(s) && Awaits(s, s.core.highWater)
    && (s.seedScreen != [] ==> s.frames != [])
    && forall v :: v in s.viewers ==> Awaits(s, s.viewers[v].settle)
  }

  lemma AwaitsMore(s: State, t: State, high: nat)
    requires Awaits(s, high) && s.frames <= t.frames && t.base == s.base && t.seedScreen == s.seedScreen
    ensures Awaits(t, high)
  {
    if high != 0 {
      var f :| f in s.frames && IsOutput(f) && !IsBanner(s, f) && f.no + 1 == high;
      assert f in t.frames;
    }
  }

  /** A step that stores and settles nothing new. */
  lemma WaitingKept(s: State, t: State)
    requires Waiting(s) && s.frames <= t.frames && t.base == s.base && t.seedScreen == s.seedScreen
    requires t.settled == s.settled && t.lost == s.lost && t.core.persisted == s.core.persisted
    requires Awaits(t, t.core.highWater)
    requires forall v :: v in t.viewers ==>
      (v in s.viewers && t.viewers[v].settle == s.viewers[v].settle) || t.viewers[v].settle == s.core.highWater
    ensures Waiting(t)
  {
    hide Awaits;
    forall v | v in t.viewers ensures Awaits(t, t.viewers[v].settle) {
      if v in s.viewers && t.viewers[v].settle == s.viewers[v].settle {
        AwaitsMore(s, t, s.viewers[v].settle);
      } else {
        AwaitsMore(s, t, s.core.highWater);
      }
    }
  }

  lemma AssignWaits(s: State, t: State, f: Frame)
    requires Waiting(s) && f.no == s.base + |s.frames|
    requires t == s.(core := t.core, frames := s.frames + [f], unsent := t.unsent, reader := t.reader,
                     commands := t.commands)
    requires t.core.persisted == s.core.persisted
    requires if IsOutput(f) then t.core.highWater == f.no + 1 else t.core.highWater == s.core.highWater
    ensures Waiting(t)
  {
    hide Noted;
    if IsOutput(f) {
      assert f in t.frames && !IsBanner(t, f);
    } else {
      AwaitsMore(s, t, s.core.highWater);
    }
    assert Noted(t) by { NotedSame(s, t); }
    forall v | v in t.viewers ensures Awaits(t, t.viewers[v].settle) {
      AwaitsMore(s, t, s.viewers[v].settle);
    }
  }

  lemma NotedSame(s: State, t: State)
    requires Noted(s) && t.settled == s.settled && t.lost == s.lost && t.core.persisted == s.core.persisted
    requires t.base == s.base && t.seedScreen == s.seedScreen
    ensures Noted(t)
  {
  }

  /** A batch is decided: each of its frames is lost, or below the watermark. */
  lemma DecideWaits(s: State, t: State, batch: seq<Frame>)
    requires Waiting(s) && t == s.(core := t.core, settled := s.settled + batch, lost := t.lost, batch := t.batch)
    requires s.lost <= t.lost && t.core.persisted >= s.core.persisted && t.core.highWater == s.core.highWater
    requires forall f :: f in batch ==> f.no in t.lost || f.no < t.core.persisted
    ensures Waiting(t)
  {
    hide Awaits;
    AwaitsMore(s, t, s.core.highWater);
    forall v | v in t.viewers ensures Awaits(t, t.viewers[v].settle) {
      AwaitsMore(s, t, s.viewers[v].settle);
    }
  }

  lemma NoteWaits(s: State)
    requires Inv(s) && Waiting(s) && s.batch.Inserted?
    ensures Waiting(BatchNoted(s))
  {
    hide Waiting, NotedWatermark, Viewing, Stored;
    BatchOrder(s);
    hide Inv, Lines;
    var batch := s.batch.fs;
    NotedWatermarkIsLeast(s.core.persisted, batch, 0);
    DecideWaits(s, BatchNoted(s), batch);
  }

  lemma FailWaits(s: State)
    requires Waiting(s) && s.batch.Collected?
    ensures Waiting(BatchFailed(s))
  {
    hide Waiting;
    DecideWaits(s, BatchFailed(s), s.batch.fs);
  }

  lemma RespawnWaits(s: State, banner: Bytes, seedOk: bool, bannerOk: bool)
    ensures Waiting(Respawned(s, banner, seedOk, bannerOk))
  {
    hide Concat, OutputRows, Seed, NextSeq;
  }

  /** A step of a viewer, or one that only moves frames along. */
  lemma MoveWaits(s: State, t: State)
    requires Waiting(s) && t == s.(core := t.core, unsent := t.unsent, reader := t.reader, queue := t.queue,
                                   batch := t.batch, rows := t.rows, commands := t.commands, viewers := t.viewers)
    requires t.core.persisted == s.core.persisted && t.core.highWater == s.core.highWater
    requires forall v :: v in t.viewers ==>
      (v in s.viewers && t.viewers[v].settle == s.viewers[v].settle) || t.viewers[v].settle == s.core.highWater
    ensures Waiting(t)
  {
    hide Waiting, Awaits;
    AwaitsMore(s, t, s.core.highWater) by { WaitingAwaits(s); }
    WaitingKept(s, t);
  }

  lemma WaitingAwaits(s: State)
    requires Waiting(s)
    ensures Awaits(s, s.core.highWater)
  {
  }

  lemma StepWaits(s: State, step: Step)
    requires Inv(s) && Waiting(s) && Enabled(s, step)
    ensures Waiting(Next(s, step))
  {
    hide Inv, Waiting, Seed, OutputRows, InsertAll, NotedWatermark, Respawned;
    var t := Next(s, step);
    match step {
      case OutputAssign(bytes) => {
        NextNumber(s);
        AssignWaits(s, t, Frame(s.core.next, Output(bytes)));
      }
      case CommandAssign(body) => {
        NextNumber(s);
        AssignWaits(s, t, Frame(s.core.next, body));
      }
      case BatchInsert(ok) => { if ok { MoveWaits(s, t); } else { FailWaits(s); } }
      case BatchNote => { NoteWaits(s); }
      case Respawn(banner, seedOk, bannerOk) => { RespawnWaits(s, banner, seedOk, bannerOk); }
      case _ => { MoveWaits(s, t); }
    }
  }

  lemma NextNumber(s: State)
    requires Inv(s)
    ensures s.core.next == s.base + |s.frames|
  {
    hide Stored, Viewing, Effects, Filter;
  }

  lemma {:induction false} RunWaits(cap: nat, steps: seq<Step>)
    ensures Waiting(Run(Init(cap), steps))
  {
    hide Next, Inv, Enabled;
    if steps == [] {
      hide Run;
      assert Run(Init(cap), steps) == Init(cap) by { RunNothing(cap); }
    } else {
      hide Waiting;
      var n := |steps| - 1;
      var s := Run(Init(cap), steps[..n]);
      RunWaits(cap, steps[..n]);
      RunKeeps(cap, steps[..n]);
      if Enabled(s, steps[n]) { StepWaits(s, steps[n]); } else { Disabled(s, steps[n]); }
    }
  }

  lemma RunNothing(cap: nat)
    ensures Run(Init(cap), []) == Init(cap)
  {
  }

  lemma Disabled(s: State, step: Step)
    requires !Enabled(s, step)
    ensures Next(s, step) == s
  {
  }

  /**
   A viewer does not wait for nothing: in every run its wait can end without
   timing out as soon as no output is on its way to the database, unless the
   very output it waits for was in a failed batch.
   */
  lemma WaitEnds(cap: nat, steps: seq<Step>, v: nat)
    requires
      var s := Run(Init(cap), steps);
      && v in s.viewers && s.viewers[v].phase.Waiting?
      && s.reader.None? && s.queue == [] && s.batch.NoBatch?
      && (s.viewers[v].settle != 0 ==> s.viewers[v].settle - 1 !in s.lost)
    ensures Enabled(Run(Init(cap), steps), Settle(v, false))
  {
    hide *;
    RunWaits(cap, steps);
    RunKeeps(cap, steps);
    var s := Run(Init(cap), steps);
    AllSettled(s);
    WaitEndsAt(s, v);
  }

  lemma WaitEndsAt(s: State, v: nat)
    requires Waiting(s) && v in s.viewers && s.viewers[v].phase.Waiting?
    requires forall f :: f in s.frames && IsOutput(f) ==> f in s.settled
    requires s.viewers[v].settle != 0 ==> s.viewers[v].settle - 1 !in s.lost
    ensures Enabled(s, Settle(v, false))
  {
    var settle := s.viewers[v].settle;
    if settle != 0 {
      var f :| f in s.frames && IsOutput(f) && !IsBanner(s, f) && f.no + 1 == settle;
      assert f in s.settled;
    }
  }

  lemma AllSettled(s: State)
    requires Inv(s) && s.reader.None? && s.queue == [] && s.batch.NoBatch?
    ensures forall f :: f in s.frames && IsOutput(f) ==> f in s.settled
  {
    hide Stored, Viewing, Effects, Filter, Broadcasting, Threads, Persisting;
    FilterMembers(IsOutput, s.frames);
    assert Pipeline(s) == [];
  }

  // ---------------------------------------------------------------------
  // Receiving
  // ---------------------------------------------------------------------

  /**
   A live viewer at most 256 frames behind takes the next frame, keeping it
   unless its snapshot already holds it; one further behind is cut off there.
   */
  lemma ReceivesNext(cap: nat, steps: seq<Step>, v: nat)
    requires v in Run(Init(cap), steps).viewers
    requires var viewer := Run(Init(cap), steps).viewers[v];
      viewer.phase.Live? && !viewer.lagged && viewer.cursor < |Run(Init(cap), steps).core.sent|
    ensures
      var s, t := Run(Init(cap), steps), Run(Init(cap), steps + [Receive(v)]);
      var before, next := s.viewers[v], s.core.sent[s.viewers[v].cursor];
      && v in t.viewers
      && var after := t.viewers[v];
         && after.boundary == before.boundary && after.snapshot == before.snapshot && after.phase == before.phase
         && (|s.core.sent| - before.cursor <= 256 ==>
               && after.cursor == before.cursor + 1 && !after.lagged
               && after.accepted == before.accepted + (if next.no >= before.boundary then [next] else []))
         && (|s.core.sent| - before.cursor > 256 ==>
               after.lagged && after.cursor == before.cursor && after.accepted == before.accepted)
  {
    assert (steps + [Receive(v)])[..|steps|] == steps;
    hide Run;
  }

  // ---------------------------------------------------------------------
  // Reading the seed
  // ---------------------------------------------------------------------

  /**
   Timed out or not, a viewer whose wait is over goes live with the newest stored
   output rows below its boundary, as many as the cap admits, or with nothing
   when they cannot be read.
   */
  lemma GoesLive(cap: nat, steps: seq<Step>, v: nat, served: bool)
    requires v in Run(Init(cap), steps).viewers && Run(Init(cap), steps).viewers[v].phase.Settled?
    ensures
      var s, t := Run(Init(cap), steps), Run(Init(cap), steps + [ReadSeed(v, served)]);
      var before := s.viewers[v];
      && v in t.viewers && t.viewers[v] == before.(phase := t.viewers[v].phase)
      && t.viewers[v].phase.Live? && t.viewers[v].phase.timedOut == before.phase.timedOut
      && t.viewers[v].phase.served == served
      && var rows, seed := OutputRows(s.rows, before.boundary), t.viewers[v].phase.seed;
         if served then Admits(rows, s.cap, |seed|) && seed == rows[|rows| - |seed|..] else seed == []
  {
    assert (steps + [ReadSeed(v, served)])[..|steps|] == steps;
    var s := Run(Init(cap), steps);
    hide Run, Seed, Admits;
    var rows := OutputRows(s.rows, s.viewers[v].boundary);
    SeedAdmitted(rows, s.cap, |Seed(rows, s.cap)|);
  }

  /** Output rows below a bound: each stored output frame numbered below it, and nothing else. */
  lemma {:induction false} OutputRowsAre(rows: map<nat, Frame>, bound: nat, f: Frame)
    requires forall q :: q in rows ==> rows[q].no == q
    ensures f in OutputRows(rows, bound) <==> f.no in rows && rows[f.no] == f && IsOutput(f) && f.no < bound
  {
    if bound > 0 { OutputRowsAre(rows, bound - 1, f); }
  }

  // ---------------------------------------------------------------------
  // Limits
  // ---------------------------------------------------------------------

  /** Which requests are taken: any input, resizes up to 500 by 200, and batches of up to 128 queued frames. */
  lemma TakesUpTo(s: State, bytes: Bytes, cols: nat, rows: nat, count: nat)
    ensures Enabled(s, CommandAssign(Input(bytes)))
    ensures Enabled(s, CommandAssign(Resize(cols, rows))) <==> UpTo(cols, 500) && UpTo(rows, 200)
    ensures s.batch.NoBatch? ==>
      (Enabled(s, BatchTake(count)) <==> UpTo(count, 128) && count <= |s.queue|)
    ensures s.reader.None? ==> (Enabled(s, OutputAssign(bytes)) <==> UpTo(|bytes|, 4096))
  {
  }

  predicate UpTo(n: nat, most: nat) { n != 0 && n <= most }
}
