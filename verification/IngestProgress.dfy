/** That the ingest protocol gets on: what it follows, when it rotates, and where each phase leads. */
module IngestProgress {
  import opened Lists
  import opened Ingest
  import opened IngestProtocol
  import opened IngestTheorems

  // ---------------------------------------------------------------------
  // Tailing
  // ---------------------------------------------------------------------

  /** Nothing changes but where the daemon reads, and what it has recorded. */
  ghost predicate DiskKept(s: State, t: State) {
    t.files == s.files && t.events == s.events && t.dir == s.dir && t.handles == s.handles
  }

  /** A line beyond the offset is read next; a decision is recorded unless the database refuses it. */
  lemma TailsOn(steps: seq<Step>, dbOk: bool)
    requires var s := Run(Init(), steps); s.phase.Tailing? && s.phase.offset < |LinesOf(s, s.phase.reader)|
    ensures
      var s, t := Run(Init(), steps), Run(Init(), steps + [Running(TailLine(dbOk))]);
      var line := LinesOf(s, s.phase.reader)[s.phase.offset];
      && DiskKept(s, t) && t.phase == Tailing(s.phase.reader, s.phase.offset + 1)
      && (line.Decision? && dbOk ==> line.key in t.table)
      && (line.Decision? && !dbOk ==> t.importFailed && t.table == s.table)
      && forall k :: k in t.table ==> k in s.table || (line.Decision? && line.key == k)
  {
    RunStep(Init(), steps, Running(TailLine(dbOk)));
    hide Run, NoRepeats, Ingested;
    var s := Run(Init(), steps);
    TakesLine(s, LinesOf(s, s.phase.reader)[s.phase.offset], dbOk);
  }

  lemma TakesLine(s: State, line: Line, dbOk: bool)
    ensures var t := Ingested(s, line, dbOk);
      && DiskKept(s, t)
      && (line.Decision? && dbOk ==> line.key in t.table)
      && (line.Decision? && !dbOk ==> t.importFailed && t.table == s.table)
      && forall k :: k in t.table ==> k in s.table || (line.Decision? && line.key == k)
  {
    hide NoRepeats;
    var table := IngestLine(s.table, line);
    assert Ingested(s, line, dbOk) == s.(importFailed := true) || Ingested(s, line, dbOk) == s.(table := table);
  }

  /** A log that was replaced or cut short is read from its start; any other is not read again. */
  lemma FollowsTheLog(steps: seq<Step>, openOk: bool)
    requires Run(Init(), steps).phase.Tailing?
    ensures
      var s, t := Run(Init(), steps), Run(Init(), steps + [Running(TailReopen(openOk))]);
      && DiskKept(s, t) && t.table == s.table
      && (openOk && s.events.Some?
          && (s.events.value != s.phase.reader || |LinesOf(s, s.phase.reader)| < s.phase.offset) ==>
            t.phase == Tailing(s.events.value, 0))
      && (s.events == Some(s.phase.reader) && s.phase.offset <= |LinesOf(s, s.phase.reader)| ==> t.phase == s.phase)
  {
    RunStep(Init(), steps, Running(TailReopen(openOk)));
    hide Run;
  }

  // ---------------------------------------------------------------------
  // Rotating
  // ---------------------------------------------------------------------

  /** A log is rotated only once sixteen mebibytes of it have been read, and under a stamp not yet in use. */
  lemma RotatesWhenFull(s: State, stamp: nat)
    ensures RunningEnabled(s, Rotate(stamp)) <==>
      && s.phase.Tailing? && s.events.Some? && Seg(stamp, false) !in s.dir && Seg(stamp, true) !in s.dir
      && s.phase.offset <= |LinesOf(s, s.phase.reader)|
      && TotalBytes(LinesOf(s, s.phase.reader)[..s.phase.offset]) >= 16_777_216
  {
  }

  function Repeat(step: Step, n: nat): seq<Step> { if n == 0 then [] else Repeat(step, n - 1) + [step] }

  /** Part way through the import of a rotated segment. */
  ghost predicate At(s: State, t: State, stamp: nat, n: nat, pos: nat)
    requires s.phase.Tailing?
  {
    && t == s.(dir := s.dir[Seg(stamp, false) := n], events := None, table := t.table, phase := t.phase)
    && t.phase == Rotating(stamp, pos, s.phase.reader, s.phase.offset)
    && pos <= |LinesOf(s, n)|
    && (forall i :: 0 <= i < pos ==> Recorded(t.table, LinesOf(s, n)[i]))
    && (forall k :: k in s.table ==> k in t.table)
  }

  lemma RotatedLineAt(s: State, t: State, stamp: nat, n: nat, pos: nat)
    requires s.phase.Tailing? && At(s, t, stamp, n, pos) && pos < |LinesOf(s, n)|
    ensures At(s, Next(t, Running(RotateLine(true, true))), stamp, n, pos + 1)
  {
    hide NoRepeats;
    var line := LinesOf(s, n)[pos];
    assert LinesOf(t, n) == LinesOf(s, n);
    assert RunningEnabled(t, RotateLine(true, true));
    var u := Next(t, Running(RotateLine(true, true)));
    assert u.table == IngestLine(t.table, line);
    assert Recorded(u.table, line);
  }

  lemma {:induction false} RotatesAlong(steps: seq<Step>, stamp: nat, n: nat, pos: nat)
    requires Run(Init(), steps).phase.Tailing?
    requires RunningEnabled(Run(Init(), steps), Rotate(stamp)) && Run(Init(), steps).events == Some(n)
    requires pos <= |LinesOf(Run(Init(), steps), n)|
    ensures At(Run(Init(), steps),
               Run(Init(), steps + [Running(Rotate(stamp))] + Repeat(Running(RotateLine(true, true)), pos)),
               stamp, n, pos)
  {
    hide Next, At, RunningEnabled, LinesOf;
    var rotated, step := steps + [Running(Rotate(stamp))], Running(RotateLine(true, true));
    if pos == 0 {
      assert rotated + [] == rotated;
      RunStep(Init(), steps, Running(Rotate(stamp)));
      RotatedAt(Run(Init(), steps), stamp, n);
    } else {
      var before := rotated + Repeat(step, pos - 1);
      assert rotated + Repeat(step, pos) == before + [step];
      RotatesAlong(steps, stamp, n, pos - 1);
      RunStep(Init(), before, step);
      hide Run;
      RotatedLineAt(Run(Init(), steps), Run(Init(), before), stamp, n, pos - 1);
    }
  }

  lemma RotatedAt(s: State, stamp: nat, n: nat)
    requires s.phase.Tailing? && RunningEnabled(s, Rotate(stamp)) && s.events == Some(n)
    ensures At(s, Next(s, Running(Rotate(stamp))), stamp, n, 0)
  {
    hide LogIsFull;
  }

  /** The steps of a whole rotation of a log of `count` lines. */
  function WholeRotation(stamp: nat, count: nat, inode: nat): seq<Step> {
    [Running(Rotate(stamp))] + Repeat(Running(RotateLine(true, true)), count)
    + [Running(RotateEnd), Running(Reopen(inode, true, true))]
  }

  lemma RotationEnds(s: State, t: State, stamp: nat, n: nat, inode: nat)
    requires s.phase.Tailing? && At(s, t, stamp, n, |LinesOf(s, n)|) && inode !in s.files
    ensures var u := Next(Next(t, Running(RotateEnd)), Running(Reopen(inode, true, true)));
      && u.phase == Tailing(inode, 0) && u.events == Some(inode) && u.dir == s.dir[Seg(stamp, false) := n]
      && u.files == s.files[inode := []] && u.table == t.table && u.importFailed == s.importFailed
  {
    assert LinesOf(t, n) == LinesOf(s, n);
    var v := Next(t, Running(RotateEnd));
    assert v == t.(phase := Reopening(s.phase.reader, s.phase.offset));
  }

  /**
   From every reachable state in which the log is full, a rotation in which
   nothing fails files the log as a segment, records every line of it, and goes
   on tailing a new, empty log from its start.
   */
  lemma RotationCompletes(steps: seq<Step>, stamp: nat, inode: nat)
    requires RunningEnabled(Run(Init(), steps), Rotate(stamp)) && inode !in Run(Init(), steps).files
    ensures
      var s := Run(Init(), steps);
      var n := s.events.value;
      var t := Run(Init(), steps + WholeRotation(stamp, |LinesOf(s, n)|, inode));
      && t.phase == Tailing(inode, 0) && t.events == Some(inode) && t.dir == s.dir[Seg(stamp, false) := n]
      && t.files == s.files[inode := []]
      && forall i :: 0 <= i < |LinesOf(s, n)| ==> Recorded(t.table, LinesOf(s, n)[i])
  {
    RotatesWhenFull(Run(Init(), steps), stamp);
    hide Next, RunningEnabled, Repeat, At, Run, LinesOf;
    var s := Run(Init(), steps);
    var n := s.events.value;
    var count := |LinesOf(s, n)|;
    var before := steps + [Running(Rotate(stamp))] + Repeat(Running(RotateLine(true, true)), count);
    RotatesAlong(steps, stamp, n, count);
    var t := Run(Init(), before);
    RotationEnds(s, t, stamp, n, inode);
    AtRecorded(s, t, stamp, n);
    RunStep(Init(), before, Running(RotateEnd));
    RunStep(Init(), before + [Running(RotateEnd)], Running(Reopen(inode, true, true)));
    assert steps + WholeRotation(stamp, count, inode)
        == before + [Running(RotateEnd)] + [Running(Reopen(inode, true, true))];
  }

  lemma AtRecorded(s: State, t: State, stamp: nat, n: nat)
    requires s.phase.Tailing? && At(s, t, stamp, n, |LinesOf(s, n)|)
    ensures forall i :: 0 <= i < |LinesOf(s, n)| ==> Recorded(t.table, LinesOf(s, n)[i])
  {
  }

  // ---------------------------------------------------------------------
  // Starting up
  // ---------------------------------------------------------------------

  /** A recovered segment is deleted exactly when it is a failed one and can be deleted; then the next one follows. */
  lemma SegmentLeaves(steps: seq<Step>, removeOk: bool)
    requires var s := Run(Init(), steps); s.phase.Recovering? && s.phase.todo != [] && s.phase.cursor.AtEnd?
    ensures
      var s, t := Run(Init(), steps), Run(Init(), steps + [Startup(RecoverNext(removeOk))]);
      var seg := s.phase.todo[0];
      && t.dir == (if seg.failed && removeOk then s.dir - {seg} else s.dir)
      && t.files == s.files && t.table == s.table && t.phase == Recovering(s.phase.todo[1..], Closed)
  {
    RunStep(Init(), steps, Startup(RecoverNext(removeOk)));
    hide Run;
  }

  /** The backlog ends, by reaching the end of the log or by an error, in tailing from where it began. */
  lemma BacklogLeads(steps: seq<Step>)
    requires var s := Run(Init(), steps); s.phase.Backlog? && s.events.Some?
    ensures
      var s, t := Run(Init(), steps), Run(Init(), steps + [Startup(BacklogAbort)]);
      DiskKept(s, t) && t.importFailed && t.phase == Tailing(s.events.value, s.phase.startLen)
    ensures
      var s, t := Run(Init(), steps), Run(Init(), steps + [Startup(BacklogEnd)]);
      s.phase.pos == |LinesOf(s, s.events.value)| ==>
        DiskKept(s, t) && t.importFailed == s.importFailed && t.phase == Tailing(s.events.value, s.phase.startLen)
  {
    RunStep(Init(), steps, Startup(BacklogAbort));
    RunStep(Init(), steps, Startup(BacklogEnd));
    hide Run;
  }
}
