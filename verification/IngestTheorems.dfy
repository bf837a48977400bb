/** What the ingest protocol promises, over every run. */
module IngestTheorems {
  import opened Lists
  import opened Ingest
  import opened IngestProtocol
  import opened IngestNames

  /**
   Whatever hooks, crashes, failed imports and restarts did, a decision line is
   in the table or in a file that still has a name. The one exception is a line
   a hook wrote to a deleted segment, through a handle it had kept open, after
   the recovery of that segment had reached its end.
   */
  lemma NothingLost(steps: seq<Step>, n: nat, i: nat)
    requires n in Run(Init(), steps).files && i < |Run(Init(), steps).files[n]|
    ensures
      var s := Run(Init(), steps);
      Recorded(s.table, s.files[n][i]) || Linked(s, n) || (n in s.sealed && s.sealed[n] <= i)
  {
    RunKeeps(steps);
  }

  /** When no hook held a segment open as its recovery ended, there is no exception. */
  lemma NothingLostWithoutStragglers(steps: seq<Step>, n: nat, i: nat)
    requires n in Run(Init(), steps).files && i < |Run(Init(), steps).files[n]|
    requires !Run(Init(), steps).straggled
    ensures var s := Run(Init(), steps); Recorded(s.table, s.files[n][i]) || Linked(s, n)
  {
    RunKeeps(steps);
  }

  /** A file that still has a name is the current log, or the startup scan of its directory collects it. */
  lemma StartupReadsEveryFile(steps: seq<Step>, entries: seq<Option<DirEntry>>, text: Stamps, n: nat)
    requires Renders(text) && Scans(entries, Run(Init(), steps).dir, text) && Linked(Run(Init(), steps), n)
    ensures
      var s := Run(Init(), steps);
      s.events == Some(n)
      || exists seg :: seg in s.dir && s.dir[seg] == n && (NameOf(text, seg), seg.failed) in Collected(entries)
  {
    hide Run, Scans, Renders, Collected, NameOf;
    var s := Run(Init(), steps);
    if s.events != Some(n) {
      var seg :| seg in s.dir && s.dir[seg] == n;
      CollectedIff(entries, s.dir, text, seg);
    }
  }

  /**
   The two together: with the daemon down, every line ever appended is in the
   table, in the current log, in a segment of the recovery that the scan of the
   directory starts, or past the end of what was recovered of a deleted one.
   */
  lemma EveryLineFound(
    steps: seq<Step>, entries: seq<Option<DirEntry>>, text: Stamps, todo: seq<Seg>, n: nat, i: nat)
    requires n in Run(Init(), steps).files && i < |Run(Init(), steps).files[n]| && Run(Init(), steps).phase.Down?
    requires Renders(text) && Scans(entries, Run(Init(), steps).dir, text)
    requires multiset(Pairs(text, todo)) == multiset(Collected(entries))
    ensures StartupEnabled(Run(Init(), steps), Start(todo))
    ensures
      var s := Run(Init(), steps);
      || Recorded(s.table, s.files[n][i])
      || s.events == Some(n)
      || (exists seg :: seg in todo && seg in s.dir && s.dir[seg] == n)
      || (n in s.sealed && s.sealed[n] <= i)
  {
    hide Run, Scans, Renders, Collected, NameOf;
    var s := Run(Init(), steps);
    NothingLost(steps, n, i);
    ScanStartsRecovery(s, entries, text, todo);
    if Linked(s, n) && s.events != Some(n) {
      var seg :| seg in s.dir && s.dir[seg] == n;
      assert seg in (set x | x in todo);
    }
  }

  ghost predicate FromLines(s: State) {
    forall k :: k in s.table ==> exists n :: n in s.files && Mentions(s.files[n], k)
  }

  lemma GrowthFromLines(s: State, t: State)
    requires FromLines(s)
    requires forall n :: n in s.files ==> n in t.files && s.files[n] <= t.files[n]
    requires forall k :: k in t.table && k !in s.table ==> exists n :: n in t.files && Mentions(t.files[n], k)
    ensures FromLines(t)
  {
    forall k | k in t.table && k in s.table ensures exists n :: n in t.files && Mentions(t.files[n], k) {
      var n :| n in s.files && Mentions(s.files[n], k);
      MentionsLonger(s.files[n], t.files[n], k);
    }
  }

  lemma MentionsLonger(lines: seq<Line>, more: seq<Line>, k: nat)
    requires lines <= more && Mentions(lines, k)
    ensures Mentions(more, k)
  {
    var line :| line in lines && Decides(line, k);
    assert line in more;
  }

  lemma IngestedFromLines(s: State, n: nat, i: nat, dbOk: bool)
    requires FromLines(s) && i < |LinesOf(s, n)|
    ensures FromLines(Ingested(s, LinesOf(s, n)[i], dbOk))
  {
    var line := LinesOf(s, n)[i];
    var t := Ingested(s, line, dbOk);
    forall k | k in t.table && k !in s.table ensures exists m :: m in t.files && Mentions(t.files[m], k) {
      assert line in t.files[n] && Decides(line, k);
    }
    GrowthFromLines(s, t);
  }

  lemma HookFromLines(s: State, step: HookStep)
    requires HookEnabled(s, step) && FromLines(s)
    ensures FromLines(HookNext(s, step))
  {
    hide FromLines;
    SameTableFromLines(s, HookNext(s, step));
  }

  lemma RecoveredLineTable(s: State, dbOk: bool, renameOk: bool)
    requires StartupEnabled(s, RecoverLine(dbOk, renameOk)) && FromLines(s)
    ensures FromLines(RecoveredLine(s, dbOk, renameOk))
  {
    hide FromLines, Ingested, LeftUnread;
    var line := LinesOf(s, Current(s))[s.phase.cursor.pos];
    IngestedFromLines(s, Current(s), s.phase.cursor.pos, dbOk);
    IngestedDisk(s, line, dbOk);
    LeftUnreadDisk(Ingested(s, line, dbOk), renameOk);
    SameTableFromLines(Ingested(s, line, dbOk), RecoveredLine(s, dbOk, renameOk));
  }

  lemma BackloggedLineTable(s: State, dbOk: bool)
    requires StartupEnabled(s, BacklogLine(dbOk)) && FromLines(s)
    ensures FromLines(BackloggedLine(s, LinesOf(s, s.events.value)[s.phase.pos], dbOk))
  {
    hide FromLines, IngestLine;
    IngestedFromLines(s, s.events.value, s.phase.pos, dbOk);
    SameTableFromLines(Ingested(s, LinesOf(s, s.events.value)[s.phase.pos], dbOk),
                       BackloggedLine(s, LinesOf(s, s.events.value)[s.phase.pos], dbOk));
  }

  lemma StartupFromLines(s: State, step: StartupStep)
    requires StartupEnabled(s, step) && FromLines(s)
    ensures FromLines(StartupNext(s, step))
  {
    hide FromLines, Lengths, Listing, RecoveredLine, LeftUnread, BackloggedLine, LinesOf, Current;
    match step
    case RecoverLine(dbOk, renameOk) => RecoveredLineTable(s, dbOk, renameOk);
    case BacklogLine(dbOk) => BackloggedLineTable(s, dbOk);
    case RecoverAbort(renameOk) => {
      LeftUnreadDisk(s.(importFailed := true), renameOk);
      SameTableFromLines(s, StartupNext(s, step));
    }
    case _ => SameTableFromLines(s, StartupNext(s, step));
  }

  lemma RotatedLineTable(s: State, dbOk: bool, renameOk: bool)
    requires RunningEnabled(s, RotateLine(dbOk, renameOk)) && FromLines(s)
    ensures FromLines(RotatedLine(s, LinesOf(s, s.dir[Seg(s.phase.stamp, false)])[s.phase.pos], dbOk, renameOk))
  {
    hide FromLines, Ingested, RotationFailed;
    var n := s.dir[Seg(s.phase.stamp, false)];
    var line := LinesOf(s, n)[s.phase.pos];
    IngestedFromLines(s, n, s.phase.pos, dbOk);
    IngestedDisk(s, line, dbOk);
    RotationFailedDisk(Ingested(s, line, dbOk), renameOk);
    SameTableFromLines(Ingested(s, line, dbOk), RotatedLine(s, line, dbOk, renameOk));
  }

  lemma ManualIsIngested(s: State, line: Line)
    ensures Ingested(s, line, true) == s.(table := IngestLine(s.table, line))
  {
  }

  lemma ReopenFromLines(s: State, inode: nat, createOk: bool, openOk: bool)
    requires RunningEnabled(s, Reopen(inode, createOk, openOk)) && FromLines(s)
    ensures FromLines(RunningNext(s, Reopen(inode, createOk, openOk)))
  {
    hide FromLines;
    SameTableFromLines(s, RunningNext(s, Reopen(inode, createOk, openOk)));
  }

  lemma RunningFromLines(s: State, step: RunningStep)
    requires RunningEnabled(s, step) && FromLines(s)
    ensures FromLines(RunningNext(s, step))
  {
    hide FromLines, Ingested, RotatedLine, RotationFailed, LogIsFull, Created;
    match step
    case TailLine(dbOk) =>
      IngestedFromLines(s, s.phase.reader, s.phase.offset, dbOk);
      IngestedDisk(s, LinesOf(s, s.phase.reader)[s.phase.offset], dbOk);
      SameTableFromLines(Ingested(s, LinesOf(s, s.phase.reader)[s.phase.offset], dbOk), RunningNext(s, step));
    case ManualIngest(i) =>
      IngestedFromLines(s, s.events.value, i, true);
      assert Ingested(s, LinesOf(s, s.events.value)[i], true) == RunningNext(s, step) by {
        ManualIsIngested(s, LinesOf(s, s.events.value)[i]);
      }
    case RotateLine(dbOk, renameOk) => RotatedLineTable(s, dbOk, renameOk);
    case RotateAbort(renameOk) =>
      RotationFailedDisk(s.(importFailed := true), renameOk);
      SameTableFromLines(s, RunningNext(s, step));
    case Reopen(inode, createOk, openOk) => ReopenFromLines(s, inode, createOk, openOk);
    case _ => SameTableFromLines(s, RunningNext(s, step));
  }

  lemma NextFromLines(s: State, step: Step)
    requires FromLines(s)
    ensures FromLines(Next(s, step))
  {
    hide FromLines, HookNext, StartupNext, RunningNext;
    match step
    case Hook(hook) => if HookEnabled(s, hook) { HookFromLines(s, hook); }
    case Startup(startup) => if StartupEnabled(s, startup) { StartupFromLines(s, startup); }
    case Running(running) => if RunningEnabled(s, running) { RunningFromLines(s, running); }
    case Crash => SameTableFromLines(s, Next(s, step));
  }

  lemma SameTableFromLines(s: State, t: State)
    requires FromLines(s) && t.table == s.table
    requires forall n :: n in s.files ==> n in t.files && s.files[n] <= t.files[n]
    ensures FromLines(t)
  {
    GrowthFromLines(s, t);
  }

  /** No decision is inserted twice, and none is inserted that no hook wrote. */
  lemma {:induction false} InsertedAtMostOnce(steps: seq<Step>)
    ensures NoRepeats(Run(Init(), steps).table) && FromLines(Run(Init(), steps))
  {
    RunKeeps(steps);
    if steps != [] {
      InsertedAtMostOnce(steps[..|steps| - 1]);
      NextFromLines(Run(Init(), steps[..|steps| - 1]), steps[|steps| - 1]);
    }
  }

  /**
   A startup in which no insert fails has, by the time tailing begins, imported
   every line of every file it found; and a tail that has caught up with
   `events.jsonl` has imported all of it, including what was appended meanwhile.
   */
  lemma CleanStartupImportsEverything(steps: seq<Step>)
    requires Run(Init(), steps).phase.Tailing? && !Run(Init(), steps).importFailed
    ensures
      var s := Run(Init(), steps);
      && (forall n, i :: n in s.since && 0 <= i < s.since[n] ==>
            i < |LinesOf(s, n)| && Recorded(s.table, LinesOf(s, n)[i]))
      && (s.events == Some(s.phase.reader) && s.phase.offset == |LinesOf(s, s.phase.reader)| ==>
            forall i :: 0 <= i < |LinesOf(s, s.phase.reader)| ==>
              Recorded(s.table, LinesOf(s, s.phase.reader)[i]))
  {
    RunKeeps(steps);
    var s := Run(Init(), steps);
    forall n | n in s.since ensures Covered(s, n) { assert Covers(s, n); }
  }

  // ----- the exception, exactly -----

  /** The disk is as it was, except that names may be gone; the table may have grown. */
  ghost predicate SameDisk(s: State, t: State) {
    t.files == s.files && t.events == s.events && t.dir.Values <= s.dir.Values
  }

  lemma MarkedDisk(s: State, stamp: nat)
    requires Seg(stamp, false) in s.dir
    ensures SameDisk(s, MarkedFailed(s, stamp)) && MarkedFailed(s, stamp).table == s.table
    ensures MarkedFailed(s, stamp).phase == s.phase
  {
    assert s.dir[Seg(stamp, false)] in s.dir.Values;
  }

  lemma LeftUnreadDisk(s: State, renameOk: bool)
    requires s.phase.Recovering? && s.phase.todo != []
    ensures SameDisk(s, LeftUnread(s, renameOk)) && LeftUnread(s, renameOk).table == s.table
  {
    hide MarkedFailed;
    var seg := s.phase.todo[0];
    if seg in s.dir && !seg.failed { MarkedDisk(s, seg.stamp); }
  }

  lemma RotationFailedDisk(s: State, renameOk: bool)
    requires s.phase.Rotating? && Seg(s.phase.stamp, false) in s.dir
    ensures SameDisk(s, RotationFailed(s, renameOk)) && RotationFailed(s, renameOk).table == s.table
  {
    hide MarkedFailed;
    MarkedDisk(s, s.phase.stamp);
  }

  lemma IngestedDisk(s: State, line: Line, dbOk: bool)
    ensures var t := Ingested(s, line, dbOk);
      t.files == s.files && t.events == s.events && t.dir == s.dir && t.phase == s.phase
  {
    hide IngestLine, NoRepeats, Decides;
    var table := IngestLine(s.table, line);
    assert Ingested(s, line, dbOk) == s.(importFailed := true) || Ingested(s, line, dbOk) == s.(table := table);
  }

  lemma RecoveredLineDisk(s: State, dbOk: bool, renameOk: bool)
    requires StartupEnabled(s, RecoverLine(dbOk, renameOk))
    ensures SameDisk(s, RecoveredLine(s, dbOk, renameOk))
  {
    hide Ingested, LeftUnread;
    var line := LinesOf(s, Current(s))[s.phase.cursor.pos];
    IngestedDisk(s, line, dbOk);
    LeftUnreadDisk(Ingested(s, line, dbOk), renameOk);
  }

  lemma RotatedLineDisk(s: State, dbOk: bool, renameOk: bool)
    requires RunningEnabled(s, RotateLine(dbOk, renameOk))
    ensures SameDisk(s, RunningNext(s, RotateLine(dbOk, renameOk)))
  {
    hide Ingested, RotationFailed;
    var line := LinesOf(s, s.dir[Seg(s.phase.stamp, false)])[s.phase.pos];
    IngestedDisk(s, line, dbOk);
    RotationFailedDisk(Ingested(s, line, dbOk), renameOk);
  }

  /** No file of `s` has a name in `t` that it had not in `s`. */
  ghost predicate NoNewNames(s: State, t: State) {
    forall n :: n in s.files ==> n in t.files && (Linked(t, n) ==> Linked(s, n))
  }

  lemma StartupNames(s: State, step: StartupStep)
    requires StartupEnabled(s, step)
    ensures NoNewNames(s, StartupNext(s, step))
  {
    hide Lengths, Listing, RecoveredLine, LeftUnread, Ingested;
    match step {
      case RecoverLine(dbOk, renameOk) => RecoveredLineDisk(s, dbOk, renameOk);
      case RecoverAbort(renameOk) => LeftUnreadDisk(s.(importFailed := true), renameOk);
      case RecoverNext(removeOk) => { assert StartupNext(s, step).dir.Values <= s.dir.Values; }
      case Prune(stamp) => { assert StartupNext(s, step).dir.Values <= s.dir.Values; }
      case BacklogLine(dbOk) => IngestedDisk(s, LinesOf(s, s.events.value)[s.phase.pos], dbOk);
      case _ => {}
    }
  }

  lemma RunningNames(s: State, step: RunningStep)
    requires RunningEnabled(s, step)
    ensures NoNewNames(s, RunningNext(s, step))
  {
    hide LogIsFull, IngestLine, RotatedLine, RotationFailed, Ingested;
    match step {
      case TailLine(dbOk) => IngestedDisk(s, LinesOf(s, s.phase.reader)[s.phase.offset], dbOk);
      case Rotate(stamp) => {
        var t := RunningNext(s, step);
        assert t.dir.Values <= s.dir.Values + {s.events.value};
      }
      case RotateLine(dbOk, renameOk) => RotatedLineDisk(s, dbOk, renameOk);
      case RotateAbort(renameOk) => RotationFailedDisk(s.(importFailed := true), renameOk);
      case _ => {}
    }
  }

  /** A file that has lost its last name never gets one again. */
  lemma NamelessStays(s: State, step: Step, n: nat)
    requires n in s.files && !Linked(s, n)
    ensures n in Next(s, step).files && !Linked(Next(s, step), n)
  {
    hide StartupNext, RunningNext, StartupEnabled, RunningEnabled;
    match step {
      case Hook(hook) => {}
      case Startup(startup) => { if StartupEnabled(s, startup) { StartupNames(s, startup); } }
      case Running(running) => { if RunningEnabled(s, running) { RunningNames(s, running); } }
      case Crash => {}
    }
  }

  lemma {:induction false} NamelessForever(steps: seq<Step>, more: seq<Step>, n: nat)
    requires n in Run(Init(), steps).files && !Linked(Run(Init(), steps), n)
    ensures n in Run(Init(), steps + more).files && !Linked(Run(Init(), steps + more), n)
    decreases |more|
  {
    hide Linked, Next;
    if more == [] {
      assert steps + more == steps;
    } else {
      var k := |more| - 1;
      NamelessForever(steps, more[..k], n);
      assert steps + more == (steps + more[..k]) + [more[k]];
      RunStep(Init(), steps + more[..k], more[k]);
      NamelessStays(Run(Init(), steps + more[..k]), more[k], n);
    }
  }

  /** Neither in the table nor in a file that has a name. */
  ghost predicate IsLost(s: State, n: nat, i: nat) {
    n in s.files && i < |s.files[n]| && !Recorded(s.table, s.files[n][i]) && !Linked(s, n)
  }

  /**
   In every reachable state, a hook that writes a decision not seen before
   loses it if and only if its file has lost its last name, and that happens
   only after some hook held a segment open as its recovery ended.
   */
  lemma WriteLosesIff(steps: seq<Step>, h: nat, key: nat, size: nat)
    requires h in Run(Init(), steps).handles && key !in Run(Init(), steps).table
    ensures
      var s := Run(Init(), steps);
      var n := s.handles[h];
      && n in s.files
      && (IsLost(Run(Init(), steps + [Hook(Write(h, Decision(key, size)))]), n, |s.files[n]|) <==> !Linked(s, n))
      && (!Linked(s, n) ==> s.straggled)
  {
    var s := Run(Init(), steps);
    RunKeeps(steps);
    RunStep(Init(), steps, Hook(Write(h, Decision(key, size))));
    hide Run;
    HeldNameless(s, h);
  }

  lemma HeldNameless(s: State, h: nat)
    requires Inv(s) && h in s.handles
    ensures s.handles[h] in s.files && (!Linked(s, s.handles[h]) ==> s.straggled)
  {
    hide Progress, Imported;
    assert s.handles[h] in s.handles.Values;
  }

  // ----- a rotation imports what it takes away -----

  predicate IsRunning(p: Phase) { p.Tailing? || p.Rotating? || p.Reopening? }

  /** The lines the file began with when it was rotated are recorded, or its import is under way. */
  ghost predicate Underway(s: State, stamp: nat, n: nat, lines: seq<Line>) {
    && IsRunning(s.phase) && lines <= LinesOf(s, n)
    && (s.importFailed || Imported(s, n, |lines|)
        || (s.phase.Rotating? && s.phase.stamp == stamp && Seg(stamp, false) in s.dir && s.dir[Seg(stamp, false)] == n
            && Imported(s, n, s.phase.pos)))
  }

  /** The table and the files only grow. */
  ghost predicate Grows(s: State, t: State) {
    && (forall k :: k in s.table ==> k in t.table)
    && (forall n :: LinesOf(s, n) <= LinesOf(t, n))
  }

  lemma ImportedGrows(s: State, t: State, n: nat, count: nat)
    requires Imported(s, n, count) && Grows(s, t)
    ensures Imported(t, n, count)
  {
    assert LinesOf(s, n) <= LinesOf(t, n);
    assert forall i :: 0 <= i < count ==> LinesOf(t, n)[i] == LinesOf(s, n)[i];
  }

  lemma HookGrows(s: State, step: HookStep)
    requires HookEnabled(s, step) && IsRunning(s.phase)
    requires s.events.Some? ==> s.events.value in s.files
    ensures var t := HookNext(s, step);
      Grows(s, t) && t.phase == s.phase && t.dir == s.dir && t.importFailed == s.importFailed
  {
  }

  lemma IngestedGrows(s: State, line: Line, dbOk: bool)
    ensures var t := Ingested(s, line, dbOk);
      && Grows(s, t) && t.dir == s.dir && t.files == s.files && t.phase == s.phase
      && (s.importFailed ==> t.importFailed)
      && (if Failed(line, dbOk) then t.importFailed else Recorded(t.table, line))
  {
    hide NoRepeats;
    var table := IngestLine(s.table, line);
    assert Ingested(s, line, dbOk) == s.(importFailed := true) || Ingested(s, line, dbOk) == s.(table := table);
  }

  /** A step that leaves the rotation of this file alone. */
  lemma UnderwayKept(s: State, t: State, stamp: nat, n: nat, lines: seq<Line>)
    requires Underway(s, stamp, n, lines) && Grows(s, t) && (s.importFailed ==> t.importFailed)
    requires t.phase == s.phase && t.dir == s.dir
    ensures Underway(t, stamp, n, lines)
  {
    hide Imported, Grows;
    GrowsLonger(s, t, n);
    if Imported(s, n, |lines|) { ImportedGrows(s, t, n, |lines|); }
    if s.phase.Rotating? && Imported(s, n, s.phase.pos) { ImportedGrows(s, t, n, s.phase.pos); }
  }

  lemma GrowsLonger(s: State, t: State, n: nat)
    requires Grows(s, t)
    ensures LinesOf(s, n) <= LinesOf(t, n)
  {
  }

  /** A step to another running phase once the file is imported, or after a failure. */
  lemma UnderwayMoves(s: State, t: State, stamp: nat, n: nat, lines: seq<Line>)
    requires Underway(s, stamp, n, lines) && Grows(s, t) && (s.importFailed ==> t.importFailed)
    requires IsRunning(t.phase) && (t.importFailed || Imported(s, n, |lines|))
    ensures Underway(t, stamp, n, lines)
  {
    hide Imported, Grows;
    GrowsLonger(s, t, n);
    if Imported(s, n, |lines|) { ImportedGrows(s, t, n, |lines|); }
  }

  lemma RotateLineUnderway(s: State, dbOk: bool, renameOk: bool, stamp: nat, n: nat, lines: seq<Line>)
    requires RunningEnabled(s, RotateLine(dbOk, renameOk)) && Underway(s, stamp, n, lines)
    ensures Underway(RunningNext(s, RotateLine(dbOk, renameOk)), stamp, n, lines)
  {
    hide Ingested, Grows;
    var file := s.dir[Seg(s.phase.stamp, false)];
    var line := LinesOf(s, file)[s.phase.pos];
    var t := RunningNext(s, RotateLine(dbOk, renameOk));
    var u := Ingested(s, line, dbOk);
    IngestedGrows(s, line, dbOk);
    assert Grows(s, t) by { SameGrowth(s, u, t); }
    if t.importFailed || Imported(s, n, |lines|) {
      UnderwayMoves(s, t, stamp, n, lines);
    } else {
      ImportedGrows(s, t, n, s.phase.pos);
      GrowsLonger(s, t, n);
    }
  }

  lemma SameGrowth(s: State, u: State, t: State)
    requires Grows(s, u) && t.table == u.table && t.files == u.files
    ensures Grows(s, t)
  {
    assert forall n :: LinesOf(t, n) == LinesOf(u, n);
  }

  lemma RotateEndUnderway(s: State, stamp: nat, n: nat, lines: seq<Line>)
    requires RunningEnabled(s, RotateEnd) && Underway(s, stamp, n, lines)
    ensures Underway(RunningNext(s, RotateEnd), stamp, n, lines)
  {
    hide Imported, Grows;
    var t := RunningNext(s, RotateEnd);
    assert Grows(s, t) by { SameDiskGrows(s, t); }
    if !Imported(s, n, |lines|) && !s.importFailed { ImportedFewer(s, n, s.phase.pos, |lines|); }
    UnderwayMoves(s, t, stamp, n, lines);
  }

  lemma SameDiskGrows(s: State, t: State)
    requires t.table == s.table && t.files == s.files
    ensures Grows(s, t)
  {
    assert forall n :: LinesOf(t, n) == LinesOf(s, n);
  }

  lemma TailLineUnderway(s: State, dbOk: bool, stamp: nat, n: nat, lines: seq<Line>)
    requires RunningEnabled(s, TailLine(dbOk)) && Underway(s, stamp, n, lines)
    ensures Underway(RunningNext(s, TailLine(dbOk)), stamp, n, lines)
  {
    hide Imported, Grows, Ingested;
    var t := RunningNext(s, TailLine(dbOk));
    var line := LinesOf(s, s.phase.reader)[s.phase.offset];
    IngestedGrows(s, line, dbOk);
    SameGrowth(s, Ingested(s, line, dbOk), t);
    UnderwayMoves(s, t, stamp, n, lines);
  }

  lemma ManualUnderway(s: State, i: nat, stamp: nat, n: nat, lines: seq<Line>)
    requires RunningEnabled(s, ManualIngest(i)) && Underway(s, stamp, n, lines)
    ensures Underway(RunningNext(s, ManualIngest(i)), stamp, n, lines)
  {
    hide Imported, Grows, Ingested;
    var t := RunningNext(s, ManualIngest(i));
    var line := LinesOf(s, s.events.value)[i];
    IngestedGrows(s, line, true);
    assert t == Ingested(s, line, true) by { IngestedOk(s, line); }
    UnderwayKept(s, t, stamp, n, lines);
  }

  lemma IngestedOk(s: State, line: Line)
    ensures Ingested(s, line, true) == s.(table := IngestLine(s.table, line))
  {
  }

  lemma RotateGrows(s: State, stamp: nat)
    requires RunningEnabled(s, Rotate(stamp))
    ensures var t := RunningNext(s, Rotate(stamp));
      Grows(s, t) && IsRunning(t.phase) && t.importFailed == s.importFailed
  {
    hide LogIsFull, Grows;
    SameDiskGrows(s, RunningNext(s, Rotate(stamp)));
  }

  lemma AbortGrows(s: State, renameOk: bool)
    requires RunningEnabled(s, RotateAbort(renameOk))
    ensures var t := RunningNext(s, RotateAbort(renameOk));
      Grows(s, t) && IsRunning(t.phase) && t.importFailed
  {
    hide Grows;
    SameDiskGrows(s, RunningNext(s, RotateAbort(renameOk)));
  }

  lemma TailReopenGrows(s: State, openOk: bool)
    requires RunningEnabled(s, TailReopen(openOk))
    ensures var t := RunningNext(s, TailReopen(openOk));
      Grows(s, t) && IsRunning(t.phase) && t.importFailed == s.importFailed
  {
    hide Grows;
    SameDiskGrows(s, RunningNext(s, TailReopen(openOk)));
  }

  lemma ReopenGrows(s: State, inode: nat, createOk: bool, openOk: bool)
    requires RunningEnabled(s, Reopen(inode, createOk, openOk))
    ensures var t := RunningNext(s, Reopen(inode, createOk, openOk));
      Grows(s, t) && IsRunning(t.phase) && t.importFailed == s.importFailed
  {
    hide Grows, Created, LinesOf;
    var u := if createOk then Created(s, inode) else s;
    if createOk { CreatedGrows(s, inode); } else { SameDiskGrows(s, u); }
    SameGrowth(s, u, RunningNext(s, Reopen(inode, createOk, openOk)));
  }

  lemma CreatedGrows(s: State, inode: nat)
    requires inode !in s.files
    ensures Grows(s, Created(s, inode))
    ensures Created(s, inode).phase == s.phase && Created(s, inode).importFailed == s.importFailed
  {
  }

  lemma RunningUnderway(s: State, step: RunningStep, stamp: nat, n: nat, lines: seq<Line>)
    requires RunningEnabled(s, step) && Underway(s, stamp, n, lines)
    ensures Underway(RunningNext(s, step), stamp, n, lines)
  {
    hide Imported, RunningNext, Grows, TotalBytes;
    match step {
      case RotateLine(dbOk, renameOk) => { RotateLineUnderway(s, dbOk, renameOk, stamp, n, lines); }
      case RotateEnd => { RotateEndUnderway(s, stamp, n, lines); }
      case TailLine(dbOk) => { TailLineUnderway(s, dbOk, stamp, n, lines); }
      case ManualIngest(i) => { ManualUnderway(s, i, stamp, n, lines); }
      case Rotate(other) => {
        RotateGrows(s, other);
        UnderwayMoves(s, RunningNext(s, step), stamp, n, lines);
      }
      case RotateAbort(renameOk) => {
        AbortGrows(s, renameOk);
        UnderwayMoves(s, RunningNext(s, step), stamp, n, lines);
      }
      case TailReopen(openOk) => {
        TailReopenGrows(s, openOk);
        UnderwayMoves(s, RunningNext(s, step), stamp, n, lines);
      }
      case Reopen(inode, createOk, openOk) => {
        ReopenGrows(s, inode, createOk, openOk);
        UnderwayMoves(s, RunningNext(s, step), stamp, n, lines);
      }
    }
  }

  lemma ImportedFewer(s: State, n: nat, count: nat, fewer: nat)
    requires Imported(s, n, count) && fewer <= count
    ensures Imported(s, n, fewer)
  {
  }

  lemma UnderwayStep(s: State, step: Step, stamp: nat, n: nat, lines: seq<Line>)
    requires Inv(s) && Underway(s, stamp, n, lines) && !step.Crash?
    ensures Underway(Next(s, step), stamp, n, lines)
  {
    hide Underway, HookNext, RunningNext, HookEnabled, RunningEnabled;
    RunningFacts(s, stamp, n, lines);
    match step {
      case Hook(hook) => {
        if HookEnabled(s, hook) {
          HookGrows(s, hook);
          UnderwayKept(s, HookNext(s, hook), stamp, n, lines);
        }
      }
      case Startup(startup) => {}
      case Running(running) => { if RunningEnabled(s, running) { RunningUnderway(s, running, stamp, n, lines); } }
    }
  }

  lemma RunningFacts(s: State, stamp: nat, n: nat, lines: seq<Line>)
    requires Inv(s) && Underway(s, stamp, n, lines)
    ensures IsRunning(s.phase) && (s.events.Some? ==> s.events.value in s.files)
  {
    hide Imported, Progress;
  }

  lemma {:induction false} UnderwayRun(steps: seq<Step>, more: seq<Step>, stamp: nat, n: nat, lines: seq<Line>)
    requires Underway(Run(Init(), steps), stamp, n, lines)
    requires forall i :: 0 <= i < |more| ==> !more[i].Crash?
    ensures Underway(Run(Init(), steps + more), stamp, n, lines)
    decreases |more|
  {
    hide Underway, Next, Inv;
    if more == [] {
      assert steps + more == steps;
    } else {
      var k := |more| - 1;
      UnderwayRun(steps, more[..k], stamp, n, lines);
      assert steps + more == (steps + more[..k]) + [more[k]];
      RunStep(Init(), steps + more[..k], more[k]);
      RunKeeps(steps + more[..k]);
      UnderwayStep(Run(Init(), steps + more[..k]), more[k], stamp, n, lines);
    }
  }

  /**
   A rotation that met no read or database error has recorded every line of the
   log it took away by the time tailing goes on, whatever happens in between.
   */
  lemma RotationImportsEverything(steps: seq<Step>, stamp: nat, more: seq<Step>)
    requires RunningEnabled(Run(Init(), steps), Rotate(stamp))
    requires forall i :: 0 <= i < |more| ==> !more[i].Crash?
    requires var t := Run(Init(), steps + [Running(Rotate(stamp))] + more);
      !t.importFailed && (t.phase.Tailing? || t.phase.Reopening?)
    ensures var s, t := Run(Init(), steps), Run(Init(), steps + [Running(Rotate(stamp))] + more);
      forall i :: 0 <= i < |LinesOf(s, s.events.value)| ==> Recorded(t.table, LinesOf(s, s.events.value)[i])
  {
    hide Run, TotalBytes;
    var s := Run(Init(), steps);
    var n := s.events.value;
    var rotated := steps + [Running(Rotate(stamp))];
    RunStep(Init(), steps, Running(Rotate(stamp)));
    assert Underway(Run(Init(), rotated), stamp, n, LinesOf(s, n));
    hide Next;
    UnderwayRun(rotated, more, stamp, n, LinesOf(s, n));
  }

  // ----- the exception does occur -----

  lemma RunStep(s: State, steps: seq<Step>, step: Step)
    ensures Run(s, steps + [step]) == Next(Run(s, steps), step)
  {
    assert (steps + [step])[..|steps|] == steps;
  }

  /** One more step of a run whose last state is known. */
  lemma Extend(steps: seq<Step>, s: State, step: Step, t: State) returns (more: seq<Step>)
    requires Run(Init(), steps) == s && Next(s, step) == t
    ensures Run(Init(), more) == t
  {
    more := steps + [step];
    RunStep(Init(), steps, step);
  }

  lemma RunNothing()
    ensures Run(Init(), []) == Init()
  {
  }

  function BigLine(): Line { Decision(4, EVENTS_LOG_MAX_BYTES) }

  lemma BigLineFills()
    ensures LogIsFull([BigLine()], 1)
  {
    assert [BigLine()][..1] == [BigLine()] && [BigLine()][..0] == [];
    assert TotalBytes([BigLine()]) == EVENTS_LOG_MAX_BYTES;
  }

  /** One hook has opened the log and not written yet; another has filled it. The daemon starts. */
  lemma StartedUnderAHandle() returns (steps: seq<Step>)
    ensures Run(Init(), steps)
            == State(map[1 := [BigLine()]], Some(1), map[], map[0 := 1], [], Backlog(1, 0),
                     map[], map[1 := 1], false, false)
  {
    hide Run, BigLine;
    steps := [];
    RunNothing();
    var s1 := Init().(files := map[1 := []], events := Some(1), handles := map[0 := 1]);
    steps := Extend(steps, Init(), Hook(Open(0, 1)), s1);
    var s2 := s1.(handles := map[0 := 1, 1 := 1]);
    steps := Extend(steps, s1, Hook(Open(1, 2)), s2);
    var s3 := s2.(files := map[1 := [BigLine()]]);
    assert LinesOf(s2, 1) + [BigLine()] == [BigLine()];
    steps := Extend(steps, s2, Hook(Write(1, BigLine())), s3);
    var s4 := s3.(handles := map[0 := 1]);
    assert s3.handles - {1} == map[0 := 1];
    steps := Extend(steps, s3, Hook(Close(1)), s4);
    steps := StartedOn(steps, s4);
  }

  lemma StartedOn(before: seq<Step>, s: State) returns (steps: seq<Step>)
    requires Run(Init(), before) == s
    requires s == State(map[1 := [BigLine()]], Some(1), map[], map[0 := 1], [], Down, map[], map[], false, false)
    ensures Run(Init(), steps) == s.(phase := Backlog(1, 0), since := map[1 := 1])
  {
    hide Run, BigLine;
    assert Lengths(s) == map[1 := 1];
    var s1 := s.(phase := Recovering([], Closed), since := map[1 := 1]);
    steps := Extend(before, s, Startup(Start([])), s1);
    var s2 := s1.(phase := Pruning);
    steps := Extend(steps, s1, Startup(RecoverDone), s2);
    steps := Extend(steps, s2, Startup(Begin(2)), s2.(phase := Backlog(1, 0)));
  }

  /** It imports the line and follows the log. */
  lemma TailingUnderAHandle() returns (steps: seq<Step>)
    ensures Run(Init(), steps)
            == State(map[1 := [BigLine()]], Some(1), map[], map[0 := 1], [4], Tailing(1, 1),
                     map[], map[1 := 1], false, false)
  {
    hide Run;
    steps := StartedUnderAHandle();
    var s0 := State(map[1 := [BigLine()]], Some(1), map[], map[0 := 1], [], Backlog(1, 0),
                    map[], map[1 := 1], false, false);
    var s1 := s0.(table := [4], phase := Backlog(1, 1));
    assert IngestLine([], BigLine()) == [4];
    steps := Extend(steps, s0, Startup(BacklogLine(true)), s1);
    var s2 := s1.(phase := Tailing(1, 1));
    steps := Extend(steps, s1, Startup(BacklogEnd), s2);
  }

  /** It rotates the full log, meets a database error, and crashes. */
  lemma RotatedUnderAHandle() returns (steps: seq<Step>)
    ensures Run(Init(), steps)
            == State(map[1 := [BigLine()]], None, map[Seg(7, true) := 1], map[0 := 1], [4], Down,
                     map[], map[1 := 1], true, false)
  {
    hide Run;
    steps := TailingUnderAHandle();
    var s2 := State(map[1 := [BigLine()]], Some(1), map[], map[0 := 1], [4], Tailing(1, 1),
                    map[], map[1 := 1], false, false);
    BigLineFills();
    hide LogIsFull;
    var s3 := s2.(events := None, dir := map[Seg(7, false) := 1], phase := Rotating(7, 0, 1, 1));
    steps := Extend(steps, s2, Running(Rotate(7)), s3);
    var s4 := s3.(dir := map[Seg(7, true) := 1], importFailed := true, phase := Reopening(1, 1));
    assert (s3.dir - {Seg(7, false)})[Seg(7, true) := 1] == s4.dir;
    steps := Extend(steps, s3, Running(RotateLine(false, true)), s4);
    steps := Extend(steps, s4, Crash, s4.(phase := Down));
  }

  /** The next startup recovers the failed segment. */
  lemma ReadUnderAHandle() returns (steps: seq<Step>)
    ensures Run(Init(), steps)
            == State(map[1 := [BigLine()]], None, map[Seg(7, true) := 1], map[0 := 1], [4],
                     Recovering([Seg(7, true)], Reading(1)), map[], map[1 := 1], false, false)
  {
    hide Run;
    steps := RotatedUnderAHandle();
    var seg := Seg(7, true);
    var s0 := State(map[1 := [BigLine()]], None, map[seg := 1], map[0 := 1], [4], Down,
                    map[], map[1 := 1], true, false);
    assert Lengths(s0) == map[1 := 1] by { assert s0.dir[seg] in s0.dir.Values; }
    var s1 := s0.(phase := Recovering([seg], Closed), importFailed := false);
    steps := Extend(steps, s0, Startup(Start([seg])), s1);
    var s2 := s1.(phase := Recovering([seg], Reading(0)));
    steps := Extend(steps, s1, Startup(RecoverOpen), s2);
    var s3 := s1.(phase := Recovering([seg], Reading(1)));
    steps := Extend(steps, s2, Startup(RecoverLine(true, true)), s3);
  }

  /** It deletes the segment, with the first hook still holding it. */
  lemma RecoveredUnderAHandle() returns (steps: seq<Step>)
    ensures Run(Init(), steps)
            == State(map[1 := [BigLine()]], None, map[], map[0 := 1], [4],
                     Recovering([], Closed), map[1 := 1], map[1 := 1], false, true)
  {
    hide Run, BigLine;
    steps := ReadUnderAHandle();
    var seg := Seg(7, true);
    var s3 := State(map[1 := [BigLine()]], None, map[seg := 1], map[0 := 1], [4],
                    Recovering([seg], Reading(1)), map[], map[1 := 1], false, false);
    assert s3.handles[0] in s3.handles.Values;
    var s4 := s3.(phase := Recovering([seg], AtEnd), sealed := map[1 := 1], straggled := true);
    steps := Extend(steps, s3, Startup(RecoverEnd), s4);
    assert [seg][1..] == [] && s4.dir - {seg} == map[];
    steps := Extend(steps, s4, Startup(RecoverNext(true)), s4.(dir := map[], phase := Recovering([], Closed)));
  }

  /** Then the first hook writes, and the line is lost. */
  lemma StragglerLosesALine() returns (steps: seq<Step>)
    ensures IsLost(Run(Init(), steps), 1, 1) && Run(Init(), steps).files[1] == [BigLine(), Decision(5, 1)]
  {
    hide Run;
    steps := RecoveredUnderAHandle();
    var s := State(map[1 := [BigLine()]], None, map[], map[0 := 1], [4],
                   Recovering([], Closed), map[1 := 1], map[1 := 1], false, true);
    assert LinesOf(s, 1) + [Decision(5, 1)] == [BigLine(), Decision(5, 1)];
    steps := Extend(steps, s, Hook(Write(0, Decision(5, 1))), s.(files := map[1 := [BigLine(), Decision(5, 1)]]));
  }
}
