/**
 Hooks appending, the daemon tailing, rotating, recovering, pruning, crashing
 and restarting, as one state machine. A step that is not enabled leaves the
 state alone, so a run is any finite sequence of steps.
 */
module IngestProtocol {
  import opened Lists
  import opened Ingest

  /** A rotated segment, `events-<stamp>.jsonl` or `events-<stamp>.failed.jsonl`. */
  datatype Seg = Seg(stamp: nat, failed: bool)

  datatype Cursor = Closed | Reading(pos: nat) | AtEnd

  datatype Phase =
    | Down
    | Recovering(todo: seq<Seg>, cursor: Cursor)
    | Pruning
    | Backlog(startLen: nat, pos: nat)
    | Tailing(reader: nat, offset: nat)
    | Rotating(stamp: nat, pos: nat, oldReader: nat, oldOffset: nat)
    | Reopening(oldReader: nat, oldOffset: nat)

  /**
   `files` maps every inode ever created to its lines; a file is deleted by
   removing its name from `events` or `dir`. History variables: `sealed` is how
   much of a file the startup recovery had imported when it reached its end,
   `since` the file lengths at the last start, `importFailed` whether a read or an
   insert has failed since then, and `straggled` whether some hook still held a segment
   open when its recovery reached the end.
   */
  datatype State = State(
    files: map<nat, seq<Line>>, events: Option<nat>, dir: map<Seg, nat>,
    handles: map<nat, nat>, table: seq<nat>, phase: Phase,
    sealed: map<nat, nat>, since: map<nat, nat>, importFailed: bool, straggled: bool)

  datatype HookStep = Open(h: nat, inode: nat) | Write(h: nat, line: Line) | Close(h: nat)

  datatype StartupStep =
    | Start(todo: seq<Seg>)
    | RecoverOpen
    | RecoverLine(dbOk: bool, renameOk: bool)
    | RecoverAbort(renameOk: bool)
    | RecoverEnd
    | RecoverNext(removeOk: bool)
    | RecoverDone
    | Prune(stamp: nat)
    | Begin(inode: nat)
    | BacklogLine(dbOk: bool)
    | BacklogAbort
    | BacklogEnd

  datatype RunningStep =
    | TailLine(dbOk: bool)
    | TailReopen(openOk: bool)
    | ManualIngest(i: nat)
    | Rotate(stamp: nat)
    | RotateLine(dbOk: bool, renameOk: bool)
    | RotateAbort(renameOk: bool)
    | RotateEnd
    | Reopen(inode: nat, createOk: bool, openOk: bool)

  datatype Step = Hook(hook: HookStep) | Startup(startup: StartupStep) | Running(running: RunningStep) | Crash

  function Init(): State {
    State(map[], None, map[], map[], [], Down, map[], map[], false, false)
  }

  function LinesOf(s: State, n: nat): seq<Line> { if n in s.files then s.files[n] else [] }

  /** A listing names every segment exactly once. */
  predicate Listing(todo: seq<Seg>, dir: map<Seg, nat>) {
    && (set seg | seg in todo) == dir.Keys
    && (forall i, j :: 0 <= i < j < |todo| ==> todo[i] != todo[j])
  }

  /** The file the recovery is working on. */
  function Current(s: State): nat
    requires s.phase.Recovering? && s.phase.todo != []
  {
    if s.phase.todo[0] in s.dir then s.dir[s.phase.todo[0]] else 0
  }

  predicate HookEnabled(s: State, step: HookStep) {
    match step
    case Open(h, inode) => h !in s.handles && inode !in s.files
    case Write(h, _) => h in s.handles
    case Close(h) => h in s.handles
  }

  predicate StartupEnabled(s: State, step: StartupStep) {
    match step
    case Start(todo) => s.phase.Down? && Listing(todo, s.dir)
    case RecoverOpen => s.phase.Recovering? && s.phase.todo != [] && s.phase.cursor.Closed?
    case RecoverLine(_, _) =>
      s.phase.Recovering? && s.phase.todo != [] && s.phase.cursor.Reading?
      && s.phase.cursor.pos < |LinesOf(s, Current(s))|
    case RecoverAbort(_) => s.phase.Recovering? && s.phase.todo != [] && s.phase.cursor.Reading?
    case RecoverEnd =>
      s.phase.Recovering? && s.phase.todo != [] && s.phase.cursor.Reading?
      && s.phase.cursor.pos == |LinesOf(s, Current(s))|
    case RecoverNext(_) => s.phase.Recovering? && s.phase.todo != [] && s.phase.cursor.AtEnd?
    case RecoverDone => s.phase.Recovering? && s.phase.todo == []
    case Prune(stamp) => s.phase.Pruning? && Seg(stamp, false) in s.dir
    case Begin(inode) => s.phase.Pruning? && inode !in s.files
    case BacklogLine(_) =>
      s.phase.Backlog? && s.events.Some? && s.phase.pos < |LinesOf(s, s.events.value)|
    case BacklogAbort => s.phase.Backlog? && s.events.Some?
    case BacklogEnd =>
      s.phase.Backlog? && s.events.Some? && s.phase.pos == |LinesOf(s, s.events.value)|
  }

  /** The lines read so far amount to the size at which the log is rotated. */
  predicate LogIsFull(lines: seq<Line>, offset: nat) {
    offset <= |lines| && TotalBytes(lines[..offset]) >= EVENTS_LOG_MAX_BYTES
  }

  predicate RunningEnabled(s: State, step: RunningStep) {
    match step
    case TailLine(_) => s.phase.Tailing? && s.phase.offset < |LinesOf(s, s.phase.reader)|
    case TailReopen(_) =>
      s.phase.Tailing? && (s.events != Some(s.phase.reader) || |LinesOf(s, s.phase.reader)| < s.phase.offset)
    case ManualIngest(i) => s.events.Some? && i < |LinesOf(s, s.events.value)|
    case Rotate(stamp) =>
      s.phase.Tailing? && s.events.Some? && Seg(stamp, false) !in s.dir && Seg(stamp, true) !in s.dir
      && LogIsFull(LinesOf(s, s.phase.reader), s.phase.offset)
    case RotateLine(_, _) =>
      s.phase.Rotating? && Seg(s.phase.stamp, false) in s.dir
      && s.phase.pos < |LinesOf(s, s.dir[Seg(s.phase.stamp, false)])|
    case RotateAbort(_) => s.phase.Rotating? && Seg(s.phase.stamp, false) in s.dir
    case RotateEnd =>
      s.phase.Rotating? && Seg(s.phase.stamp, false) in s.dir
      && s.phase.pos == |LinesOf(s, s.dir[Seg(s.phase.stamp, false)])|
    case Reopen(inode, _, _) => s.phase.Reopening? && inode !in s.files
  }

  /** Open with `create`: a missing `events.jsonl` becomes a new empty file. */
  function Created(s: State, inode: nat): State {
    if s.events.Some? then s else s.(files := s.files[inode := []], events := Some(inode))
  }

  /** Ingest `line`; a database error only shows on a decision line. */
  function Ingested(s: State, line: Line, dbOk: bool): State {
    if line.Decision? && !dbOk then s.(importFailed := true)
    else s.(table := IngestLine(s.table, line))
  }

  function Failed(line: Line, dbOk: bool): bool { line.Decision? && !dbOk }

  function MarkedFailed(s: State, stamp: nat): State
    requires Seg(stamp, false) in s.dir
  {
    s.(dir := (s.dir - {Seg(stamp, false)})[Seg(stamp, true) := s.dir[Seg(stamp, false)]])
  }

  function NextTodo(s: State): State
    requires s.phase.Recovering? && s.phase.todo != []
  {
    s.(phase := Recovering(s.phase.todo[1..], Closed))
  }

  /** The lengths of the files on disk. */
  function Lengths(s: State): map<nat, nat> { map n | n in s.files && Linked(s, n) :: |s.files[n]| }

  predicate Linked(s: State, n: nat) { s.events == Some(n) || n in s.dir.Values }

  function Next(s: State, step: Step): State {
    match step
    case Hook(hook) => if HookEnabled(s, hook) then HookNext(s, hook) else s
    case Startup(startup) => if StartupEnabled(s, startup) then StartupNext(s, startup) else s
    case Running(running) => if RunningEnabled(s, running) then RunningNext(s, running) else s
    case Crash => s.(phase := Down)
  }

  function HookNext(s: State, step: HookStep): State
    requires HookEnabled(s, step)
  {
    match step
    case Open(h, inode) =>
      var t := Created(s, inode);
      t.(handles := t.handles[h := t.events.value])
    case Write(h, line) =>
      s.(files := s.files[s.handles[h] := LinesOf(s, s.handles[h]) + [line]])
    case Close(h) => s.(handles := s.handles - {h})
  }

  function StartupNext(s: State, step: StartupStep): State
    requires StartupEnabled(s, step)
  {
    match step
    case Start(todo) => s.(phase := Recovering(todo, Closed), since := Lengths(s), importFailed := false)
    case RecoverOpen => s.(phase := s.phase.(cursor := Reading(0)))
    case RecoverLine(dbOk, renameOk) => RecoveredLine(s, dbOk, renameOk)
    case RecoverAbort(renameOk) => LeftUnread(s.(importFailed := true), renameOk)
    case RecoverEnd => SealedSegment(s)
    case RecoverNext(removeOk) => SegmentDone(s, removeOk)
    case RecoverDone => s.(phase := Pruning)
    case Prune(stamp) => s.(dir := s.dir - {Seg(stamp, false)})
    case Begin(inode) =>
      var t := Created(s, inode);
      t.(phase := Backlog(|LinesOf(t, t.events.value)|, 0))
    case BacklogLine(dbOk) => BackloggedLine(s, LinesOf(s, s.events.value)[s.phase.pos], dbOk)
    case BacklogAbort => s.(importFailed := true, phase := Tailing(s.events.value, s.phase.startLen))
    case BacklogEnd => s.(phase := Tailing(s.events.value, s.phase.startLen))
  }

  function RunningNext(s: State, step: RunningStep): State
    requires RunningEnabled(s, step)
  {
    match step
    case TailLine(dbOk) =>
      var line := LinesOf(s, s.phase.reader)[s.phase.offset];
      Ingested(s, line, dbOk).(phase := Tailing(s.phase.reader, s.phase.offset + 1))
    case TailReopen(openOk) =>
      if openOk && s.events.Some? then s.(phase := Tailing(s.events.value, 0)) else s
    case ManualIngest(i) => s.(table := IngestLine(s.table, LinesOf(s, s.events.value)[i]))
    case Rotate(stamp) => Rotated(s, stamp)
    case RotateLine(dbOk, renameOk) =>
      RotatedLine(s, LinesOf(s, s.dir[Seg(s.phase.stamp, false)])[s.phase.pos], dbOk, renameOk)
    case RotateAbort(renameOk) => RotationFailed(s.(importFailed := true), renameOk)
    case RotateEnd => s.(phase := Reopening(s.phase.oldReader, s.phase.oldOffset))
    case Reopen(inode, createOk, openOk) => Reopened(if createOk then Created(s, inode) else s, openOk)
  }

  /**
   A segment whose import failed. A normal one is renamed to its failed name,
   and startup is abandoned when that fails; a failed one simply stays for the
   next startup.
   */
  function LeftUnread(s: State, renameOk: bool): State
    requires s.phase.Recovering? && s.phase.todo != []
  {
    var seg := s.phase.todo[0];
    if seg.failed || seg !in s.dir then NextTodo(s)
    else if renameOk then NextTodo(MarkedFailed(s, seg.stamp))
    else s.(phase := Down)
  }

  /** One line of a segment during recovery; a database error ends its import. */
  function RecoveredLine(s: State, dbOk: bool, renameOk: bool): State
    requires s.phase.Recovering? && s.phase.todo != [] && s.phase.cursor.Reading?
    requires s.phase.cursor.pos < |LinesOf(s, Current(s))|
  {
    var line := LinesOf(s, Current(s))[s.phase.cursor.pos];
    var t := Ingested(s, line, dbOk);
    if Failed(line, dbOk) then LeftUnread(t, renameOk)
    else t.(phase := s.phase.(cursor := Reading(s.phase.cursor.pos + 1)))
  }

  function BackloggedLine(s: State, line: Line, dbOk: bool): State
    requires s.phase.Backlog? && s.events.Some?
  {
    var t := Ingested(s, line, dbOk);
    if Failed(line, dbOk) then t.(phase := Tailing(s.events.value, s.phase.startLen))
    else t.(phase := Backlog(s.phase.startLen, s.phase.pos + 1))
  }

  /** Rename `events.jsonl` to a segment; handles on it now write to the segment. */
  function Rotated(s: State, stamp: nat): State
    requires s.phase.Tailing? && s.events.Some?
  {
    s.(dir := s.dir[Seg(stamp, false) := s.events.value], events := None,
       phase := Rotating(stamp, 0, s.phase.reader, s.phase.offset))
  }

  function RotationFailed(s: State, renameOk: bool): State
    requires s.phase.Rotating? && Seg(s.phase.stamp, false) in s.dir
  {
    (if renameOk then MarkedFailed(s, s.phase.stamp) else s)
    .(phase := Reopening(s.phase.oldReader, s.phase.oldOffset))
  }

  function RotatedLine(s: State, line: Line, dbOk: bool, renameOk: bool): State
    requires s.phase.Rotating? && Seg(s.phase.stamp, false) in s.dir
  {
    var t := Ingested(s, line, dbOk);
    if Failed(line, dbOk) then RotationFailed(t, renameOk)
    else t.(phase := Rotating(s.phase.stamp, s.phase.pos + 1, s.phase.oldReader, s.phase.oldOffset))
  }

  function Reopened(s: State, openOk: bool): State
    requires s.phase.Reopening?
  {
    if openOk && s.events.Some? then s.(phase := Tailing(s.events.value, 0))
    else s.(phase := Tailing(s.phase.oldReader, s.phase.oldOffset))
  }

  function SealedSegment(s: State): State
    requires s.phase.Recovering? && s.phase.todo != []
  {
    var n := Current(s);
    s.(sealed := s.sealed[n := |LinesOf(s, n)|],
       straggled := s.straggled || n in s.handles.Values,
       phase := s.phase.(cursor := AtEnd))
  }

  /** An imported failed segment is deleted; a normal one stays for the pruner. */
  function SegmentDone(s: State, removeOk: bool): State
    requires s.phase.Recovering? && s.phase.todo != []
  {
    var seg := s.phase.todo[0];
    NextTodo(if seg.failed && removeOk then s.(dir := s.dir - {seg}) else s)
  }

  function Run(s: State, steps: seq<Step>): State {
    if steps == [] then s else Next(Run(s, steps[..|steps| - 1]), steps[|steps| - 1])
  }

  // ---------------------------------------------------------------------
  // The invariant
  // ---------------------------------------------------------------------

  /** The first `count` lines of file `n` are in the table. */
  ghost predicate Imported(s: State, n: nat, count: nat) {
    && count <= |LinesOf(s, n)|
    && forall i :: 0 <= i < count ==> Recorded(s.table, LinesOf(s, n)[i])
  }

  ghost predicate Files(s: State) {
    && (s.events.Some? ==> s.events.value in s.files && s.events.value !in s.dir.Values)
    && (forall seg :: seg in s.dir ==> s.dir[seg] in s.files)
    && (forall seg, seg' :: seg in s.dir && seg' in s.dir && seg.stamp == seg'.stamp ==> seg == seg')
    && (forall h :: h in s.handles ==> s.handles[h] in s.files)
    && (forall n :: n in s.since ==> n in s.files)
  }

  /** Nothing loses its last name before it has been imported. */
  ghost predicate Sealing(s: State) {
    && (forall n :: n in s.sealed ==> n in s.files && s.events != Some(n) && Imported(s, n, s.sealed[n]))
    && (forall n :: n in s.files && !Linked(s, n) ==> n in s.sealed)
  }

  ghost predicate Quiet(s: State) {
    !s.straggled ==> forall n :: n in s.sealed ==> |LinesOf(s, n)| == s.sealed[n] && n !in s.handles.Values
  }

  /** What the startup has imported of the files it found, as long as no insert failed. */
  ghost predicate Covered(s: State, n: nat) { n in s.since && Imported(s, n, s.since[n]) }

  ghost predicate Covers(s: State, n: nat) { !s.importFailed ==> Covered(s, n) }

  ghost predicate RecoveringInv(s: State, todo: seq<Seg>, cursor: Cursor) {
    && (forall i, j :: 0 <= i < j < |todo| ==> todo[i] != todo[j])
    && (forall seg :: seg in todo ==> seg in s.dir)
    && (forall seg :: seg in s.dir && !seg.failed && seg !in todo ==> s.dir[seg] in s.sealed)
    && (forall seg :: seg in s.dir && seg !in todo ==> Covers(s, s.dir[seg]))
    && (forall n :: n in s.since && !Linked(s, n) ==> Covers(s, n))
    && (cursor.Reading? ==> todo != [] && Imported(s, s.dir[todo[0]], cursor.pos))
    && (cursor.AtEnd? ==> todo != [] && s.dir[todo[0]] in s.sealed && Covers(s, s.dir[todo[0]]))
    && (forall seg :: seg in s.dir ==> s.dir[seg] in s.since)
    && (forall n :: n in s.since ==> s.since[n] <= |LinesOf(s, n)|)
  }

  ghost predicate BacklogInv(s: State, startLen: nat, pos: nat) {
    && s.events.Some? && startLen <= |LinesOf(s, s.events.value)|
    && Imported(s, s.events.value, pos)
    && (s.events.value in s.since ==> s.since[s.events.value] <= startLen)
    && (forall n :: n in s.since && s.events != Some(n) ==> Covers(s, n))
  }

  ghost predicate Progress(s: State) {
    match s.phase
    case Down => true
    case Recovering(todo, cursor) => RecoveringInv(s, todo, cursor)
    case Pruning =>
      && (forall seg :: seg in s.dir && !seg.failed ==> s.dir[seg] in s.sealed)
      && (forall n :: n in s.since && s.events != Some(n) ==> Covers(s, n))
      && (forall n :: n in s.since ==> s.since[n] <= |LinesOf(s, n)|)
    case Backlog(startLen, pos) => BacklogInv(s, startLen, pos)
    case Tailing(reader, offset) =>
      && reader in s.files
      && (forall n :: n in s.since ==> Covers(s, n))
      && (!s.importFailed && s.events == Some(reader) ==> Imported(s, reader, offset))
    case Rotating(stamp, pos, reader, offset) =>
      && Seg(stamp, false) in s.dir && Imported(s, s.dir[Seg(stamp, false)], pos)
      && reader in s.files && s.events != Some(reader)
      && (forall n :: n in s.since ==> Covers(s, n))
    case Reopening(reader, offset) =>
      && reader in s.files && s.events != Some(reader)
      && (forall n :: n in s.since ==> Covers(s, n))
  }

  ghost predicate Inv(s: State) {
    Files(s) && NoRepeats(s.table) && Sealing(s) && Quiet(s) && Progress(s)
  }

  // ---------------------------------------------------------------------
  // Preservation
  // ---------------------------------------------------------------------

  /** Files and table only ever grow. */
  ghost predicate Grows(s: State, t: State) {
    && (forall n :: n in s.files ==> n in t.files && s.files[n] <= t.files[n])
    && (forall k :: k in s.table ==> k in t.table)
  }

  lemma ImportedGrows(s: State, t: State, n: nat, count: nat)
    requires Grows(s, t) && Imported(s, n, count)
    ensures Imported(t, n, count)
  {
    assert forall i :: 0 <= i < count ==> LinesOf(t, n)[i] == LinesOf(s, n)[i];
  }

  /** `events.jsonl` is what it was, or has just been created. */
  ghost predicate SameOrNewEvents(s: State, t: State) {
    t.events == s.events || (s.events.None? && t.events.Some? && t.events.value !in s.files)
  }

  lemma CoversGrows(s: State, t: State, n: nat)
    requires Grows(s, t) && t.since == s.since && (s.importFailed ==> t.importFailed) && Covers(s, n)
    ensures Covers(t, n)
  {
    if !t.importFailed { ImportedGrows(s, t, n, s.since[n]); }
  }

  lemma AllGrow(s: State, t: State)
    requires Grows(s, t) && t.since == s.since && (s.importFailed ==> t.importFailed)
    ensures forall n :: Covers(s, n) ==> Covers(t, n)
    ensures forall n, count :: Imported(s, n, count) ==> Imported(t, n, count)
    ensures forall n :: |LinesOf(s, n)| <= |LinesOf(t, n)|
  {
    hide Covers, Imported;
    forall n | Covers(s, n) ensures Covers(t, n) { CoversGrows(s, t, n); }
    forall n, count | Imported(s, n, count) ensures Imported(t, n, count) { ImportedGrows(s, t, n, count); }
  }

  /** Growth outside the daemon's own step leaves its progress intact. */
  lemma ProgressGrows(s: State, t: State)
    requires Files(s) && Progress(s) && Grows(s, t) && SameOrNewEvents(s, t)
    requires t.phase == s.phase && t.dir == s.dir && t.since == s.since && t.sealed == s.sealed
    requires s.importFailed ==> t.importFailed
    ensures Progress(t)
  {
    hide Grows, Covers, Imported, LinesOf;
    AllGrow(s, t);
    NamesKept(s, t);
  }

  lemma NamesKept(s: State, t: State)
    requires Files(s) && Grows(s, t) && SameOrNewEvents(s, t) && t.dir == s.dir
    ensures forall n :: n in s.files ==> n in t.files && (Linked(s, n) <==> Linked(t, n))
  {
  }

  lemma SealingGrows(s: State, t: State)
    requires Files(s) && Sealing(s) && Grows(s, t) && SameOrNewEvents(s, t)
    requires t.dir == s.dir && t.sealed == s.sealed
    requires forall n :: n in t.files ==> n in s.files || t.events == Some(n)
    ensures Sealing(t)
  {
    hide Imported, LinesOf;
    forall n | n in t.sealed ensures n in t.files && t.events != Some(n) && Imported(t, n, t.sealed[n]) {
      ImportedGrows(s, t, n, s.sealed[n]);
    }
    NamesKept(s, t);
  }

  lemma CreatedKeeps(s: State, inode: nat)
    requires Inv(s) && inode !in s.files
    ensures Inv(Created(s, inode)) && Created(s, inode).events.Some?
    ensures Grows(s, Created(s, inode)) && SameOrNewEvents(s, Created(s, inode))
  {
    hide Progress, Imported, Sealing, Quiet;
    if s.events.None? {
      var t := Created(s, inode);
      SealedFiles(s);
      assert inode !in s.dir.Values;
      assert Files(t);
      QuietKept(s, t);
      ProgressGrows(s, t);
      SealingGrows(s, t);
    }
  }

  lemma SealedFiles(s: State)
    requires Sealing(s)
    ensures forall n :: n in s.sealed ==> n in s.files && s.events != Some(n)
  {
  }

  /** A file nobody holds open does not change. */
  lemma QuietKept(s: State, t: State)
    requires Quiet(s) && t.sealed == s.sealed && t.straggled == s.straggled
    requires forall n :: n in s.sealed ==>
               (n !in s.handles.Values ==> LinesOf(t, n) == LinesOf(s, n) && n !in t.handles.Values)
    ensures Quiet(t)
  {
  }

  lemma OpenKeeps(s: State, h: nat, inode: nat)
    requires HookEnabled(s, Open(h, inode)) && Inv(s)
    ensures Inv(HookNext(s, Open(h, inode)))
  {
    hide Progress, Imported, Sealing, Quiet, Created;
    var t := Created(s, inode);
    CreatedKeeps(s, inode);
    var u := t.(handles := t.handles[h := t.events.value]);
    SealedFiles(t);
    assert u.handles.Values <= t.handles.Values + {t.events.value};
    QuietKept(t, u);
    ProgressGrows(t, u);
    SealingGrows(t, u);
  }

  lemma WriteKeeps(s: State, h: nat, line: Line)
    requires HookEnabled(s, Write(h, line)) && Inv(s)
    ensures Inv(HookNext(s, Write(h, line)))
  {
    hide Progress, Imported, Sealing, Quiet;
    var t := HookNext(s, Write(h, line));
    assert s.handles[h] in s.handles.Values;
    QuietKept(s, t);
    assert Grows(s, t);
    ProgressGrows(s, t);
    SealingGrows(s, t);
  }

  lemma CloseKeeps(s: State, h: nat)
    requires HookEnabled(s, Close(h)) && Inv(s)
    ensures Inv(HookNext(s, Close(h)))
  {
    hide Progress, Imported, Sealing, Quiet;
    var t := HookNext(s, Close(h));
    assert t.handles.Values <= s.handles.Values;
    QuietKept(s, t);
    ProgressGrows(s, t);
    SealingGrows(s, t);
  }

  /** Ingesting a line anywhere only grows the table. */
  lemma IngestedKeeps(s: State, line: Line, dbOk: bool)
    requires Inv(s)
    ensures Inv(Ingested(s, line, dbOk)) && Grows(s, Ingested(s, line, dbOk))
    ensures !Failed(line, dbOk) ==> Recorded(Ingested(s, line, dbOk).table, line)
    ensures var t := Ingested(s, line, dbOk);
            t == s.(table := t.table, importFailed := s.importFailed || Failed(line, dbOk))
  {
    hide Progress, Imported, Sealing, Quiet;
    var t := Ingested(s, line, dbOk);
    QuietKept(s, t);
    ProgressGrows(s, t);
    SealingGrows(s, t);
  }

  /** Changing only the phase keeps everything but the progress. */
  lemma PhaseOnly(s: State, t: State)
    requires Inv(s) && t == s.(phase := t.phase) && Progress(t)
    ensures Inv(t)
  {
    hide Progress, Imported;
    QuietKept(s, t);
    SealingGrows(s, t);
  }

  lemma StartKeeps(s: State, todo: seq<Seg>)
    requires Inv(s) && Listing(todo, s.dir)
    ensures Inv(s.(phase := Recovering(todo, Closed), since := Lengths(s), importFailed := false))
  {
    hide Imported;
    var t := s.(phase := Recovering(todo, Closed), since := Lengths(s), importFailed := false);
    assert forall seg :: seg in s.dir ==> seg in (set x | x in todo);
    SealingGrows(s, t);
    QuietKept(s, t);
    assert forall seg :: seg in s.dir ==> s.dir[seg] in s.dir.Values;
  }

  lemma RecoverOpenKeeps(s: State)
    requires s.phase.Recovering? && s.phase.todo != [] && Inv(s)
    ensures Inv(s.(phase := s.phase.(cursor := Reading(0))))
  {
    hide Covers, Sealing, Quiet, Files;
    var t := s.(phase := s.phase.(cursor := Reading(0)));
    AllGrow(s, t);
    PhaseOnly(s, t);
  }

  lemma CurrentFile(s: State)
    requires s.phase.Recovering? && s.phase.todo != [] && Inv(s)
    ensures s.phase.todo[0] in s.dir && Current(s) == s.dir[s.phase.todo[0]] && Current(s) in s.files
    ensures Current(s) in s.dir.Values && s.events != Some(Current(s)) && Linked(s, Current(s))
  {
    hide Imported, Covers, Sealing, Quiet;
    assert s.phase.todo[0] in s.phase.todo;
  }

  /** Reaching the end of a segment seals what has been imported of it. */
  lemma RecoverEndKeeps(s: State)
    requires s.phase.Recovering? && s.phase.todo != [] && s.phase.cursor == Reading(|LinesOf(s, Current(s))|)
    requires Inv(s)
    ensures Inv(SealedSegment(s))
  {
    hide Imported, Sealing, Quiet, Covers;
    CurrentFile(s);
    var n := Current(s);
    var t := SealedSegment(s);
    assert Imported(s, n, |LinesOf(s, n)|);
    SealKeeps(s, t, n);
    AllGrow(s, t);
    SealCovers(s, t, n);
    RecoverEndProgress(s, t, n);
  }

  lemma SealCovers(s: State, t: State, n: nat)
    requires Imported(t, n, |LinesOf(t, n)|) && n in t.since && t.since[n] <= |LinesOf(t, n)|
    ensures Covers(t, n)
  {
    ImportedShorter(t, n, |LinesOf(t, n)|, t.since[n]);
  }

  lemma RecoverEndProgress(s: State, t: State, n: nat)
    requires s.phase.Recovering? && s.phase.todo != [] && s.phase.todo[0] in s.dir
    requires n == s.dir[s.phase.todo[0]] && Progress(s) && Covers(t, n)
    requires t == s.(sealed := s.sealed[n := |LinesOf(s, n)|],
                     straggled := s.straggled || n in s.handles.Values,
                     phase := s.phase.(cursor := AtEnd))
    requires forall m :: Covers(s, m) ==> Covers(t, m)
    ensures Progress(t)
  {
    hide Imported, Covers;
  }

  lemma ImportedShorter(s: State, n: nat, count: nat, shorter: nat)
    requires Imported(s, n, count) && shorter <= count
    ensures Imported(s, n, shorter)
  {
  }

  lemma SealKeeps(s: State, t: State, n: nat)
    requires Files(s) && Sealing(s) && Quiet(s) && n in s.files && s.events != Some(n)
    requires Imported(s, n, |LinesOf(s, n)|)
    requires t == s.(sealed := s.sealed[n := |LinesOf(s, n)|],
                     straggled := s.straggled || n in s.handles.Values, phase := t.phase)
    ensures Sealing(t) && Quiet(t)
  {
    hide Imported, LinesOf, Covers, Covered;
    forall m, count | Imported(s, m, count) ensures Imported(t, m, count) {
      ImportedGrows(s, t, m, count);
    }
    assert LinesOf(t, n) == LinesOf(s, n) by { SameLines(s, t, n); }
    forall m | m in s.sealed ensures LinesOf(t, m) == LinesOf(s, m) { SameLines(s, t, m); }
  }

  lemma SameLines(s: State, t: State, n: nat)
    requires t.files == s.files
    ensures LinesOf(t, n) == LinesOf(s, n)
  {
  }

  /** Moving on from a segment: it is sealed, or it still has its failed name. */
  lemma NextTodoProgress(s: State, t: State)
    requires s.phase.Recovering? && s.phase.todo != [] && RecoveringInv(s, s.phase.todo, s.phase.cursor)
    requires t.phase == Recovering(s.phase.todo[1..], Closed)
    requires forall seg :: seg in t.dir ==> t.dir[seg] in s.dir.Values
    requires forall seg :: seg in s.phase.todo[1..] ==> seg in t.dir
    requires forall seg :: seg in t.dir && !seg.failed && seg !in s.phase.todo[1..] ==> t.dir[seg] in t.sealed
    requires forall seg :: seg in t.dir && seg !in s.phase.todo[1..] ==> Covers(t, t.dir[seg])
    requires forall n :: n in t.since && !Linked(t, n) ==> Covers(t, n)
    requires t.since == s.since && forall n :: |LinesOf(s, n)| <= |LinesOf(t, n)|
    ensures Progress(t)
  {
    hide Imported, Covers, LinesOf;
    forall seg | seg in t.dir ensures t.dir[seg] in t.since {
      var seg' :| seg' in s.dir && s.dir[seg'] == t.dir[seg];
    }
  }

  lemma RemoveName(dir: map<Seg, nat>, seg: Seg)
    requires seg in dir
    ensures forall m :: m in dir.Values && m !in (dir - {seg}).Values ==> m == dir[seg]
    ensures (dir - {seg}).Values <= dir.Values
  {
    forall other | other in dir && other != seg ensures dir[other] in (dir - {seg}).Values {
      assert other in dir - {seg} && (dir - {seg})[other] == dir[other];
    }
  }

  lemma SegmentDoneProgress(s: State, t: State, seg: Seg)
    requires s.phase.Recovering? && s.phase.todo != [] && seg == s.phase.todo[0]
    requires Progress(s) && s.phase.cursor.AtEnd? && seg in s.dir
    requires t.dir == s.dir || t.dir == s.dir - {seg}
    requires t == s.(dir := t.dir, phase := Recovering(s.phase.todo[1..], Closed))
    ensures Progress(t) && s.dir[seg] in s.sealed
  {
    hide Imported, Covers, LinesOf;
    assert s.phase.todo == [seg] + s.phase.todo[1..];
    AllGrow(s, t);
    RemoveName(s.dir, seg);
    forall x | x in t.dir ensures t.dir[x] in s.dir.Values {}
    NextTodoProgress(s, t);
  }

  lemma RecoverNextKeeps(s: State, removeOk: bool)
    requires s.phase.Recovering? && s.phase.todo != [] && s.phase.cursor.AtEnd? && Inv(s)
    ensures Inv(SegmentDone(s, removeOk))
  {
    hide Imported, Covers, LinesOf, Sealing, Quiet, Linked, Progress, Files;
    CurrentFile(s);
    var seg := s.phase.todo[0];
    var t := SegmentDone(s, removeOk);
    SegmentDoneProgress(s, t, seg);
    SegmentDoneNames(s, t, seg);
    RemovedKeeps(s, t);
  }

  lemma SegmentDoneNames(s: State, t: State, seg: Seg)
    requires Sealing(s) && t.files == s.files && t.events == s.events
    requires t.dir == s.dir || t.dir == s.dir - {seg}
    requires seg in s.dir && s.dir[seg] in s.sealed
    ensures forall m :: m in s.files && !Linked(t, m) ==> m in s.sealed
  {
    hide Imported;
    RemoveName(s.dir, seg);
  }

  /** Removing a name whose file is sealed. */
  lemma RemovedKeeps(s: State, t: State)
    requires Files(s) && Sealing(s) && Quiet(s)
    requires t == s.(dir := t.dir, phase := t.phase)
    requires forall seg :: seg in t.dir ==> seg in s.dir && t.dir[seg] == s.dir[seg]
    requires forall m :: m in s.files && !Linked(t, m) ==> m in t.sealed
    ensures Files(t) && Sealing(t) && Quiet(t)
  {
    hide Imported;
    QuietKept(s, t);
    forall m | m in s.sealed ensures Imported(t, m, s.sealed[m]) {
      ImportedGrows(s, t, m, s.sealed[m]);
    }
    assert t.dir.Values <= s.dir.Values;
  }

  /** A renamed segment keeps its file. */
  lemma MarkedFailedKeeps(s: State, stamp: nat)
    requires Files(s) && Sealing(s) && Quiet(s) && Seg(stamp, false) in s.dir
    ensures Files(MarkedFailed(s, stamp)) && Sealing(MarkedFailed(s, stamp)) && Quiet(MarkedFailed(s, stamp))
    ensures forall n :: Linked(MarkedFailed(s, stamp), n) <==> Linked(s, n)
    ensures forall seg :: seg in MarkedFailed(s, stamp).dir ==> MarkedFailed(s, stamp).dir[seg] in s.dir.Values
  {
    hide Imported;
    var t := MarkedFailed(s, stamp);
    RenameValues(s.dir, stamp);
    QuietKept(s, t);
    forall m | m in s.sealed ensures Imported(t, m, s.sealed[m]) {
      ImportedGrows(s, t, m, s.sealed[m]);
    }
  }

  lemma RenameValues(dir: map<Seg, nat>, stamp: nat)
    requires Seg(stamp, false) in dir
    requires forall seg, seg' :: seg in dir && seg' in dir && seg.stamp == seg'.stamp ==> seg == seg'
    ensures (dir - {Seg(stamp, false)})[Seg(stamp, true) := dir[Seg(stamp, false)]].Values == dir.Values
  {
    var renamed := (dir - {Seg(stamp, false)})[Seg(stamp, true) := dir[Seg(stamp, false)]];
    forall seg | seg in dir ensures dir[seg] in renamed.Values {
      if seg == Seg(stamp, false) {
        assert renamed[Seg(stamp, true)] == dir[seg];
      } else {
        assert renamed[seg] == dir[seg];
      }
    }
    forall seg | seg in renamed ensures renamed[seg] in dir.Values {
      if seg == Seg(stamp, true) { assert renamed[seg] == dir[Seg(stamp, false)]; }
    }
  }

  lemma NextLine(s: State, n: nat, pos: nat)
    requires Imported(s, n, pos) && pos < |LinesOf(s, n)| && Recorded(s.table, LinesOf(s, n)[pos])
    ensures Imported(s, n, pos + 1)
  {
  }

  lemma RecoverLineKeeps(s: State, dbOk: bool, renameOk: bool)
    requires s.phase.Recovering? && s.phase.todo != [] && s.phase.cursor.Reading?
    requires s.phase.cursor.pos < |LinesOf(s, Current(s))| && Inv(s)
    ensures Inv(RecoveredLine(s, dbOk, renameOk))
  {
    hide Inv;
    CurrentFile(s);
    var line := LinesOf(s, Current(s))[s.phase.cursor.pos];
    var t := Ingested(s, line, dbOk);
    IngestedKeeps(s, line, dbOk);
    if Failed(line, dbOk) { LeftUnreadKeeps(t, renameOk); } else { RecoverLineOk(s, t); }
  }

  lemma LeftUnreadKeeps(s: State, renameOk: bool)
    requires s.phase.Recovering? && s.phase.todo != [] && s.phase.cursor.Reading? && Inv(s) && s.importFailed
    ensures Inv(LeftUnread(s, renameOk))
  {
    hide Inv;
    CurrentFile(s);
    if s.phase.todo[0].failed {
      RecoverLineFailed(s, s);
    } else if renameOk {
      RecoverLineFailed(s, MarkedFailed(s, s.phase.todo[0].stamp));
    } else {
      DownKeeps(s);
    }
  }

  /** Noting that an import failed only weakens what has been promised. */
  lemma FailureNoted(s: State)
    requires Inv(s)
    ensures Inv(s.(importFailed := true))
  {
    hide Progress, Imported, Sealing, Quiet;
    var t := s.(importFailed := true);
    QuietKept(s, t);
    ProgressGrows(s, t);
    SealingGrows(s, t);
  }

  lemma DownKeeps(s: State)
    requires Inv(s)
    ensures Inv(s.(phase := Down))
  {
    hide Imported, Sealing, Quiet, Files;
    PhaseOnly(s, s.(phase := Down));
  }

  lemma RecoverLineOk(s: State, t: State)
    requires s.phase.Recovering? && s.phase.todo != [] && s.phase.cursor.Reading?
    requires s.phase.cursor.pos < |LinesOf(s, Current(s))| && Inv(s) && Inv(t)
    requires t == s.(table := t.table)
    requires Recorded(t.table, LinesOf(s, Current(s))[s.phase.cursor.pos])
    ensures Inv(t.(phase := s.phase.(cursor := Reading(s.phase.cursor.pos + 1))))
  {
    hide Covers, Sealing, Quiet, Files;
    CurrentFile(s);
    var u := t.(phase := s.phase.(cursor := Reading(s.phase.cursor.pos + 1)));
    NextLine(t, Current(s), s.phase.cursor.pos);
    AllGrow(t, u);
    PhaseOnly(t, u);
  }

  /** `t` is `s` with the current segment's failed name in place. */
  lemma RecoverLineFailed(s: State, t: State)
    requires s.phase.Recovering? && s.phase.todo != [] && s.phase.cursor.Reading?
    requires Inv(s) && s.importFailed
    requires (t == s && s.phase.todo[0].failed)
             || (Seg(s.phase.todo[0].stamp, false) in s.dir && !s.phase.todo[0].failed
                 && t == MarkedFailed(s, s.phase.todo[0].stamp))
    ensures Inv(NextTodo(t))
  {
    hide Imported, LinesOf, Sealing, Quiet, Files, Progress;
    if t != s { MarkedFailedKeeps(s, s.phase.todo[0].stamp); }
    LeftFailed(s, t);
    NamesOnly(t, NextTodo(t));
  }

  lemma LeftFailed(s: State, t: State)
    requires s.phase.Recovering? && s.phase.todo != [] && s.phase.cursor.Reading?
    requires Files(s) && Progress(s) && s.importFailed
    requires (t == s && s.phase.todo[0].failed)
             || (Seg(s.phase.todo[0].stamp, false) in s.dir && !s.phase.todo[0].failed
                 && t == MarkedFailed(s, s.phase.todo[0].stamp))
    ensures Progress(NextTodo(t))
  {
    hide Imported, LinesOf, Covers, NextTodo;
    var u := NextTodo(t);
    NextTodoFields(t);
    FailedCovers(u);
    forall n ensures |LinesOf(s, n)| <= |LinesOf(u, n)| { SameLines(s, u, n); }
    LeftNames(s.dir, t.dir, s.phase.todo);
    NextTodoProgress(s, u);
  }

  lemma NextTodoFields(s: State)
    requires s.phase.Recovering? && s.phase.todo != []
    ensures NextTodo(s) == s.(phase := Recovering(s.phase.todo[1..], Closed))
  {
  }

  lemma LeftNames(dir: map<Seg, nat>, left: map<Seg, nat>, todo: seq<Seg>)
    requires todo != [] && todo[0] in dir
    requires forall seg, seg' :: seg in dir && seg' in dir && seg.stamp == seg'.stamp ==> seg == seg'
    requires forall i, j :: 0 <= i < j < |todo| ==> todo[i] != todo[j]
    requires forall seg :: seg in todo ==> seg in dir
    requires (left == dir && todo[0].failed)
             || (!todo[0].failed
                 && left == (dir - {todo[0]})[Seg(todo[0].stamp, true) := dir[todo[0]]])
    ensures left.Values == dir.Values
    ensures forall seg :: seg in left ==> left[seg] in dir.Values
    ensures forall seg :: seg in todo[1..] ==> seg in left
    ensures forall seg :: seg in left && !seg.failed && seg !in todo[1..]
              ==> seg in dir && seg !in todo && left[seg] == dir[seg]
  {
    assert todo == [todo[0]] + todo[1..];
    if left != dir { RenameValues(dir, todo[0].stamp); }
    forall seg | seg in left ensures left[seg] in dir.Values { assert left[seg] in left.Values; }
  }

  lemma NamesOnly(s: State, t: State)
    requires Files(s) && Sealing(s) && Quiet(s) && t == s.(phase := t.phase)
    ensures Files(t) && Sealing(t) && Quiet(t)
  {
    hide Imported;
    QuietKept(s, t);
    SealingGrows(s, t);
  }

  /** Recovery done: every normal segment left is sealed, so the pruner may take any of them. */
  lemma RecoverDoneKeeps(s: State)
    requires s.phase.Recovering? && s.phase.todo == [] && Inv(s)
    ensures Inv(s.(phase := Pruning))
  {
    hide Imported, Covers, Sealing, Quiet;
    var t := s.(phase := Pruning);
    AllGrow(s, t);
    forall n | n in s.since && s.events != Some(n) ensures Covers(s, n) {
      if Linked(s, n) {
        var seg :| seg in s.dir && s.dir[seg] == n;
      }
    }
    PhaseOnly(s, t);
  }

  lemma PruneKeeps(s: State, stamp: nat)
    requires s.phase.Pruning? && Seg(stamp, false) in s.dir && Inv(s)
    ensures Inv(s.(dir := s.dir - {Seg(stamp, false)}))
  {
    hide Imported, Covers, Quiet;
    var t := s.(dir := s.dir - {Seg(stamp, false)});
    SegmentDoneNames(s, t, Seg(stamp, false));
    RemovedKeeps(s, t);
    AllGrow(s, t);
  }

  /** The length is read before the backlog is, so no line falls between the two. */
  lemma BeginKeeps(s: State, inode: nat)
    requires s.phase.Pruning? && inode !in s.files && Inv(s)
    ensures Created(s, inode).events.Some?
    ensures Inv(Created(s, inode).(phase :=
              Backlog(|LinesOf(Created(s, inode), Created(s, inode).events.value)|, 0)))
  {
    hide Covers, Sealing, Quiet, Created;
    CreatedKeeps(s, inode);
    CreatedPhase(s, inode);
    var t := Created(s, inode);
    var u := t.(phase := Backlog(|LinesOf(t, t.events.value)|, 0));
    AllGrow(t, u);
    PhaseOnly(t, u);
  }

  lemma CreatedPhase(s: State, inode: nat)
    ensures Created(s, inode).phase == s.phase
  {
  }

  lemma FailedCovers(s: State)
    requires s.importFailed
    ensures forall n :: Covers(s, n)
  {
  }

  lemma BacklogLineKeeps(s: State, dbOk: bool)
    requires s.phase.Backlog? && s.events.Some? && s.phase.pos < |LinesOf(s, s.events.value)| && Inv(s)
    ensures Inv(BackloggedLine(s, LinesOf(s, s.events.value)[s.phase.pos], dbOk))
  {
    hide Inv, LinesOf, Ingested, IngestLine, Recorded;
    var n := s.events.value;
    var line := LinesOf(s, n)[s.phase.pos];
    var t := Ingested(s, line, dbOk);
    IngestedKeeps(s, line, dbOk);
    SameLines(s, t, n);
    if Failed(line, dbOk) { BacklogAbandoned(t); } else { BacklogAdvances(t); }
  }

  lemma BacklogAdvances(s: State)
    requires s.phase.Backlog? && s.events.Some? && s.phase.pos < |LinesOf(s, s.events.value)| && Inv(s)
    requires Recorded(s.table, LinesOf(s, s.events.value)[s.phase.pos])
    ensures Inv(s.(phase := Backlog(s.phase.startLen, s.phase.pos + 1)))
  {
    hide Sealing, Quiet, LinesOf, Files, Imported, Covers;
    var t := s.(phase := Backlog(s.phase.startLen, s.phase.pos + 1));
    NextLine(s, s.events.value, s.phase.pos);
    AllGrow(s, t);
    PhaseOnly(s, t);
  }

  lemma BacklogAbandoned(s: State)
    requires s.phase.Backlog? && s.events.Some? && Inv(s) && s.importFailed
    ensures Inv(s.(phase := Tailing(s.events.value, s.phase.startLen)))
  {
    hide Sealing, Quiet, LinesOf, Imported, Covers, BacklogInv;
    var t := s.(phase := Tailing(s.events.value, s.phase.startLen));
    FailedCovers(t);
    PhaseOnly(s, t);
  }

  lemma BacklogEndKeeps(s: State)
    requires s.phase.Backlog? && s.events.Some? && s.phase.pos == |LinesOf(s, s.events.value)| && Inv(s)
    ensures Inv(s.(phase := Tailing(s.events.value, s.phase.startLen)))
  {
    hide Sealing, Quiet, LinesOf;
    var t := s.(phase := Tailing(s.events.value, s.phase.startLen));
    AllGrow(s, t);
    PhaseOnly(s, t);
  }

  lemma TailLineKeeps(s: State, dbOk: bool)
    requires s.phase.Tailing? && s.phase.offset < |LinesOf(s, s.phase.reader)| && Inv(s)
    ensures Inv(Ingested(s, LinesOf(s, s.phase.reader)[s.phase.offset], dbOk)
                .(phase := Tailing(s.phase.reader, s.phase.offset + 1)))
  {
    hide Inv, LinesOf, Ingested, IngestLine, Recorded;
    var n := s.phase.reader;
    var line := LinesOf(s, n)[s.phase.offset];
    var t := Ingested(s, line, dbOk);
    IngestedKeeps(s, line, dbOk);
    SameLines(s, t, n);
    TailAdvances(t);
  }

  lemma TailAdvances(s: State)
    requires s.phase.Tailing? && s.phase.offset < |LinesOf(s, s.phase.reader)| && Inv(s)
    requires !s.importFailed ==> Recorded(s.table, LinesOf(s, s.phase.reader)[s.phase.offset])
    ensures Inv(s.(phase := Tailing(s.phase.reader, s.phase.offset + 1)))
  {
    hide Sealing, Quiet, LinesOf, Files, Imported, Covers;
    var t := s.(phase := Tailing(s.phase.reader, s.phase.offset + 1));
    if !s.importFailed && s.events == Some(s.phase.reader) { NextLine(s, s.phase.reader, s.phase.offset); }
    AllGrow(s, t);
    PhaseOnly(s, t);
  }

  lemma TailReopenKeeps(s: State)
    requires s.phase.Tailing? && s.events.Some? && Inv(s)
    ensures Inv(s.(phase := Tailing(s.events.value, 0)))
  {
    hide Sealing, Quiet, Covers;
    var t := s.(phase := Tailing(s.events.value, 0));
    AllGrow(s, t);
    PhaseOnly(s, t);
  }

  lemma RotateKeeps(s: State, stamp: nat)
    requires RunningEnabled(s, Rotate(stamp)) && Inv(s)
    ensures Inv(Rotated(s, stamp))
  {
    hide Imported, Covers, Quiet, Sealing, Progress;
    var t := Rotated(s, stamp);
    RotateValues(s.dir, Seg(stamp, false), s.events.value);
    QuietKept(s, t);
    RotateSealing(s, t);
    RotateProgress(s, t);
  }

  lemma RotateSealing(s: State, t: State)
    requires Sealing(s) && s.events.Some? && t.events.None? && t.files == s.files
    requires t.sealed == s.sealed && t.table == s.table && t.dir.Values == s.dir.Values + {s.events.value}
    ensures Sealing(t)
  {
    hide Imported;
    forall m | m in s.sealed ensures Imported(t, m, s.sealed[m]) {
      ImportedGrows(s, t, m, s.sealed[m]);
    }
  }

  lemma RotateProgress(s: State, t: State)
    requires s.phase.Tailing? && s.events.Some? && Progress(s) && t.phase.Rotating?
    requires t == Rotated(s, t.phase.stamp)
    ensures Progress(t)
  {
    hide Imported, Covers;
    AllGrow(s, t);
    NothingImported(t, s.events.value);
  }

  lemma NothingImported(s: State, n: nat)
    ensures Imported(s, n, 0)
  {
  }

  lemma RotateValues(dir: map<Seg, nat>, seg: Seg, n: nat)
    requires seg !in dir
    ensures dir[seg := n].Values == dir.Values + {n}
  {
    forall x | x in dir ensures dir[x] in dir[seg := n].Values { assert dir[seg := n][x] == dir[x]; }
    assert dir[seg := n][seg] == n;
  }

  lemma RotateLineKeeps(s: State, dbOk: bool, renameOk: bool)
    requires s.phase.Rotating? && Seg(s.phase.stamp, false) in s.dir
    requires s.phase.pos < |LinesOf(s, s.dir[Seg(s.phase.stamp, false)])| && Inv(s)
    ensures Inv(RotatedLine(s, LinesOf(s, s.dir[Seg(s.phase.stamp, false)])[s.phase.pos], dbOk, renameOk))
  {
    hide Inv, LinesOf, Ingested, IngestLine, Recorded;
    var n := s.dir[Seg(s.phase.stamp, false)];
    var line := LinesOf(s, n)[s.phase.pos];
    var t := Ingested(s, line, dbOk);
    IngestedKeeps(s, line, dbOk);
    SameLines(s, t, n);
    if Failed(line, dbOk) { RotationFailedKeeps(t, renameOk); } else { RotateAdvances(t); }
  }

  lemma RotationFailedKeeps(s: State, renameOk: bool)
    requires s.phase.Rotating? && Seg(s.phase.stamp, false) in s.dir && Inv(s) && s.importFailed
    ensures Inv(RotationFailed(s, renameOk))
  {
    hide Inv;
    if renameOk { RotateMarked(s); } else { RotateEndKeeps(s); }
  }

  lemma RotateAdvances(s: State)
    requires s.phase.Rotating? && Seg(s.phase.stamp, false) in s.dir
    requires s.phase.pos < |LinesOf(s, s.dir[Seg(s.phase.stamp, false)])| && Inv(s)
    requires Recorded(s.table, LinesOf(s, s.dir[Seg(s.phase.stamp, false)])[s.phase.pos])
    ensures Inv(s.(phase := Rotating(s.phase.stamp, s.phase.pos + 1, s.phase.oldReader, s.phase.oldOffset)))
  {
    hide Sealing, Quiet, LinesOf, Files, Imported, Covers;
    var t := s.(phase := Rotating(s.phase.stamp, s.phase.pos + 1, s.phase.oldReader, s.phase.oldOffset));
    NextLine(s, s.dir[Seg(s.phase.stamp, false)], s.phase.pos);
    AllGrow(s, t);
    PhaseOnly(s, t);
  }

  lemma RotateMarked(s: State)
    requires s.phase.Rotating? && Seg(s.phase.stamp, false) in s.dir && Inv(s) && s.importFailed
    ensures Inv(MarkedFailed(s, s.phase.stamp).(phase := Reopening(s.phase.oldReader, s.phase.oldOffset)))
  {
    hide Sealing, Quiet, Files, Imported, Covers;
    var t := MarkedFailed(s, s.phase.stamp);
    var u := t.(phase := Reopening(s.phase.oldReader, s.phase.oldOffset));
    MarkedFailedKeeps(s, s.phase.stamp);
    NamesOnly(t, u);
    FailedCovers(u);
  }

  lemma ReopenKeeps(s: State, openOk: bool)
    requires s.phase.Reopening? && Inv(s)
    ensures Inv(Reopened(s, openOk))
  {
    hide Sealing, Quiet, Covers;
    var t := Reopened(s, openOk);
    AllGrow(s, t);
    PhaseOnly(s, t);
  }

  lemma HookKeeps(s: State, step: HookStep)
    requires HookEnabled(s, step) && Inv(s)
    ensures Inv(HookNext(s, step))
  {
    hide Inv;
    match step
    case Open(h, inode) => OpenKeeps(s, h, inode);
    case Write(h, line) => WriteKeeps(s, h, line);
    case Close(h) => CloseKeeps(s, h);
  }

  lemma StartupKeeps(s: State, step: StartupStep)
    requires StartupEnabled(s, step) && Inv(s)
    ensures Inv(StartupNext(s, step))
  {
    hide Inv, Created, Ingested, RecoveredLine, LeftUnread, SealedSegment, SegmentDone, BackloggedLine, Lengths;
    match step
    case Start(todo) => StartKeeps(s, todo);
    case RecoverOpen => RecoverOpenKeeps(s);
    case RecoverLine(dbOk, renameOk) => RecoverLineKeeps(s, dbOk, renameOk);
    case RecoverAbort(renameOk) => {
      FailureNoted(s);
      LeftUnreadKeeps(s.(importFailed := true), renameOk);
    }
    case RecoverEnd => RecoverEndKeeps(s);
    case RecoverNext(removeOk) => RecoverNextKeeps(s, removeOk);
    case RecoverDone => RecoverDoneKeeps(s);
    case Prune(stamp) => PruneKeeps(s, stamp);
    case Begin(inode) => BeginKeeps(s, inode);
    case BacklogLine(dbOk) => BacklogLineKeeps(s, dbOk);
    case BacklogAbort => {
      FailureNoted(s);
      BacklogAbandoned(s.(importFailed := true));
    }
    case BacklogEnd => BacklogEndKeeps(s);
  }

  lemma RunningKeeps(s: State, step: RunningStep)
    requires RunningEnabled(s, step) && Inv(s)
    ensures Inv(RunningNext(s, step))
  {
    hide Inv, Created, Ingested, Rotated, RotatedLine, RotationFailed, Reopened, LogIsFull;
    match step
    case TailLine(dbOk) => TailLineKeeps(s, dbOk);
    case TailReopen(openOk) => if openOk && s.events.Some? { TailReopenKeeps(s); }
    case ManualIngest(i) => ManualKeeps(s, LinesOf(s, s.events.value)[i]);
    case Rotate(stamp) => RotateKeeps(s, stamp);
    case RotateLine(dbOk, renameOk) => RotateLineKeeps(s, dbOk, renameOk);
    case RotateAbort(renameOk) => {
      FailureNoted(s);
      RotationFailedKeeps(s.(importFailed := true), renameOk);
    }
    case RotateEnd => RotateEndKeeps(s);
    case Reopen(inode, createOk, openOk) =>
      if createOk {
        CreatedKeeps(s, inode);
        CreatedPhase(s, inode);
        ReopenKeeps(Created(s, inode), openOk);
      } else {
        ReopenKeeps(s, openOk);
      }
  }

  /** Every step keeps the invariant. */
  lemma NextKeeps(s: State, step: Step)
    requires Inv(s)
    ensures Inv(Next(s, step))
  {
    hide Inv, HookNext, StartupNext, RunningNext;
    match step
    case Hook(hook) => if HookEnabled(s, hook) { HookKeeps(s, hook); }
    case Startup(startup) => if StartupEnabled(s, startup) { StartupKeeps(s, startup); }
    case Running(running) => if RunningEnabled(s, running) { RunningKeeps(s, running); }
    case Crash => DownKeeps(s);
  }

  lemma ManualKeeps(s: State, line: Line)
    requires Inv(s)
    ensures Inv(s.(table := IngestLine(s.table, line)))
  {
    hide Inv;
    IngestedKeeps(s, line, true);
  }

  lemma RotateEndKeeps(s: State)
    requires s.phase.Rotating? && Inv(s)
    ensures Inv(s.(phase := Reopening(s.phase.oldReader, s.phase.oldOffset)))
  {
    hide Sealing, Quiet, Covers, Files;
    var t := s.(phase := Reopening(s.phase.oldReader, s.phase.oldOffset));
    AllGrow(s, t);
    PhaseOnly(s, t);
  }

  lemma {:induction false} RunKeeps(steps: seq<Step>)
    ensures Inv(Run(Init(), steps))
  {
    if steps != [] {
      RunKeeps(steps[..|steps| - 1]);
      NextKeeps(Run(Init(), steps[..|steps| - 1]), steps[|steps| - 1]);
    }
  }
}
