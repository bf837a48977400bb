/**
 Interleavings of the terminal session's threads, and what every one of them
 keeps. A step that is not enabled leaves the state alone, so a run is any
 finite sequence of steps.
 */
module TerminalProtocol {
  import opened Lists
  import opened Terminal

  datatype Phase =
    | Waiting
    | Settled(timedOut: bool)
    | Live(timedOut: bool, served: bool, seed: seq<Frame>)

  datatype Viewer = Viewer(
    boundary: nat, snapshot: Screen, settle: nat, cursor: nat, lagged: bool,
    accepted: seq<Frame>, phase: Phase)

  datatype Batch = NoBatch | Collected(fs: seq<Frame>) | Inserted(fs: seq<Frame>)

  /**
   `base`, `seedScreen` and `prior` describe the start of the epoch; `frames`
   is the history of frames assigned in it, `settled` the output frames whose
   insertion has been decided and `lost` those whose insertion failed.
   `unsent` holds the frames assigned but not yet broadcast and `commands` the
   input and resize frames whose own insert is still to come.
   */
  datatype State = State(
    core: Core, base: nat, seedScreen: Screen, prior: seq<Frame>, frames: seq<Frame>,
    unsent: set<nat>, commands: set<nat>, reader: Option<nat>,
    queue: seq<Frame>, batch: Batch, settled: seq<Frame>, lost: set<nat>,
    rows: map<nat, Frame>, viewers: map<nat, Viewer>, cap: nat)

  datatype Step =
    | OutputAssign(bytes: Bytes)
    | OutputSend
    | OutputEnqueue
    | CommandAssign(body: Body)
    | CommandSend(no: nat)
    | CommandPersist(no: nat, ok: bool)
    | BatchTake(count: nat)
    | BatchInsert(ok: bool)
    | BatchNote
    | Attach(v: nat)
    | Settle(v: nat, timedOut: bool)
    | ReadSeed(v: nat, served: bool)
    | Receive(v: nat)
    | Detach(v: nat)
    | Respawn(banner: Bytes, seedOk: bool, bannerOk: bool)

  function Init(cap: nat): State {
    State(Core([], 0, 0, 0, []), 0, [], [], [], {}, {}, None, [], NoBatch, [], {}, map[], map[], cap)
  }

  /** The frame numbered `no` in this epoch. */
  function FrameAt(s: State, no: nat): Frame {
    if Assigned(s.base, s.frames, no) then s.frames[no - s.base] else Frame(no, Input([]))
  }

  predicate Assigned(base: nat, frames: seq<Frame>, no: nat) { base <= no < base + |frames| }

  function InsertOrIgnore(rows: map<nat, Frame>, f: Frame): map<nat, Frame> {
    if f.no in rows then rows else rows[f.no := f]
  }

  function InsertAll(rows: map<nat, Frame>, fs: seq<Frame>): map<nat, Frame> {
    if fs == [] then rows else InsertOrIgnore(InsertAll(rows, fs[..|fs| - 1]), fs[|fs| - 1])
  }

  function Numbers(fs: seq<Frame>): set<nat> { set f | f in fs :: f.no }

  /** One past the greatest stored sequence number. */
  function NextSeq(rows: map<nat, Frame>): (n: nat)
    ensures forall q :: q in rows ==> q < n
    ensures n == 0 || n - 1 in rows
    decreases |rows|
  {
    if rows == map[] then 0 else GreatestKey(rows.Keys) + 1
  }

  ghost predicate IsGreatest(keys: set<nat>, k: nat) { k in keys && forall q :: q in keys ==> q <= k }

  lemma {:induction false} GreatestExists(keys: set<nat>)
    requires keys != {}
    ensures exists k :: IsGreatest(keys, k)
    decreases |keys|
  {
    var k :| k in keys;
    if keys == {k} {
      assert IsGreatest(keys, k);
    } else {
      GreatestExists(keys - {k});
      var m :| IsGreatest(keys - {k}, m);
      assert forall q :: q in keys ==> q == k || q in keys - {k};
      assert IsGreatest(keys, if m < k then k else m);
    }
  }

  function GreatestKey(keys: set<nat>): (k: nat)
    requires keys != {}
    ensures k in keys && forall q :: q in keys ==> q <= k
  {
    GreatestExists(keys);
    var k :| k in keys && forall q :: q in keys ==> q <= k;
    k
  }

  function UpdateViewer(s: State, v: nat, viewer: Viewer): State {
    s.(viewers := s.viewers[v := viewer])
  }

  predicate Enabled(s: State, step: Step) {
    match step
    case OutputAssign(bytes) => s.reader.None? && 0 < |bytes| <= CHUNK_BYTES
    case OutputSend => s.reader.Some? && s.reader.value in s.unsent
    case OutputEnqueue => s.reader.Some? && s.reader.value !in s.unsent
    case CommandAssign(body) =>
      body.Input? || (body.Resize? && 0 < body.cols <= MAX_COLS && 0 < body.rows <= MAX_ROWS)
    case CommandSend(no) => no in s.commands && no in s.unsent
    case CommandPersist(no, _) => no in s.commands && no !in s.unsent
    case BatchTake(count) => s.batch.NoBatch? && 0 < count <= |s.queue| && count <= BATCH_MAX
    case BatchInsert(_) => s.batch.Collected?
    case BatchNote => s.batch.Inserted?
    case Attach(v) => v !in s.viewers
    case Settle(v, timedOut) =>
      v in s.viewers && s.viewers[v].phase.Waiting?
      && (timedOut || s.viewers[v].settle == 0 || s.viewers[v].settle <= s.core.persisted)
    case ReadSeed(v, _) => v in s.viewers && s.viewers[v].phase.Settled?
    case Receive(v) =>
      v in s.viewers && s.viewers[v].phase.Live? && !s.viewers[v].lagged
      && s.viewers[v].cursor < |s.core.sent|
    case Detach(v) => v in s.viewers
    case Respawn(_, _, _) => true
  }

  function Next(s: State, step: Step): State {
    if !Enabled(s, step) then s else
    match step
    case OutputAssign(bytes) => OutputAssigned(s, bytes)
    case OutputSend => Sent(s, s.reader.value)
    case OutputEnqueue => Enqueued(s)
    case CommandAssign(body) => CommandAssigned(s, body)
    case CommandSend(no) => Sent(s, no)
    case CommandPersist(no, ok) => CommandPersisted(s, no, ok)
    case BatchTake(count) => s.(batch := Collected(s.queue[..count]), queue := s.queue[count..])
    case BatchInsert(ok) => if ok then BatchInserted(s) else BatchFailed(s)
    case BatchNote => BatchNoted(s)
    case Attach(v) =>
      UpdateViewer(s, v, Viewer(s.core.next, s.core.screen, s.core.highWater, |s.core.sent|,
                                false, [], Waiting))
    case Settle(v, timedOut) =>
      UpdateViewer(s, v, s.viewers[v].(phase := Settled(timedOut)))
    case ReadSeed(v, served) =>
      var viewer := s.viewers[v];
      var seed := if served then Seed(OutputRows(s.rows, viewer.boundary), s.cap) else [];
      UpdateViewer(s, v, viewer.(phase := Live(viewer.phase.timedOut, served, seed)))
    case Receive(v) => UpdateViewer(s, v, Received(s.viewers[v], s.core.sent))
    case Detach(v) => s.(viewers := s.viewers - {v})
    case Respawn(banner, seedOk, bannerOk) => Respawned(s, banner, seedOk, bannerOk)
  }

  function OutputAssigned(s: State, bytes: Bytes): State {
    var f := Frame(s.core.next, Output(bytes));
    s.(core := AssignOutput(s.core, bytes), frames := s.frames + [f],
       unsent := s.unsent + {f.no}, reader := Some(f.no))
  }

  function CommandAssigned(s: State, body: Body): State {
    var f := Frame(s.core.next, body);
    s.(core := AssignCommand(s.core, body), frames := s.frames + [f],
       unsent := s.unsent + {f.no}, commands := s.commands + {f.no})
  }

  function Sent(s: State, no: nat): State {
    s.(core := Publish(s.core, FrameAt(s, no)), unsent := s.unsent - {no})
  }

  function Enqueued(s: State): State {
    s.(queue := s.queue + ReaderFrames(s), reader := None)
  }

  function CommandPersisted(s: State, no: nat, ok: bool): State {
    s.(commands := s.commands - {no},
       rows := if ok then InsertOrIgnore(s.rows, FrameAt(s, no)) else s.rows)
  }

  function BatchInserted(s: State): State
    requires s.batch.Collected?
  {
    s.(rows := InsertAll(s.rows, s.batch.fs), batch := Inserted(s.batch.fs))
  }

  /** A failed batch is dropped; nothing retries it. */
  function BatchFailed(s: State): State
    requires s.batch.Collected?
  {
    s.(lost := s.lost + Numbers(s.batch.fs), settled := s.settled + s.batch.fs, batch := NoBatch)
  }

  function BatchNoted(s: State): State
    requires s.batch.Inserted?
  {
    s.(core := s.core.(persisted := NotedWatermark(s.core.persisted, s.batch.fs)),
       settled := s.settled + s.batch.fs, batch := NoBatch)
  }

  /** One `recv` of the forwarder: a lagged receiver stops, a stale frame is dropped. */
  function Received(viewer: Viewer, sent: seq<Frame>): Viewer
    requires viewer.cursor < |sent|
  {
    if |sent| - viewer.cursor > CHANNEL_CAPACITY then viewer.(lagged := true)
    else
      var f := sent[viewer.cursor];
      viewer.(cursor := viewer.cursor + 1,
              accepted := if f.no < viewer.boundary then viewer.accepted else viewer.accepted + [f])
  }

  function Concat(fs: seq<Frame>): Bytes {
    if fs == [] then [] else Concat(fs[..|fs| - 1])
                             + if fs[|fs| - 1].body.Resize? then [] else fs[|fs| - 1].body.bytes
  }

  /** The daemon died with everything in flight; the session is respawned from its rows. */
  function Respawned(s: State, banner: Bytes, seedOk: bool, bannerOk: bool): State {
    var base := NextSeq(s.rows);
    var prior := OutputRows(s.rows, base);
    var f := Frame(base, Output(banner));
    var seedScreen := [Process(if seedOk then Concat(Seed(prior, s.cap)) else [])];
    State(Core(seedScreen + [Process(banner)], base + 1, 0, 0, [f]), base, seedScreen, prior, [f],
          {}, {}, None, [], NoBatch, [f], if bannerOk then {} else {base},
          if bannerOk then InsertOrIgnore(s.rows, f) else s.rows, map[], s.cap)
  }

  function Run(s: State, steps: seq<Step>): State {
    if steps == [] then s else Next(Run(s, steps[..|steps| - 1]), steps[|steps| - 1])
  }

  // ---------------------------------------------------------------------
  // The invariant, component by component
  // ---------------------------------------------------------------------

  ghost predicate Numbered(base: nat, frames: seq<Frame>) {
    forall i :: 0 <= i < |frames| ==> frames[i].no == base + i
  }

  /** Every frame is either broadcast, once, or still to be broadcast. */
  ghost predicate Broadcasting(base: nat, frames: seq<Frame>, sent: seq<Frame>, unsent: set<nat>) {
    && (forall f :: f in sent ==> Assigned(base, frames, f.no) && f == frames[f.no - base] && f.no !in unsent)
    && Distinct(sent)
    && (forall q :: q in unsent ==> Assigned(base, frames, q))
    && (forall f :: f in frames && f.no !in unsent ==> f in sent)
  }

  ghost predicate Threads(
    base: nat, frames: seq<Frame>, unsent: set<nat>, commands: set<nat>, reader: Option<nat>)
  {
    && (reader.Some? ==> Assigned(base, frames, reader.value) && IsOutput(frames[reader.value - base]))
    && (forall q :: q in commands ==> Assigned(base, frames, q) && !IsOutput(frames[q - base]))
    && (forall q :: q in unsent ==> q in commands || reader == Some(q))
  }

  /** The output frame the reader holds, if any. */
  function ReaderFrames(s: State): seq<Frame> {
    if s.reader.Some? then [FrameAt(s, s.reader.value)] else []
  }

  function UnsentOutput(s: State): seq<Frame> {
    if s.reader.Some? && s.reader.value in s.unsent then ReaderFrames(s) else []
  }

  function BatchFrames(s: State): seq<Frame> { if s.batch.NoBatch? then [] else s.batch.fs }

  /** Output frames on their way to the database, oldest first. */
  function Pipeline(s: State): seq<Frame> { BatchFrames(s) + s.queue + ReaderFrames(s) }

  ghost predicate Persisting(pipeline: seq<Frame>, persisted: nat, highWater: nat) {
    forall f :: f in pipeline ==> persisted <= f.no < highWater
  }

  ghost predicate RowsAgree(base: nat, frames: seq<Frame>, rows: map<nat, Frame>) {
    && (forall q :: q in rows ==> q < base + |frames| && rows[q].no == q)
    && (forall q :: q in rows && base <= q ==> rows[q] == frames[q - base])
  }

  ghost predicate Decided(rows: map<nat, Frame>, lost: set<nat>, settled: seq<Frame>) {
    && (forall q :: q in lost ==> q !in rows)
    && (forall f :: f in settled ==> f.no in rows || f.no in lost)
  }

  ghost predicate Undecided(rows: map<nat, Frame>, lost: set<nat>, waiting: seq<Frame>) {
    forall f :: f in waiting ==> f.no !in rows && f.no !in lost
  }

  /** Frames that have not been offered to the database. */
  function NotOffered(s: State): seq<Frame> {
    (if s.batch.Collected? then s.batch.fs else []) + s.queue + ReaderFrames(s)
  }

  ghost predicate Stored(s: State) {
    && RowsAgree(s.base, s.frames, s.rows)
    && (forall q :: q in s.commands ==> q !in s.rows)
    && (forall q :: q in s.lost ==> Assigned(s.base, s.frames, q) && IsOutput(s.frames[q - s.base]))
    && Decided(s.rows, s.lost, s.settled)
    && Undecided(s.rows, s.lost, NotOffered(s))
    && (s.batch.Inserted? ==> forall f :: f in s.batch.fs ==> f.no in s.rows)
    && s.prior == OutputRows(s.rows, s.base)
  }

  /** What a viewer has, given the frames below its boundary and the frames it has received. */
  ghost predicate Served(
    below: seq<Frame>, received: seq<Frame>, seedScreen: Screen, prior: seq<Frame>,
    settled: seq<Frame>, lost: set<nat>, cap: nat, viewer: Viewer)
  {
    && viewer.snapshot == seedScreen + Effects(below)
    && viewer.accepted == From(viewer.boundary, received)
    && (forall f :: f in below && IsOutput(f) ==> f in settled || f.no < viewer.settle)
    && (!viewer.phase.Waiting? && !viewer.phase.timedOut ==>
          forall f :: f in below && IsOutput(f) ==> f in settled)
    && (viewer.phase.Live? && !viewer.phase.timedOut && viewer.phase.served ==>
          viewer.phase.seed == Seed(prior + KeptOutputs(lost, below), cap))
  }

  ghost predicate ViewerInv(s: State, viewer: Viewer) {
    && s.base <= viewer.boundary <= s.base + |s.frames|
    && viewer.cursor <= |s.core.sent|
    && Served(s.frames[..viewer.boundary - s.base], s.core.sent[..viewer.cursor], s.seedScreen,
              s.prior, s.settled, s.lost, s.cap, viewer)
  }

  ghost predicate Viewing(s: State) {
    forall v :: v in s.viewers ==> ViewerInv(s, s.viewers[v])
  }

  ghost predicate Lines(s: State) {
    && s.core.next == s.base + |s.frames|
    && s.core.persisted <= s.core.next && s.core.highWater <= s.core.next
    && Numbered(s.base, s.frames)
    && s.core.screen == s.seedScreen + Effects(s.frames)
    && Broadcasting(s.base, s.frames, s.core.sent, s.unsent)
    && Threads(s.base, s.frames, s.unsent, s.commands, s.reader)
    && Outputs(s.core.sent) + UnsentOutput(s) == Outputs(s.frames)
    && Outputs(s.frames) == s.settled + Pipeline(s)
    && Persisting(Pipeline(s), s.core.persisted, s.core.highWater)
  }

  ghost predicate Inv(s: State) { Lines(s) && Stored(s) && Viewing(s) }

  // ---------------------------------------------------------------------
  // Preservation
  // ---------------------------------------------------------------------

  lemma EffectsAppend(fs: seq<Frame>, f: Frame)
    ensures Effects(fs + [f]) == Effects(fs) + EffectsOf(f.body)
  {
    assert (fs + [f])[..|fs|] == fs;
  }

  lemma BroadcastAssign(base: nat, frames: seq<Frame>, sent: seq<Frame>, unsent: set<nat>, f: Frame)
    requires Numbered(base, frames) && Broadcasting(base, frames, sent, unsent)
    requires f.no == base + |frames|
    ensures Numbered(base, frames + [f]) && Broadcasting(base, frames + [f], sent, unsent + {f.no})
  {
  }

  lemma BroadcastSend(base: nat, frames: seq<Frame>, sent: seq<Frame>, unsent: set<nat>, no: nat)
    requires Numbered(base, frames) && Broadcasting(base, frames, sent, unsent) && no in unsent
    ensures Broadcasting(base, frames, sent + [frames[no - base]], unsent - {no})
  {
    var f := frames[no - base];
    assert f in frames;
    forall i | 0 <= i < |sent| ensures sent[i].no != f.no {
      assert sent[i] in sent;
    }
  }

  /** A viewer sees only frames already numbered, so numbering one more changes nothing for it. */
  lemma ViewersKeepOnAssign(s: State, t: State, f: Frame)
    requires Viewing(s)
    requires t.frames == s.frames + [f] && t.base == s.base && t.seedScreen == s.seedScreen
    requires t.core.sent == s.core.sent && t.settled == s.settled && t.lost == s.lost
    requires t.prior == s.prior && t.viewers == s.viewers && t.cap == s.cap
    ensures Viewing(t)
  {
    hide Effects, Filter, Served, SeedCount;
    forall v | v in t.viewers ensures ViewerInv(t, t.viewers[v]) {
      var viewer := s.viewers[v];
      assert ViewerInv(s, viewer);
      assert t.frames[..viewer.boundary - t.base] == s.frames[..viewer.boundary - s.base];
    }
  }

  lemma ThreadsAssign(
    base: nat, frames: seq<Frame>, unsent: set<nat>, commands: set<nat>, reader: Option<nat>, f: Frame)
    requires Threads(base, frames, unsent, commands, reader) && f.no == base + |frames|
    ensures reader.None? && IsOutput(f)
            ==> Threads(base, frames + [f], unsent + {f.no}, commands, Some(f.no))
    ensures !IsOutput(f) ==> Threads(base, frames + [f], unsent + {f.no}, commands + {f.no}, reader)
  {
  }

  /** The number just below the counter belongs to a frame of this epoch, the next one to none. */
  lemma OutputAssignLines(s: State, bytes: Bytes)
    requires Lines(s) && s.reader.None?
    ensures Lines(OutputAssigned(s, bytes)) && s.core.next == s.base + |s.frames|
    ensures NotOffered(OutputAssigned(s, bytes)) == NotOffered(s) + [Frame(s.core.next, Output(bytes))]
  {
    hide Effects, Filter, Broadcasting, Threads, Numbered;
    var t := OutputAssigned(s, bytes);
    var f := Frame(s.core.next, Output(bytes));
    EffectsAppend(s.frames, f);
    FilterAppend(IsOutput, s.frames, f);
    BroadcastAssign(s.base, s.frames, s.core.sent, s.unsent, f);
    ThreadsAssign(s.base, s.frames, s.unsent, s.commands, s.reader, f);
    assert ReaderFrames(s) == [] && ReaderFrames(t) == [f];
    assert Pipeline(t) == Pipeline(s) + [f];
    assert Outputs(s.core.sent) + [] == Outputs(s.core.sent);
    assert t.core.screen == t.seedScreen + Effects(t.frames);
  }

  lemma OutputAssignKeeps(s: State, bytes: Bytes)
    requires Inv(s) && s.reader.None?
    ensures Inv(OutputAssigned(s, bytes))
  {
    hide Lines, Stored, Viewing, NotOffered;
    var t := OutputAssigned(s, bytes);
    var f := Frame(s.core.next, Output(bytes));
    OutputAssignLines(s, bytes);
    StoredOnAssign(s, t, f);
    ViewersKeepOnAssign(s, t, f);
  }

  /** The rows never reach the number about to be assigned. */
  lemma StoredOnAssign(s: State, t: State, f: Frame)
    requires Stored(s) && f.no == s.base + |s.frames|
    requires t.frames == s.frames + [f] && t.base == s.base && t.prior == s.prior
    requires t.rows == s.rows && t.lost == s.lost && t.settled == s.settled && t.batch == s.batch
    requires NotOffered(t) == NotOffered(s) + [f] || NotOffered(t) == NotOffered(s)
    requires t.commands <= s.commands + {f.no}
    ensures Stored(t)
  {
    hide NotOffered, OutputRows;
  }

  /** A frame that is not output leaves the reader's frame and the pipeline alone. */
  lemma CommandPipeline(s: State, body: Body)
    requires Threads(s.base, s.frames, s.unsent, s.commands, s.reader)
    requires s.core.next == s.base + |s.frames|
    ensures var t := CommandAssigned(s, body);
      UnsentOutput(t) == UnsentOutput(s) && Pipeline(t) == Pipeline(s) && NotOffered(t) == NotOffered(s)
  {
    hide Threads;
    ReaderAssigned(s);
    assert ReaderFrames(CommandAssigned(s, body)) == ReaderFrames(s);
  }

  lemma CommandAssignLines(s: State, body: Body)
    requires Lines(s) && !body.Output?
    ensures Lines(CommandAssigned(s, body)) && s.core.next == s.base + |s.frames|
    ensures NotOffered(CommandAssigned(s, body)) == NotOffered(s)
  {
    hide Effects, Filter, Broadcasting, Threads, Numbered, Persisting, UnsentOutput, Pipeline, NotOffered;
    var t := CommandAssigned(s, body);
    var f := Frame(s.core.next, body);
    EffectsAppend(s.frames, f);
    FilterAppend(IsOutput, s.frames, f);
    BroadcastAssign(s.base, s.frames, s.core.sent, s.unsent, f);
    ThreadsAssign(s.base, s.frames, s.unsent, s.commands, s.reader, f);
    CommandPipeline(s, body);
    assert Outputs(t.frames) == Outputs(s.frames);
    assert t.core.screen == t.seedScreen + Effects(t.frames);
  }

  lemma ReaderAssigned(s: State)
    requires Threads(s.base, s.frames, s.unsent, s.commands, s.reader)
    ensures s.reader.Some? ==>
              Assigned(s.base, s.frames, s.reader.value) && IsOutput(FrameAt(s, s.reader.value))
  {
  }

  lemma CommandAssignKeeps(s: State, body: Body)
    requires Inv(s) && !body.Output?
    ensures Inv(CommandAssigned(s, body))
  {
    hide Lines, Stored, Viewing, NotOffered;
    var t := CommandAssigned(s, body);
    var f := Frame(s.core.next, body);
    CommandAssignLines(s, body);
    StoredOnAssign(s, t, f);
    ViewersKeepOnAssign(s, t, f);
  }

  lemma ViewersKeepOnSend(s: State, t: State, f: Frame)
    requires Viewing(s)
    requires t.core.sent == s.core.sent + [f]
    requires t.frames == s.frames && t.base == s.base && t.seedScreen == s.seedScreen
    requires t.settled == s.settled && t.lost == s.lost
    requires t.prior == s.prior && t.viewers == s.viewers && t.cap == s.cap
    ensures Viewing(t)
  {
    hide Effects, Filter, Served, SeedCount;
    forall v | v in t.viewers ensures ViewerInv(t, t.viewers[v]) {
      var viewer := s.viewers[v];
      assert ViewerInv(s, viewer);
      assert t.core.sent[..viewer.cursor] == s.core.sent[..viewer.cursor];
    }
  }

  /** Among unsent frames, the reader's is the output frame. */
  lemma UnsentFrame(s: State, no: nat)
    requires Broadcasting(s.base, s.frames, s.core.sent, s.unsent) && no in s.unsent
    requires Threads(s.base, s.frames, s.unsent, s.commands, s.reader)
    ensures Assigned(s.base, s.frames, no)
    ensures IsOutput(s.frames[no - s.base]) <==> s.reader == Some(no)
    ensures Threads(s.base, s.frames, s.unsent - {no}, s.commands, s.reader)
  {
  }

  lemma SentLines(s: State, no: nat)
    requires Lines(s) && no in s.unsent
    ensures Lines(Sent(s, no))
  {
    hide Effects, Filter, Numbered, Distinct, Broadcasting, Threads, Persisting;
    var t := Sent(s, no);
    UnsentFrame(s, no);
    BroadcastSend(s.base, s.frames, s.core.sent, s.unsent, no);
    var f := s.frames[no - s.base];
    FilterAppend(IsOutput, s.core.sent, f);
    assert ReaderFrames(t) == ReaderFrames(s);
    assert Pipeline(t) == Pipeline(s);
    assert Outputs(s.core.sent) + [] == Outputs(s.core.sent);
    assert Outputs(t.core.sent) + UnsentOutput(t) == Outputs(s.core.sent) + UnsentOutput(s);
  }

  lemma SentKeeps(s: State, no: nat)
    requires Inv(s) && no in s.unsent
    ensures Inv(Sent(s, no))
  {
    hide Lines, Viewing, RowsAgree, Undecided, Decided, OutputRows;
    SentLines(s, no);
    ViewersKeepOnSend(s, Sent(s, no), FrameAt(s, no));
  }

  lemma ViewersSame(s: State, t: State)
    requires Viewing(s)
    requires t.core.sent == s.core.sent
    requires t.frames == s.frames && t.base == s.base && t.seedScreen == s.seedScreen
    requires t.settled == s.settled && t.lost == s.lost
    requires t.prior == s.prior && t.viewers == s.viewers && t.cap == s.cap
    ensures Viewing(t)
  {
    hide Effects, Filter, Served, SeedCount;
    forall v | v in t.viewers ensures ViewerInv(t, t.viewers[v]) {
      assert ViewerInv(s, s.viewers[v]);
    }
  }

  lemma EnqueuedLines(s: State)
    requires Lines(s) && s.reader.Some? && s.reader.value !in s.unsent
    ensures Lines(Enqueued(s)) && NotOffered(Enqueued(s)) == NotOffered(s)
  {
    hide Effects, Filter, Numbered, Distinct, Broadcasting;
    var t := Enqueued(s);
    assert Pipeline(t) == Pipeline(s);
    assert UnsentOutput(s) == [] && UnsentOutput(t) == [];
  }

  lemma EnqueuedKeeps(s: State)
    requires Inv(s) && s.reader.Some? && s.reader.value !in s.unsent
    ensures Inv(Enqueued(s))
  {
    hide Lines, Viewing, RowsAgree, Undecided, Decided, OutputRows, NotOffered;
    EnqueuedLines(s);
    ViewersSame(s, Enqueued(s));
  }

  lemma TakeLines(s: State, t: State, count: nat)
    requires Lines(s) && s.batch.NoBatch? && 0 < count <= |s.queue|
    requires t == s.(batch := Collected(s.queue[..count]), queue := s.queue[count..])
    ensures Lines(t) && NotOffered(t) == NotOffered(s)
  {
    hide Effects, Filter, Numbered, Broadcasting, Threads, Persisting;
    assert ReaderFrames(t) == ReaderFrames(s);
    assert s.queue == s.queue[..count] + s.queue[count..];
    assert Pipeline(t) == Pipeline(s);
  }

  lemma TakeKeeps(s: State, t: State, count: nat)
    requires Inv(s) && s.batch.NoBatch? && 0 < count <= |s.queue|
    requires t == s.(batch := Collected(s.queue[..count]), queue := s.queue[count..])
    ensures Inv(t)
  {
    hide Lines, Viewing, NotOffered, RowsAgree, Undecided, Decided, OutputRows;
    TakeLines(s, t, count);
    ViewersSame(s, t);
  }

  // ----- rows -----

  /** Output frames, in the order they are numbered, keep their identity in `frames`. */
  lemma OutputsIdentified(base: nat, frames: seq<Frame>)
    requires Numbered(base, frames)
    ensures Increasing(Outputs(frames))
    ensures forall f :: f in Outputs(frames) ==>
              Assigned(base, frames, f.no) && f == frames[f.no - base] && IsOutput(f)
  {
    FilterIncreasing(IsOutput, frames);
    FilterMembers(IsOutput, frames);
  }

  lemma {:induction false} OutputRowsAgree(rows: map<nat, Frame>, more: map<nat, Frame>, bound: nat)
    requires forall q :: q < bound ==> (q in rows <==> q in more) && (q in rows ==> rows[q] == more[q])
    ensures OutputRows(rows, bound) == OutputRows(more, bound)
  {
    if bound > 0 {
      OutputRowsAgree(rows, more, bound - 1);
    }
  }

  lemma {:induction false} InsertAllFresh(rows: map<nat, Frame>, fs: seq<Frame>)
    requires Increasing(fs) && forall f :: f in fs ==> f.no !in rows
    ensures InsertAll(rows, fs).Keys == rows.Keys + Numbers(fs)
    ensures forall q :: q in rows ==> InsertAll(rows, fs)[q] == rows[q]
    ensures forall f :: f in fs ==> InsertAll(rows, fs)[f.no] == f
  {
    if fs != [] {
      var n := |fs| - 1;
      assert fs == fs[..n] + [fs[n]];
      InsertAllFresh(rows, fs[..n]);
    }
  }

  /** A row inserted this epoch is a frame of this epoch, so it disturbs nothing older. */
  lemma StoredOnInsert(s: State, t: State, added: set<nat>)
    requires Stored(s) && t.rows.Keys == s.rows.Keys + added
    requires forall q :: q in s.rows ==> t.rows[q] == s.rows[q]
    requires forall q :: q in added ==>
               Assigned(s.base, s.frames, q) && t.rows[q] == s.frames[q - s.base] && t.rows[q].no == q
               && q !in s.lost
    requires t.base == s.base && t.frames == s.frames && t.prior == s.prior
    requires t.lost == s.lost && t.settled == s.settled
    ensures RowsAgree(t.base, t.frames, t.rows) && Decided(t.rows, t.lost, t.settled)
    ensures t.prior == OutputRows(t.rows, t.base)
  {
    hide OutputRows;
    RowsAgreeOnInsert(s.base, s.frames, s.rows, t.rows, added);
    hide RowsAgree;
    OutputRowsAgree(s.rows, t.rows, s.base);
  }

  lemma RowsAgreeOnInsert(
    base: nat, frames: seq<Frame>, rows: map<nat, Frame>, more: map<nat, Frame>, added: set<nat>)
    requires RowsAgree(base, frames, rows) && more.Keys == rows.Keys + added
    requires forall q :: q in rows ==> more[q] == rows[q]
    requires forall q :: q in added ==>
               Assigned(base, frames, q) && more[q] == frames[q - base] && more[q].no == q
    ensures RowsAgree(base, frames, more)
  {
  }

  lemma SplitOrder(a: seq<Frame>, b: seq<Frame>, c: seq<Frame>)
    requires Increasing(a + (b + c))
    ensures Increasing(b)
    ensures forall f, g :: f in a && g in b ==> f.no < g.no
    ensures forall f, g :: f in a && g in c ==> f.no < g.no
    ensures forall f, g :: f in b && g in c ==> f.no < g.no
  {
    var all := a + (b + c);
    forall i, j | 0 <= i < j < |b| ensures b[i].no < b[j].no {
      assert all[|a| + i] == b[i] && all[|a| + j] == b[j];
    }
    forall i, j | 0 <= i < |a| && 0 <= j < |b| ensures a[i].no < b[j].no {
      assert all[i] == a[i] && all[|a| + j] == b[j];
    }
    forall i, j | 0 <= i < |a| && 0 <= j < |c| ensures a[i].no < c[j].no {
      assert all[i] == a[i] && all[|a| + |b| + j] == c[j];
    }
    forall i, j | 0 <= i < |b| && 0 <= j < |c| ensures b[i].no < c[j].no {
      assert all[|a| + i] == b[i] && all[|a| + |b| + j] == c[j];
    }
  }

  /** What follows the current batch in the pipeline. */
  function Following(s: State): seq<Frame> { s.queue + ReaderFrames(s) }

  lemma BatchOrder(s: State)
    requires Lines(s)
    ensures Pipeline(s) == BatchFrames(s) + Following(s)
    ensures Increasing(BatchFrames(s))
    ensures forall f, g :: f in s.settled && g in BatchFrames(s) ==> f.no < g.no
    ensures forall f, g :: f in BatchFrames(s) && g in Following(s) ==> f.no < g.no
    ensures forall f :: f in BatchFrames(s) || f in Following(s) ==>
              Assigned(s.base, s.frames, f.no) && f == s.frames[f.no - s.base] && IsOutput(f)
  {
    hide Effects, Filter, Broadcasting, Persisting, Threads, Numbered, Increasing;
    OutputsIdentified(s.base, s.frames);
    var b, rest := BatchFrames(s), Following(s);
    assert Pipeline(s) == b + rest;
    assert Outputs(s.frames) == s.settled + (b + rest);
    SplitOrder(s.settled, b, rest);
    forall f | f in b || f in rest ensures f in Outputs(s.frames) {}
  }

  lemma CommandPersistedLines(s: State, no: nat, ok: bool)
    requires Lines(s) && no in s.commands && no !in s.unsent
    ensures Lines(CommandPersisted(s, no, ok))
    ensures NotOffered(CommandPersisted(s, no, ok)) == NotOffered(s)
    ensures Assigned(s.base, s.frames, no) && s.frames[no - s.base].no == no
    ensures !IsOutput(s.frames[no - s.base])
  {
    hide Effects, Filter, Broadcasting, Persisting;
    assert Pipeline(CommandPersisted(s, no, ok)) == Pipeline(s);
  }

  lemma NotOfferedFollows(s: State)
    ensures s.batch.Collected? ==> NotOffered(s) == BatchFrames(s) + Following(s)
    ensures !s.batch.Collected? ==> NotOffered(s) == Following(s)
  {
    assert [] + s.queue == s.queue;
    if s.batch.Collected? {
      assert NotOffered(s) == BatchFrames(s) + Following(s);
    }
  }

  lemma UndecidedAfterInsert(
    rows: map<nat, Frame>, more: map<nat, Frame>, lost: set<nat>, added: set<nat>, rest: seq<Frame>)
    requires Undecided(rows, lost, rest) && more.Keys == rows.Keys + added
    requires forall g :: g in rest ==> g.no !in added
    ensures Undecided(more, lost, rest)
  {
  }

  lemma UndecidedAfterLoss(rows: map<nat, Frame>, lost: set<nat>, fs: seq<Frame>, rest: seq<Frame>)
    requires Undecided(rows, lost, fs + rest) && forall f, g :: f in fs && g in rest ==> f.no < g.no
    ensures Undecided(rows, lost + Numbers(fs), rest)
  {
    assert forall g :: g in rest ==> g in fs + rest;
  }

  /** An input or resize row never collides with a stored one. */
  lemma CommandPersistedKeeps(s: State, no: nat, ok: bool)
    requires Inv(s) && no in s.commands && no !in s.unsent
    ensures Inv(CommandPersisted(s, no, ok))
    ensures ok ==> CommandPersisted(s, no, ok).rows == s.rows[no := FrameAt(s, no)] && no !in s.rows
  {
    hide Lines, Viewing, OutputRows, RowsAgree, Decided, Undecided, NotOffered, Following;
    var t := CommandPersisted(s, no, ok);
    CommandPersistedLines(s, no, ok);
    ViewersSame(s, t);
    if ok {
      StoredOnInsert(s, t, {no});
      BatchOrder(s);
      NotOfferedFollows(s);
      UndecidedAfterInsert(s.rows, t.rows, s.lost, {no}, NotOffered(s));
    }
  }

  lemma BatchInsertedLines(s: State)
    requires Lines(s) && s.batch.Collected?
    ensures Lines(BatchInserted(s))
  {
    hide Effects, Filter, Broadcasting, Persisting, Threads, Numbered, InsertAll;
    assert Pipeline(BatchInserted(s)) == Pipeline(s);
  }

  /** Every row of a batch is new to the table: sequence numbers are never reused across epochs. */
  lemma BatchInsertedKeeps(s: State)
    requires Inv(s) && s.batch.Collected?
    ensures Inv(BatchInserted(s))
    ensures forall f :: f in s.batch.fs ==>
              f.no !in s.rows && f.no in BatchInserted(s).rows && BatchInserted(s).rows[f.no] == f
  {
    hide Lines, Viewing, Stored, RowsAgree, Decided, Undecided, InsertAll, NotOffered, Following, Increasing, Numbers;
    var t := BatchInserted(s);
    BatchInsertedLines(s);
    StoredParts(s);
    NotOfferedFollows(s);
    NotOfferedFollows(t);
    FollowingSame(s, t);
    UndecidedParts(s.rows, s.lost, s.batch.fs, Following(s));
    BatchRows(s, t);
    StoredOnInsert(s, t, Numbers(s.batch.fs));
    UndecidedAfterInsert(s.rows, t.rows, s.lost, Numbers(s.batch.fs), Following(s));
    BatchCommands(s);
    StoredAfterInsert(s, t);
    ViewersSame(s, t);
  }

  /** What inserting the current batch adds to the table. */
  lemma BatchRows(s: State, t: State)
    requires Lines(s) && s.batch.Collected? && t == BatchInserted(s) && Undecided(s.rows, s.lost, s.batch.fs)
    ensures t.rows.Keys == s.rows.Keys + Numbers(s.batch.fs)
    ensures forall q :: q in s.rows ==> t.rows[q] == s.rows[q]
    ensures forall f :: f in s.batch.fs ==> f.no !in s.rows && f.no in t.rows && t.rows[f.no] == f
    ensures forall q :: q in Numbers(s.batch.fs) ==>
              Assigned(s.base, s.frames, q) && t.rows[q] == s.frames[q - s.base] && t.rows[q].no == q
              && q !in s.lost
    ensures forall g :: g in Following(s) ==> g.no !in Numbers(s.batch.fs)
  {
    hide Lines, InsertAll, Following, Increasing;
    BatchOrder(s);
    InsertAllFresh(s.rows, s.batch.fs);
  }

  lemma UndecidedParts(rows: map<nat, Frame>, lost: set<nat>, fs: seq<Frame>, rest: seq<Frame>)
    requires Undecided(rows, lost, fs + rest)
    ensures Undecided(rows, lost, fs) && Undecided(rows, lost, rest)
  {
    assert forall f :: f in fs || f in rest ==> f in fs + rest;
  }

  lemma StoredAfterInsert(s: State, t: State)
    requires Stored(s) && t.base == s.base && t.frames == s.frames && t.lost == s.lost && t.commands == s.commands
    requires RowsAgree(t.base, t.frames, t.rows) && Decided(t.rows, t.lost, t.settled)
    requires t.prior == OutputRows(t.rows, t.base) && Undecided(t.rows, t.lost, NotOffered(t))
    requires t.batch.Inserted? && forall f :: f in t.batch.fs ==> f.no in t.rows && f.no !in s.commands
    requires t.rows.Keys == s.rows.Keys + Numbers(t.batch.fs)
    ensures Stored(t)
  {
    hide RowsAgree, Decided, Undecided, OutputRows, NotOffered;
  }

  lemma FollowingSame(s: State, t: State)
    requires t.queue == s.queue && t.reader == s.reader && t.base == s.base && t.frames == s.frames
    ensures Following(t) == Following(s)
  {
  }

  /** Batches hold output frames only. */
  lemma BatchCommands(s: State)
    requires Lines(s)
    ensures forall f :: f in BatchFrames(s) ==> f.no !in s.commands
  {
    hide Effects, Filter, Broadcasting, Persisting;
    BatchOrder(s);
  }

  lemma PersistingAfterBatch(fs: seq<Frame>, rest: seq<Frame>, persisted: nat, highWater: nat)
    requires Persisting(fs + rest, persisted, highWater)
    requires forall f, g :: f in fs && g in rest ==> f.no < g.no
    ensures Persisting(rest, persisted, highWater)
    ensures Persisting(rest, NotedWatermark(persisted, fs), highWater)
    ensures NotedWatermark(persisted, fs) <= if persisted < highWater then highWater else persisted
  {
    assert forall f :: f in fs || f in rest ==> f in fs + rest;
    hide NotedWatermark;
    NotedWatermarkIsLeast(persisted, fs, if persisted < highWater then highWater else persisted);
    forall g | g in rest ensures NotedWatermark(persisted, fs) <= g.no {
      NotedWatermarkIsLeast(persisted, fs, g.no);
      assert g in fs + rest;
    }
  }

  lemma SettleBatchLines(s: State, t: State)
    requires Lines(s) && !s.batch.NoBatch?
    requires t == BatchNotedOrFailed(s, t.core.persisted, t.lost)
    requires t.core.persisted == s.core.persisted
             || t.core.persisted == NotedWatermark(s.core.persisted, s.batch.fs)
    ensures Lines(t)
  {
    hide Effects, Filter, Broadcasting, Threads, Numbered, Persisting, NotedWatermark, Increasing;
    BatchOrder(s);
    PersistingAfterBatch(s.batch.fs, Following(s), s.core.persisted, s.core.highWater);
    assert Pipeline(t) == Following(s);
    assert t.settled + Pipeline(t) == s.settled + Pipeline(s);
  }

  function BatchNotedOrFailed(s: State, persisted: nat, lost: set<nat>): State
    requires !s.batch.NoBatch?
  {
    s.(core := s.core.(persisted := persisted), lost := lost, settled := s.settled + s.batch.fs,
       batch := NoBatch)
  }

  /** Deciding a batch cannot touch what is below the boundary of a viewer that has settled. */
  lemma ViewersKeepOnSettle(s: State, t: State, decided: seq<Frame>)
    requires Viewing(s) && t.settled == s.settled + decided
    requires t.lost <= s.lost + Numbers(decided) && s.lost <= t.lost
    requires forall f, g :: f in s.settled && g in decided ==> f.no != g.no
    requires t.core.sent == s.core.sent
    requires t.frames == s.frames && t.base == s.base && t.seedScreen == s.seedScreen
    requires t.prior == s.prior && t.viewers == s.viewers && t.cap == s.cap
    ensures Viewing(t)
  {
    hide Effects, Filter, SeedCount;
    forall v | v in t.viewers ensures ViewerInv(t, t.viewers[v]) {
      var viewer := s.viewers[v];
      assert ViewerInv(s, viewer);
      var below := s.frames[..viewer.boundary - s.base];
      if !viewer.phase.Waiting? && !viewer.phase.timedOut {
        KeptOutputsStable(s.lost, t.lost, s.settled, decided, below);
      }
    }
  }

  lemma KeptOutputsStable(
    lost: set<nat>, more: set<nat>, settled: seq<Frame>, decided: seq<Frame>, below: seq<Frame>)
    requires forall f :: f in below && IsOutput(f) ==> f in settled
    requires lost <= more <= lost + Numbers(decided)
    requires forall f, g :: f in settled && g in decided ==> f.no != g.no
    ensures KeptOutputs(lost, below) == KeptOutputs(more, below)
  {
    FilterAgree((f: Frame) => f.body.Output? && f.no !in lost,
                (f: Frame) => f.body.Output? && f.no !in more, below);
  }

  lemma StoredParts(s: State)
    requires Stored(s)
    ensures Decided(s.rows, s.lost, s.settled) && Undecided(s.rows, s.lost, NotOffered(s))
    ensures forall q :: q in s.lost ==> Assigned(s.base, s.frames, q) && IsOutput(s.frames[q - s.base])
    ensures s.batch.Inserted? ==> forall f :: f in s.batch.fs ==> f.no in s.rows
  {
  }

  /** With the batch decided, what is stored is as before. */
  lemma StoredAfterBatch(s: State, t: State)
    requires Stored(s) && t.batch.NoBatch? && t.rows == s.rows && t.base == s.base && t.frames == s.frames
    requires t.prior == s.prior && t.commands == s.commands
    requires forall q :: q in t.lost ==> Assigned(t.base, t.frames, q) && IsOutput(t.frames[q - t.base])
    requires Decided(t.rows, t.lost, t.settled) && Undecided(t.rows, t.lost, NotOffered(t))
    ensures Stored(t)
  {
    hide RowsAgree, Decided, Undecided, OutputRows, NotOffered;
  }

  lemma DecidedBatch(rows: map<nat, Frame>, lost: set<nat>, settled: seq<Frame>, fs: seq<Frame>)
    requires Decided(rows, lost, settled) && forall f :: f in fs ==> f.no in rows
    ensures Decided(rows, lost, settled + fs)
  {
  }

  lemma DecidedLoss(rows: map<nat, Frame>, lost: set<nat>, settled: seq<Frame>, fs: seq<Frame>, rest: seq<Frame>)
    requires Decided(rows, lost, settled) && Undecided(rows, lost, fs + rest)
    ensures Decided(rows, lost + Numbers(fs), settled + fs)
  {
    assert forall f :: f in fs ==> f in fs + rest;
  }

  lemma BatchFailedKeeps(s: State)
    requires Inv(s) && s.batch.Collected?
    ensures Inv(BatchFailed(s))
  {
    hide Lines, Stored, Viewing, Decided, Undecided, NotOffered, Following, Increasing;
    var t := BatchFailed(s);
    SettleBatchLines(s, t);
    BatchOrder(s);
    StoredParts(s);
    NotOfferedFollows(s);
    NotOfferedFollows(t);
    FollowingSame(s, t);
    UndecidedAfterLoss(s.rows, s.lost, s.batch.fs, Following(s));
    DecidedLoss(s.rows, s.lost, s.settled, s.batch.fs, Following(s));
    StoredAfterBatch(s, t);
    ViewersKeepOnSettle(s, t, s.batch.fs);
  }

  lemma BatchNotedKeeps(s: State)
    requires Inv(s) && s.batch.Inserted?
    ensures Inv(BatchNoted(s))
  {
    hide Lines, Stored, Viewing, Decided, Undecided, NotOffered, Following, Increasing, NotedWatermark;
    var t := BatchNoted(s);
    SettleBatchLines(s, t);
    BatchOrder(s);
    StoredParts(s);
    NotOfferedFollows(s);
    NotOfferedFollows(t);
    FollowingSame(s, t);
    DecidedBatch(s.rows, s.lost, s.settled, s.batch.fs);
    StoredAfterBatch(s, t);
    ViewersKeepOnSettle(s, t, s.batch.fs);
  }

  // ----- viewers -----

  lemma ReplaceViewer(s: State, v: nat, viewer: Viewer)
    requires Inv(s) && ViewerInv(s, viewer)
    ensures Inv(UpdateViewer(s, v, viewer))
  {
    hide Lines, Stored, Served;
    var t := UpdateViewer(s, v, viewer);
    LinesStoredSame(s, t);
    forall w | w in t.viewers ensures ViewerInv(t, t.viewers[w]) {
      if w != v { assert ViewerInv(s, s.viewers[w]); }
    }
  }

  lemma AttachKeeps(s: State, v: nat)
    requires Inv(s)
    ensures Inv(UpdateViewer(s, v, Viewer(s.core.next, s.core.screen, s.core.highWater,
                                          |s.core.sent|, false, [], Waiting)))
  {
    hide Inv, Effects, Filter, SeedCount;
    var viewer := Viewer(s.core.next, s.core.screen, s.core.highWater, |s.core.sent|, false, [], Waiting);
    AttachedViewer(s);
    assert s.frames[..viewer.boundary - s.base] == s.frames;
    assert s.core.sent[..viewer.cursor] == s.core.sent;
    ReplaceViewer(s, v, viewer);
  }

  /** Nothing broadcast so far passes the new boundary, and no undecided output escapes the wait. */
  lemma AttachedViewer(s: State)
    requires Inv(s)
    ensures s.core.next == s.base + |s.frames| && s.core.screen == s.seedScreen + Effects(s.frames)
    ensures From(s.core.next, s.core.sent) == []
    ensures forall f :: f in s.frames && IsOutput(f) ==> f in s.settled || f.no < s.core.highWater
  {
    hide Effects, Stored, Viewing, Filter;
    FilterNone((f: Frame) => s.core.next <= f.no, s.core.sent);
    FilterMembers(IsOutput, s.frames);
  }

  lemma LinesStoredSame(s: State, t: State)
    requires Lines(s) && Stored(s) && t == s.(viewers := t.viewers)
    ensures Lines(t) && Stored(t)
  {
    hide Effects, Filter, Broadcasting, Threads, Numbered, Persisting, RowsAgree, Decided, Undecided, OutputRows;
    assert ReaderFrames(t) == ReaderFrames(s);
  }

  lemma SettledBelow(s: State, viewer: Viewer)
    requires Lines(s) && ViewerInv(s, viewer)
    requires viewer.settle == 0 || viewer.settle <= s.core.persisted
    ensures forall f :: f in s.frames[..viewer.boundary - s.base] && IsOutput(f) ==> f in s.settled
  {
    hide Effects, Filter;
    FilterMembers(IsOutput, s.frames);
    forall f | f in s.frames[..viewer.boundary - s.base] && IsOutput(f) ensures f in s.settled {
      assert f in s.frames;
      assert f in Outputs(s.frames);
    }
  }

  lemma SettleKeeps(s: State, v: nat, timedOut: bool)
    requires v in s.viewers && Inv(s)
    requires timedOut || s.viewers[v].settle == 0 || s.viewers[v].settle <= s.core.persisted
    ensures Inv(UpdateViewer(s, v, s.viewers[v].(phase := Settled(timedOut))))
  {
    hide Effects, Filter, Lines, Stored, SeedCount;
    assert ViewerInv(s, s.viewers[v]);
    if !timedOut { SettledBelow(s, s.viewers[v]); }
    ReplaceViewer(s, v, s.viewers[v].(phase := Settled(timedOut)));
  }

  /** Whether and how the rows hold the frame numbered `f.no`. */
  ghost predicate RowDecided(rows: map<nat, Frame>, lost: set<nat>, f: Frame) {
    && (f.no in rows ==> rows[f.no] == f && f.no !in lost)
    && (f.body.Output? && f.no !in rows ==> f.no in lost)
  }

  lemma OutputRowsNext(rows: map<nat, Frame>, n: nat)
    ensures OutputRows(rows, n + 1)
            == OutputRows(rows, n) + if n in rows && IsOutput(rows[n]) then [rows[n]] else []
  {
  }

  lemma {:induction false} RowsBelow(rows: map<nat, Frame>, lost: set<nat>, base: nat, below: seq<Frame>)
    requires Numbered(base, below) && forall f :: f in below ==> RowDecided(rows, lost, f)
    ensures OutputRows(rows, base + |below|) == OutputRows(rows, base) + KeptOutputs(lost, below)
    decreases |below|
  {
    hide Filter, OutputRows;
    var p := (f: Frame) => f.body.Output? && f.no !in lost;
    if below == [] {
      FilterNone(p, below);
    } else {
      var k := |below| - 1;
      assert below == below[..k] + [below[k]];
      assert forall f :: f in below[..k] ==> f in below;
      RowsBelow(rows, lost, base, below[..k]);
      FilterAppend(p, below[..k], below[k]);
      assert RowDecided(rows, lost, below[k]) && below[k].no == base + k;
      var last := if p(below[k]) then [below[k]] else [];
      OutputRowsNext(rows, base + k);
      assert OutputRows(rows, base + |below|) == OutputRows(rows, base + k) + last;
      assert KeptOutputs(lost, below) == KeptOutputs(lost, below[..k]) + last;
    }
  }

  /** The rows below a settled boundary: earlier epochs, then the output kept in this one. */
  lemma SettledRows(s: State, viewer: Viewer)
    requires s.base <= viewer.boundary <= s.base + |s.frames|
    requires Inv(s) && ViewerInv(s, viewer) && !viewer.phase.Waiting? && !viewer.phase.timedOut
    ensures OutputRows(s.rows, viewer.boundary)
            == s.prior + KeptOutputs(s.lost, s.frames[..viewer.boundary - s.base])
  {
    hide *;
    SettledFacts(s, viewer);
    var k := viewer.boundary - s.base;
    BelowDecided(s.base, s.frames, s.rows, s.lost, s.settled, k);
    NumberedPrefix(s.base, s.frames, k);
    RowsBelow(s.rows, s.lost, s.base, s.frames[..k]);
  }

  lemma NumberedPrefix(base: nat, frames: seq<Frame>, k: nat)
    requires Numbered(base, frames) && k <= |frames|
    ensures Numbered(base, frames[..k])
  {
  }

  lemma SettledFacts(s: State, viewer: Viewer)
    requires s.base <= viewer.boundary <= s.base + |s.frames|
    requires Inv(s) && ViewerInv(s, viewer) && !viewer.phase.Waiting? && !viewer.phase.timedOut
    ensures Numbered(s.base, s.frames)
    ensures RowsAgree(s.base, s.frames, s.rows) && Decided(s.rows, s.lost, s.settled)
    ensures s.prior == OutputRows(s.rows, s.base)
    ensures forall f :: f in s.frames[..viewer.boundary - s.base] && IsOutput(f) ==> f in s.settled
  {
    hide Effects, Filter, SeedCount, Broadcasting, Threads, Undecided, Viewing, OutputRows, Persisting;
    hide RowsAgree, Decided, Numbered;
  }

  lemma BelowDecided(
    base: nat, frames: seq<Frame>, rows: map<nat, Frame>, lost: set<nat>, settled: seq<Frame>, k: nat)
    requires Numbered(base, frames) && RowsAgree(base, frames, rows) && Decided(rows, lost, settled) && k <= |frames|
    requires forall f :: f in frames[..k] && IsOutput(f) ==> f in settled
    ensures forall f :: f in frames[..k] ==> RowDecided(rows, lost, f)
  {
    forall f | f in frames[..k] ensures RowDecided(rows, lost, f) {
      var i :| 0 <= i < k && frames[i] == f;
      assert f == frames[f.no - base];
    }
  }

  lemma ReadSeedKeeps(s: State, v: nat, served: bool)
    requires v in s.viewers && s.viewers[v].phase.Settled? && Inv(s)
    ensures Inv(Next(s, ReadSeed(v, served)))
  {
    hide Effects, Filter, Lines, Stored, SeedCount, OutputRows;
    var viewer := s.viewers[v];
    assert ViewerInv(s, viewer);
    if !viewer.phase.timedOut { SettledRows(s, viewer); }
    var seed := if served then Seed(OutputRows(s.rows, viewer.boundary), s.cap) else [];
    ReplaceViewer(s, v, viewer.(phase := Live(viewer.phase.timedOut, served, seed)));
  }

  lemma ReceiveKeeps(s: State, v: nat)
    requires v in s.viewers && s.viewers[v].cursor < |s.core.sent| && Inv(s)
    ensures Inv(UpdateViewer(s, v, Received(s.viewers[v], s.core.sent)))
  {
    hide Effects, Filter, Lines, Stored, SeedCount;
    var viewer := s.viewers[v];
    assert ViewerInv(s, viewer);
    var c := viewer.cursor;
    assert s.core.sent[..c + 1] == s.core.sent[..c] + [s.core.sent[c]];
    FilterAppend((f: Frame) => viewer.boundary <= f.no, s.core.sent[..c], s.core.sent[c]);
    ReplaceViewer(s, v, Received(viewer, s.core.sent));
  }

  lemma DetachKeeps(s: State, t: State, v: nat)
    requires Inv(s) && t == s.(viewers := s.viewers - {v})
    ensures Inv(t)
  {
    hide Lines, Stored, Served;
    LinesStoredSame(s, t);
    forall w | w in t.viewers ensures ViewerInv(t, t.viewers[w]) {
      assert ViewerInv(s, s.viewers[w]);
    }
  }

  // ----- respawn -----

  lemma RespawnLines(s: State, banner: Bytes, seedOk: bool, bannerOk: bool)
    ensures Lines(Respawned(s, banner, seedOk, bannerOk))
  {
    hide SeedCount, OutputRows, Concat, NextSeq, Effects, Filter;
    var t := Respawned(s, banner, seedOk, bannerOk);
    var f := Frame(t.base, Output(banner));
    EffectsAppend([], f);
    assert [] + [f] == [f];
    assert Effects([]) == [] by { EffectsEmpty(); }
    FilterAll(IsOutput, [f]);
    assert Pipeline(t) == [] && UnsentOutput(t) == [];
  }

  lemma EffectsEmpty()
    ensures Effects([]) == []
  {
  }

  /** A respawned session starts above every stored row, so its banner row is new. */
  lemma RespawnKeeps(s: State, banner: Bytes, seedOk: bool, bannerOk: bool)
    requires forall q :: q in s.rows ==> s.rows[q].no == q
    ensures Inv(Respawned(s, banner, seedOk, bannerOk))
    ensures Respawned(s, banner, seedOk, bannerOk).base !in s.rows
    ensures forall q :: q in s.rows ==> q in Respawned(s, banner, seedOk, bannerOk).rows
                                        && Respawned(s, banner, seedOk, bannerOk).rows[q] == s.rows[q]
  {
    hide SeedCount, OutputRows, Concat, Lines;
    var t := Respawned(s, banner, seedOk, bannerOk);
    RespawnLines(s, banner, seedOk, bannerOk);
    OutputRowsAgree(s.rows, t.rows, t.base);
    assert NotOffered(t) == [];
    assert Viewing(t);
  }

  /** Every step keeps the invariant. */
  lemma NextKeeps(s: State, step: Step)
    requires Inv(s)
    ensures Inv(Next(s, step))
  {
    hide Inv, Respawned, OutputAssigned, CommandAssigned, Sent, Enqueued, CommandPersisted;
    hide BatchInserted, BatchFailed, BatchNoted, Received;
    if Enabled(s, step) {
      var t := Next(s, step);
      match step
      case OutputAssign(bytes) => OutputAssignKeeps(s, bytes);
      case OutputSend => SentKeeps(s, s.reader.value);
      case OutputEnqueue => EnqueuedKeeps(s);
      case CommandAssign(body) => CommandAssignKeeps(s, body);
      case CommandSend(no) => SentKeeps(s, no);
      case CommandPersist(no, ok) => CommandPersistedKeeps(s, no, ok);
      case BatchTake(count) => TakeKeeps(s, t, count);
      case BatchInsert(ok) => if ok { BatchInsertedKeeps(s); } else { BatchFailedKeeps(s); }
      case BatchNote => BatchNotedKeeps(s);
      case Attach(v) => AttachKeeps(s, v);
      case Settle(v, timedOut) => SettleKeeps(s, v, timedOut);
      case ReadSeed(v, served) => ReadSeedKeeps(s, v, served);
      case Receive(v) => ReceiveKeeps(s, v);
      case Detach(v) => DetachKeeps(s, t, v);
      case Respawn(banner, seedOk, bannerOk) =>
        RowsNumbered(s);
        RespawnKeeps(s, banner, seedOk, bannerOk);
    }
  }

  lemma RowsNumbered(s: State)
    requires Inv(s)
    ensures forall q :: q in s.rows ==> s.rows[q].no == q
  {
  }

  lemma {:induction false} RunKeeps(cap: nat, steps: seq<Step>)
    ensures Inv(Run(Init(cap), steps))
  {
    if steps == [] {
      assert Viewing(Init(cap));
    } else {
      RunKeeps(cap, steps[..|steps| - 1]);
      NextKeeps(Run(Init(cap), steps[..|steps| - 1]), steps[|steps| - 1]);
    }
  }
}
