/**
 The terminal attach protocol.

 A PTY reader thread, input and resize handlers, a database batcher and any
 number of attaching viewers share one session. Sequence numbers are assigned
 under the parser lock; sending a frame to viewers is a separate, later step.
 `Core` is the state behind that lock together with the shared channel and the
 persistence watermark, `TerminalSession` updates it in place, and `State` adds
 the program counters of the threads so that every interleaving is a sequence
 of `Step`s.
 */
module Terminal {
  import opened Lists

  const CHUNK_BYTES := 4096
  const CHANNEL_CAPACITY := 256
  const BATCH_MAX := 128
  const SEED_MAX_ROWS := 512
  const MAX_COLS := 500
  const MAX_ROWS := 200

  newtype Byte = b: int | 0 <= b < 256
  type Bytes = seq<Byte>

  datatype Body = Output(bytes: Bytes) | Input(bytes: Bytes) | Resize(cols: nat, rows: nat)

  datatype Frame = Frame(no: nat, body: Body)

  /** A vt100 screen is determined by what has been applied to it, in order. */
  datatype Effect = Process(bytes: Bytes) | SetSize(rows: nat, cols: nat)
  type Screen = seq<Effect>

  function EffectsOf(body: Body): Screen {
    match body
    case Output(bytes) => [Process(bytes)]
    case Input(_) => []
    case Resize(cols, rows) => [SetSize(rows, cols)]
  }

  function Effects(fs: seq<Frame>): Screen {
    if fs == [] then [] else Effects(fs[..|fs| - 1]) + EffectsOf(fs[|fs| - 1].body)
  }

  // ---------------------------------------------------------------------
  // Frame selections
  // ---------------------------------------------------------------------

  predicate IsOutput(f: Frame) { f.body.Output? }

  function Outputs(fs: seq<Frame>): seq<Frame> { Filter(IsOutput, fs) }

  /** What a forwarder with boundary `n` lets through. */
  function From(n: nat, fs: seq<Frame>): seq<Frame> { Filter((f: Frame) => n <= f.no, fs) }

  /** The output frames whose insertion has not failed. */
  function KeptOutputs(lost: set<nat>, fs: seq<Frame>): seq<Frame> {
    Filter((f: Frame) => f.body.Output? && f.no !in lost, fs)
  }

  predicate Increasing(fs: seq<Frame>) {
    forall i, j :: 0 <= i < j < |fs| ==> fs[i].no < fs[j].no
  }

  predicate Distinct(fs: seq<Frame>) {
    forall i, j :: 0 <= i < j < |fs| ==> fs[i].no != fs[j].no
  }

  lemma {:induction false} FilterIncreasing(p: Frame -> bool, fs: seq<Frame>)
    requires Increasing(fs)
    ensures Increasing(Filter(p, fs))
  {
    if fs != [] {
      var n := |fs| - 1;
      FilterIncreasing(p, fs[..n]);
      FilterMembers(p, fs[..n]);
      forall i | 0 <= i < |Filter(p, fs[..n])| ensures Filter(p, fs[..n])[i].no < fs[n].no {
        assert Filter(p, fs[..n])[i] in fs[..n];
      }
    }
  }

  lemma {:induction false} FilterDistinct(p: Frame -> bool, fs: seq<Frame>)
    requires Distinct(fs)
    ensures Distinct(Filter(p, fs))
  {
    if fs != [] {
      var n := |fs| - 1;
      FilterDistinct(p, fs[..n]);
      FilterMembers(p, fs[..n]);
      forall i | 0 <= i < |Filter(p, fs[..n])| ensures Filter(p, fs[..n])[i].no != fs[n].no {
        assert Filter(p, fs[..n])[i] in fs[..n];
      }
    }
  }

  // ---------------------------------------------------------------------
  // The scrollback seed
  // ---------------------------------------------------------------------

  function Size(f: Frame): nat { if f.body.Resize? then 0 else |f.body.bytes| }

  function TotalSize(fs: seq<Frame>): nat {
    if fs == [] then 0 else Size(fs[0]) + TotalSize(fs[1..])
  }

  /**
   How many of the newest of `rows` the seed query keeps: at most 512, always
   the newest, and no older row that would pass the byte cap.
   */
  function SeedCount(rows: seq<Frame>, cap: nat, kept: nat, total: nat): (k: nat)
    requires kept <= |rows| && kept <= SEED_MAX_ROWS
    ensures kept <= k <= |rows| && k <= SEED_MAX_ROWS
    decreases |rows| - kept
  {
    if kept == |rows| || kept == SEED_MAX_ROWS then kept
    else
      var size := Size(rows[|rows| - 1 - kept]);
      if kept != 0 && total + size > cap then kept
      else if total + size >= cap then kept + 1
      else SeedCount(rows, cap, kept + 1, total + size)
  }

  function Seed(rows: seq<Frame>, cap: nat): (seed: seq<Frame>) {
    rows[|rows| - SeedCount(rows, cap, 0, 0)..]
  }

  /** The size of the newest `k` rows. */
  function Newest(rows: seq<Frame>, k: nat): nat
    requires k <= |rows|
  {
    TotalSize(rows[|rows| - k..])
  }

  /**
   How many rows the byte cap and the row limit admit: the newest one always,
   further ones only while below the cap and not past it, and as many as that.
   */
  ghost predicate Admits(rows: seq<Frame>, cap: nat, k: nat) {
    && k <= |rows| && k <= 512 && (rows != [] ==> k != 0)
    && (k > 1 ==> Newest(rows, k) <= cap && Newest(rows, k - 1) < cap)
    && (k < |rows| && k < 512 ==> Newest(rows, k + 1) > cap || Newest(rows, k) >= cap)
  }

  lemma NewestNext(rows: seq<Frame>, k: nat)
    requires k < |rows|
    ensures Newest(rows, k + 1) == Size(rows[|rows| - 1 - k]) + Newest(rows, k)
  {
    assert rows[|rows| - k - 1..][1..] == rows[|rows| - k..];
  }

  lemma {:induction false} NewestGrows(rows: seq<Frame>, j: nat, k: nat)
    requires j <= k <= |rows|
    ensures Newest(rows, j) <= Newest(rows, k)
  {
    if j < k {
      NewestGrows(rows, j, k - 1);
      NewestNext(rows, k - 1);
    }
  }

  lemma AdmitsFewer(rows: seq<Frame>, cap: nat, j: nat, k: nat)
    requires Admits(rows, cap, j) && Admits(rows, cap, k)
    ensures j >= k
  {
    hide TotalSize, Newest;
    if j < k {
      NewestGrows(rows, j, k - 1);
      NewestGrows(rows, j + 1, k);
    }
  }

  lemma {:induction false} CountAdmits(rows: seq<Frame>, cap: nat, kept: nat)
    requires kept <= |rows| && kept <= SEED_MAX_ROWS && (kept != 0 ==> Newest(rows, kept) < cap)
    ensures Admits(rows, cap, SeedCount(rows, cap, kept, Newest(rows, kept)))
    decreases |rows| - kept
  {
    hide TotalSize, Newest;
    if kept < |rows| && kept < SEED_MAX_ROWS {
      NewestNext(rows, kept);
      if Newest(rows, kept + 1) < cap { CountAdmits(rows, cap, kept + 1); }
    }
    if kept > 1 { NewestGrows(rows, kept - 1, kept); }
  }

  /** The seed is the newest rows that are admitted, and no other number is. */
  lemma SeedAdmitted(rows: seq<Frame>, cap: nat, k: nat)
    ensures Seed(rows, cap) == rows[|rows| - |Seed(rows, cap)|..]
    ensures Admits(rows, cap, k) <==> k == |Seed(rows, cap)|
  {
    hide SeedCount, Admits, TotalSize;
    assert Newest(rows, 0) == 0 by { NothingTotals(rows); }
    CountAdmits(rows, cap, 0);
    if Admits(rows, cap, k) {
      AdmitsFewer(rows, cap, k, SeedCount(rows, cap, 0, 0));
      AdmitsFewer(rows, cap, SeedCount(rows, cap, 0, 0), k);
    }
  }

  lemma NothingTotals(rows: seq<Frame>)
    ensures TotalSize(rows[|rows|..]) == 0
  {
  }

  /** The newest-first scan of `tail_terminal_output`. */
  method TailOutput(rows: seq<Frame>, cap: nat) returns (seed: seq<Frame>)
    ensures seed == Seed(rows, cap)
    ensures |seed| <= |rows| && seed == rows[|rows| - |seed|..] && Admits(rows, cap, |seed|)
  {
    hide Admits, Newest;
    SeedAdmitted(rows, cap, |Seed(rows, cap)|);
    var total := 0;
    seed := [];
    while |seed| < |rows| && |seed| < SEED_MAX_ROWS
      invariant |seed| <= |rows| && |seed| <= SEED_MAX_ROWS
      invariant seed == rows[|rows| - |seed|..]
      invariant total == TotalSize(seed)
      invariant SeedCount(rows, cap, 0, 0) == SeedCount(rows, cap, |seed|, total)
    {
      var row := rows[|rows| - 1 - |seed|];
      if seed != [] && total + Size(row) > cap {
        return;
      }
      assert ([row] + seed)[1..] == seed;
      total := total + Size(row);
      seed := [row] + seed;
      if total >= cap {
        return;
      }
    }
  }

  /** The persisted output rows below `bound`, oldest first. */
  function OutputRows(rows: map<nat, Frame>, bound: nat): seq<Frame> {
    if bound == 0 then []
    else OutputRows(rows, bound - 1)
         + if bound - 1 in rows && IsOutput(rows[bound - 1]) then [rows[bound - 1]] else []
  }

  // ---------------------------------------------------------------------
  // The shared session object
  // ---------------------------------------------------------------------

  datatype Core = Core(screen: Screen, next: nat, highWater: nat, persisted: nat, sent: seq<Frame>)

  function AssignOutput(c: Core, bytes: Bytes): Core {
    c.(screen := c.screen + [Process(bytes)], next := c.next + 1, highWater := c.next + 1)
  }

  function AssignCommand(c: Core, body: Body): Core {
    c.(screen := c.screen + EffectsOf(body), next := c.next + 1)
  }

  function Publish(c: Core, f: Frame): Core { c.(sent := c.sent + [f]) }

  /** The watermark after a successful insert of `batch`. */
  function NotedWatermark(watermark: nat, batch: seq<Frame>): nat {
    if batch == [] then watermark
    else
      var n := |batch| - 1;
      var rest := NotedWatermark(watermark, batch[..n]);
      if IsOutput(batch[n]) && rest < batch[n].no + 1 then batch[n].no + 1 else rest
  }

  /** Past every output of the batch. */
  ghost predicate Covers(w: nat, batch: seq<Frame>) { forall f :: f in batch && IsOutput(f) ==> f.no < w }

  /** It is the least number that is no lower than before and covers the batch. */
  lemma {:induction false} NotedWatermarkIsLeast(watermark: nat, batch: seq<Frame>, w: nat)
    ensures watermark <= NotedWatermark(watermark, batch) && Covers(NotedWatermark(watermark, batch), batch)
    ensures watermark <= w && Covers(w, batch) ==> NotedWatermark(watermark, batch) <= w
  {
    if batch != [] {
      var n := |batch| - 1;
      assert batch == batch[..n] + [batch[n]];
      NotedWatermarkIsLeast(watermark, batch[..n], w);
      assert batch[n] in batch;
      assert Covers(w, batch) ==> Covers(w, batch[..n]);
    }
  }

  class TerminalSession {
    var screen: Screen
    var next: nat
    var highWater: nat
    var persisted: nat
    var sent: seq<Frame>

    ghost function View(): Core
      reads this
    {
      Core(screen, next, highWater, persisted, sent)
    }

    constructor (base: nat, initial: Screen)
      ensures View() == Core(initial, base, 0, 0, [])
    {
      screen, next, highWater, persisted, sent := initial, base, 0, 0, [];
    }

    /** The critical section of `ingest_output`. */
    method IngestOutput(bytes: Bytes) returns (no: nat)
      modifies this
      ensures no == old(next) && View() == AssignOutput(old(View()), bytes)
      ensures screen == old(screen) + [Process(bytes)] && highWater == next == no + 1
      ensures persisted == old(persisted) && sent == old(sent)
    {
      screen := screen + [Process(bytes)];
      no := next;
      next := next + 1;
      highWater := no + 1;
    }

    /** The critical sections of `write_input` and `resize`. */
    method AssignCommandSeq(body: Body) returns (no: nat)
      requires !body.Output?
      modifies this
      ensures no == old(next) && View() == AssignCommand(old(View()), body)
      ensures next == no + 1 && highWater == old(highWater) && persisted == old(persisted) && sent == old(sent)
      ensures body.Input? ==> screen == old(screen)
      ensures body.Resize? ==>
        && |screen| == |old(screen)| + 1 && old(screen) <= screen
        && screen[|screen| - 1].SetSize?
        && screen[|screen| - 1].rows == body.rows && screen[|screen| - 1].cols == body.cols
    {
      if body.Resize? {
        screen := screen + [SetSize(body.rows, body.cols)];
      }
      no := next;
      next := next + 1;
    }

    method Broadcast(f: Frame)
      modifies this`sent
      ensures View() == Publish(old(View()), f)
    {
      sent := sent + [f];
    }

    /** The critical section of `attach_with`; it changes nothing. */
    method Attach() returns (boundary: nat, snapshot: Screen, cursor: nat, settle: nat)
      ensures boundary == next && snapshot == screen && cursor == |sent| && settle == highWater
    {
      boundary := next;
      snapshot := screen;
      cursor := |sent|;
      settle := highWater;
    }

    /** `note_persisted`: raise the watermark to the newest output of the batch. */
    method NotePersisted(batch: seq<Frame>)
      modifies this`persisted
      ensures View() == old(View()).(persisted := NotedWatermark(old(persisted), batch))
      ensures old(persisted) <= persisted && Covers(persisted, batch)
    {
      var i := 0;
      while i < |batch|
        invariant 0 <= i <= |batch|
        invariant persisted == NotedWatermark(old(persisted), batch[..i])
      {
        assert batch[..i + 1][..i] == batch[..i];
        if batch[i].body.Output? && persisted < batch[i].no + 1 {
          persisted := batch[i].no + 1;
        }
        i := i + 1;
      }
      assert batch[..i] == batch;
      NotedWatermarkIsLeast(old(persisted), batch, persisted);
    }
  }
}
