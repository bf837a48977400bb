/**
 Everything a session has ever output, across respawns. A respawn forgets what
 was never stored; the history does not, and says which chunks are missing.
 */
module TerminalHistory {
  import opened Lists
  import opened Terminal
  import opened TerminalProtocol

  /** An output frame, and whether it never reached the database. */
  datatype Chunk = Chunk(frame: Frame, missing: bool)

  function Marked(fs: seq<Frame>, missing: set<nat>): (r: seq<Chunk>)
    ensures |r| == |fs| && forall i :: 0 <= i < |r| ==> r[i] == Chunk(fs[i], fs[i].no in missing)
  {
    seq(|fs|, i requires 0 <= i < |fs| => Chunk(fs[i], fs[i].no in missing))
  }

  function AllFrames(chunks: seq<Chunk>): (r: seq<Frame>)
    ensures |r| == |chunks| && forall i :: 0 <= i < |r| ==> r[i] == chunks[i].frame
  {
    seq(|chunks|, i requires 0 <= i < |chunks| => chunks[i].frame)
  }

  /** The frames of the chunks that are not missing. */
  function Present(chunks: seq<Chunk>): (r: seq<Frame>)
    ensures |r| <= |chunks|
  {
    if chunks == [] then []
    else
      var n := |chunks| - 1;
      Present(chunks[..n]) + if chunks[n].missing then [] else [chunks[n].frame]
  }

  /** Output that dies with the daemon: in a failed batch, or not yet handed to the database. */
  function Unstored(s: State): set<nat> { s.lost + Numbers(NotOffered(s)) }

  /** The output of all earlier epochs, in order. */
  function Earlier(cap: nat, steps: seq<Step>): seq<Chunk> {
    if steps == [] then []
    else
      var n := |steps| - 1;
      var s := Run(Init(cap), steps[..n]);
      Earlier(cap, steps[..n]) + if steps[n].Respawn? then Marked(Outputs(s.frames), Unstored(s)) else []
  }

  // ---------------------------------------------------------------------
  // Chunks
  // ---------------------------------------------------------------------

  lemma {:induction false} PresentConcat(a: seq<Chunk>, b: seq<Chunk>)
    ensures Present(a + b) == Present(a) + Present(b)
    decreases |b|
  {
    if b == [] {
      assert a + b == a;
    } else {
      var n := |b| - 1;
      assert (a + b)[..|a| + n] == a + b[..n];
      PresentConcat(a, b[..n]);
    }
  }

  lemma {:induction false} PresentAll(chunks: seq<Chunk>)
    requires forall i :: 0 <= i < |chunks| ==> !chunks[i].missing
    ensures Present(chunks) == AllFrames(chunks)
  {
    if chunks != [] {
      var n := |chunks| - 1;
      PresentAll(chunks[..n]);
      assert AllFrames(chunks) == AllFrames(chunks[..n]) + [chunks[n].frame];
    }
  }

  lemma {:induction false} PresentMembers(chunks: seq<Chunk>, k: nat)
    requires k < |Present(chunks)|
    ensures exists j :: 0 <= j < |chunks| && !chunks[j].missing && chunks[j].frame == Present(chunks)[k]
  {
    var n := |chunks| - 1;
    if k < |Present(chunks[..n])| {
      PresentMembers(chunks[..n], k);
      var j :| 0 <= j < n && !chunks[..n][j].missing && chunks[..n][j].frame == Present(chunks[..n])[k];
      assert chunks[j].frame == Present(chunks)[k];
    }
  }

  lemma {:induction false} PresentMarked(fs: seq<Frame>, missing: set<nat>)
    ensures Present(Marked(fs, missing)) == Filter((f: Frame) => f.no !in missing, fs)
  {
    if fs != [] {
      var n := |fs| - 1;
      PresentMarked(fs[..n], missing);
      assert Marked(fs, missing)[..n] == Marked(fs[..n], missing);
    }
  }

  /** Keeping outputs that are not lost, in one filter or two. */
  lemma {:induction false} KeptTwice(lost: set<nat>, fs: seq<Frame>)
    ensures KeptOutputs(lost, fs) == Filter((f: Frame) => f.no !in lost, Outputs(fs))
  {
    if fs != [] {
      var n := |fs| - 1;
      KeptTwice(lost, fs[..n]);
      if IsOutput(fs[n]) {
        assert Outputs(fs) == Outputs(fs[..n]) + [fs[n]];
        FilterAppend((f: Frame) => f.no !in lost, Outputs(fs[..n]), fs[n]);
      } else {
        assert Outputs(fs) == Outputs(fs[..n]);
      }
    }
  }

  /** A chunk that was stored has a lower number than anything output after it, in whatever epoch. */
  ghost predicate Ascending(chunks: seq<Chunk>) {
    forall i, j :: 0 <= i < j < |chunks| && !chunks[i].missing ==> chunks[i].frame.no < chunks[j].frame.no
  }

  lemma PresentEnd(chunks: seq<Chunk>, m: nat)
    requires m <= |Present(chunks)| && forall i :: |chunks| - m <= i < |chunks| ==> !chunks[i].missing
    ensures AllFrames(chunks)[|chunks| - m..] == Present(chunks)[|Present(chunks)| - m..]
  {
    hide Present;
    var k := |chunks| - m;
    assert chunks == chunks[..k] + chunks[k..];
    PresentConcat(chunks[..k], chunks[k..]);
    PresentAll(chunks[k..]);
    assert AllFrames(chunks)[k..] == AllFrames(chunks[k..]);
  }

  /** The newest chunks are the newest stored ones exactly when none of them is missing. */
  lemma SuffixIff(chunks: seq<Chunk>, m: nat)
    requires Ascending(chunks) && m <= |Present(chunks)|
    ensures AllFrames(chunks)[|chunks| - m..] == Present(chunks)[|Present(chunks)| - m..] <==>
            forall i :: |chunks| - m <= i < |chunks| ==> !chunks[i].missing
  {
    hide *;
    if i :| |chunks| - m <= i < |chunks| && chunks[i].missing {
      MissingShifts(chunks, i, m);
    } else {
      PresentEnd(chunks, m);
    }
  }

  lemma PresentAround(chunks: seq<Chunk>, i: nat)
    requires i < |chunks| && chunks[i].missing
    ensures Present(chunks) == Present(chunks[..i]) + Present(chunks[i + 1..])
  {
    assert chunks[..i + 1][..i] == chunks[..i];
    assert Present(chunks[..i + 1]) == Present(chunks[..i]);
    assert chunks == chunks[..i + 1] + chunks[i + 1..];
    PresentConcat(chunks[..i + 1], chunks[i + 1..]);
  }

  lemma AscendingAt(chunks: seq<Chunk>, i: nat, j: nat)
    requires Ascending(chunks) && i < j < |chunks| && !chunks[i].missing
    ensures chunks[i].frame.no < chunks[j].frame.no
  {
  }

  /** A missing chunk among the newest puts an older, lower-numbered one in its place. */
  lemma MissingShifts(chunks: seq<Chunk>, i: nat, m: nat)
    requires Ascending(chunks) && m <= |Present(chunks)| && |chunks| - m <= i < |chunks| && chunks[i].missing
    ensures AllFrames(chunks)[|chunks| - m..] != Present(chunks)[|Present(chunks)| - m..]
  {
    hide Present, Ascending;
    var stored, older := Present(chunks), Present(chunks[..i]);
    var back := |chunks| - i;
    PresentAround(chunks, i);
    assert |stored| - back < |older|;
    PresentMembers(chunks[..i], |stored| - back);
    var j :| 0 <= j < i && !chunks[..i][j].missing && chunks[..i][j].frame == older[|stored| - back];
    assert chunks[j].frame.no < chunks[i].frame.no by { AscendingAt(chunks, j, i); }
    assert AllFrames(chunks)[|chunks| - m..][m - back] == chunks[i].frame;
    assert stored[|stored| - m..][m - back] == stored[|stored| - back];
  }

  // ---------------------------------------------------------------------
  // What survives a respawn
  // ---------------------------------------------------------------------

  lemma {:induction false} RowsBeyond(rows: map<nat, Frame>, n: nat, m: nat)
    requires n <= m && forall q :: q in rows ==> q < n
    ensures OutputRows(rows, m) == OutputRows(rows, n)
  {
    if n < m { RowsBeyond(rows, n, m - 1); }
  }

  lemma {:induction false} RowsBounded(rows: map<nat, Frame>, bound: nat)
    requires forall q :: q in rows ==> rows[q].no == q
    ensures forall f :: f in OutputRows(rows, bound) ==> f.no < bound
  {
    if bound > 0 { RowsBounded(rows, bound - 1); }
  }

  /** Of the frames of an epoch, exactly the unstored output is not in the rows. */
  lemma EpochDecided(s: State)
    requires Inv(s)
    ensures forall f :: f in s.frames ==> RowDecided(s.rows, Unstored(s), f)
    ensures Numbered(s.base, s.frames) && s.prior == OutputRows(s.rows, s.base)
    ensures forall q :: q in s.rows ==> q < s.base + |s.frames| && s.rows[q].no == q
  {
    hide Effects, Viewing, Broadcasting, Threads, Persisting, OutputRows, NotOffered, Filter, Unstored, RowDecided;
    forall f | f in s.frames ensures RowDecided(s.rows, Unstored(s), f) {
      StoredUnlessOffered(s, f);
    }
  }

  lemma OutputPlaced(s: State, f: Frame)
    requires Lines(s) && f in s.frames
    ensures Assigned(s.base, s.frames, f.no) && s.frames[f.no - s.base] == f
    ensures IsOutput(f) ==> f in s.settled || f in BatchFrames(s) || f in Following(s)
  {
    hide Effects, Broadcasting, Threads, Persisting, Filter, Following, BatchFrames;
    FilterMembers(IsOutput, s.frames);
    BatchOrder(s);
  }

  lemma StoredUnlessOffered(s: State, f: Frame)
    requires Inv(s) && f in s.frames
    ensures RowDecided(s.rows, Unstored(s), f)
  {
    hide Lines, Viewing, OutputRows, NotOffered, Following;
    OutputPlaced(s, f);
    NotOfferedFollows(s);
  }

  /** A respawn starts from the rows of earlier epochs followed by the stored output of the one that ended. */
  lemma RespawnedPrior(s: State)
    requires Inv(s)
    ensures OutputRows(s.rows, NextSeq(s.rows))
            == s.prior + Present(Marked(Outputs(s.frames), Unstored(s)))
  {
    hide OutputRows, Filter, NextSeq, RowDecided, Inv, Unstored;
    EpochDecided(s);
    var top := s.base + |s.frames|;
    var n := NextSeq(s.rows);
    RowsBeyond(s.rows, n, if n <= top then top else n);
    assert n <= top by { NextSeqBelow(s.rows, top); }
    RowsBelow(s.rows, Unstored(s), s.base, s.frames);
    KeptTwice(Unstored(s), s.frames);
    PresentMarked(Outputs(s.frames), Unstored(s));
  }

  lemma NextSeqBelow(rows: map<nat, Frame>, top: nat)
    requires forall q :: q in rows ==> q < top
    ensures NextSeq(rows) <= top
  {
  }

  lemma PriorKept(s: State, step: Step)
    requires !step.Respawn?
    ensures Next(s, step).prior == s.prior && Next(s, step).base == s.base
  {
    hide Received, OutputRows, SeedCount, InsertAll, NotedWatermark;
  }

  /** What an epoch starts from is exactly what was stored of all output before it, in order. */
  lemma {:induction false} PriorIsWhatSurvived(cap: nat, steps: seq<Step>)
    ensures Run(Init(cap), steps).prior == Present(Earlier(cap, steps))
  {
    hide Next, Present, Marked;
    if steps == [] {
      assert Present([]) == [] by { NothingPresent(); }
    } else {
      var n := |steps| - 1;
      var s := Run(Init(cap), steps[..n]);
      PriorIsWhatSurvived(cap, steps[..n]);
      RunKeeps(cap, steps[..n]);
      if steps[n].Respawn? {
        RespawnedPrior(s);
        PresentConcat(Earlier(cap, steps[..n]), Marked(Outputs(s.frames), Unstored(s)));
        NextRespawned(s, steps[n]);
      } else {
        PriorKept(s, steps[n]);
        assert Earlier(cap, steps) == Earlier(cap, steps[..n]);
      }
    }
  }

  lemma NothingPresent()
    ensures Present([]) == []
  {
  }

  lemma NextRespawned(s: State, step: Step)
    requires step.Respawn?
    ensures Next(s, step).prior == OutputRows(s.rows, NextSeq(s.rows))
  {
  }

  lemma AscendingConcat(a: seq<Chunk>, fs: seq<Frame>, missing: set<nat>, base: nat)
    requires Ascending(a) && Increasing(fs)
    requires forall i :: 0 <= i < |a| && !a[i].missing ==> a[i].frame.no < base
    requires forall f :: f in fs ==> base <= f.no
    ensures Ascending(a + Marked(fs, missing))
  {
  }

  lemma {:induction false} InPresent(chunks: seq<Chunk>, i: nat)
    requires i < |chunks| && !chunks[i].missing
    ensures chunks[i].frame in Present(chunks)
  {
    if i < |chunks| - 1 { InPresent(chunks[..|chunks| - 1], i); }
  }

  /** Stored output of earlier epochs is numbered below the current one. */
  lemma EarlierBelow(cap: nat, steps: seq<Step>)
    ensures forall i :: 0 <= i < |Earlier(cap, steps)| && !Earlier(cap, steps)[i].missing ==>
              Earlier(cap, steps)[i].frame.no < Run(Init(cap), steps).base
  {
    hide Run, Earlier, Present, Inv;
    var s := Run(Init(cap), steps);
    RunKeeps(cap, steps);
    EpochDecided(s);
    RowsBounded(s.rows, s.base);
    PriorIsWhatSurvived(cap, steps);
    forall i | 0 <= i < |Earlier(cap, steps)| && !Earlier(cap, steps)[i].missing
      ensures Earlier(cap, steps)[i].frame.no < s.base
    {
      InPresent(Earlier(cap, steps), i);
    }
  }

  lemma FramesAscend(s: State, k: nat)
    requires Inv(s) && k <= |s.frames|
    ensures Increasing(Outputs(s.frames[..k])) && forall f :: f in Outputs(s.frames[..k]) ==> s.base <= f.no
  {
    hide Effects, Viewing, Broadcasting, Threads, Persisting, Stored, Filter;
    NumberedPrefix(s.base, s.frames, k);
    OutputsIdentified(s.base, s.frames[..k]);
  }

  lemma {:induction false} EarlierAscends(cap: nat, steps: seq<Step>)
    ensures Ascending(Earlier(cap, steps))
  {
    hide Ascending, Marked, Increasing;
    if steps == [] {
      assert Ascending([]) by { NothingAscends(); }
    } else {
      var n := |steps| - 1;
      EarlierAscends(cap, steps[..n]);
      if steps[n].Respawn? {
        var s := Run(Init(cap), steps[..n]);
        RunKeeps(cap, steps[..n]);
        EarlierBelow(cap, steps[..n]);
        hide Inv, Run;
        FramesAscend(s, |s.frames|);
        assert s.frames[..|s.frames|] == s.frames;
        AscendingConcat(Earlier(cap, steps[..n]), Outputs(s.frames), Unstored(s), s.base);
      } else {
        assert Earlier(cap, steps) == Earlier(cap, steps[..n]);
      }
    }
  }

  lemma NothingAscends()
    ensures Ascending([])
  {
  }

  // ---------------------------------------------------------------------
  // How far back a seed goes
  // ---------------------------------------------------------------------

  /** Having admitted the newest `m` rows, the scan stops. */
  predicate Stops(rows: seq<Frame>, cap: nat, m: nat)
    requires m <= |rows|
  {
    var total := TotalSize(rows[|rows| - m..]);
    m == |rows| || m == SEED_MAX_ROWS || (m != 0 && total >= cap)
    || (m != 0 && total + Size(rows[|rows| - 1 - m]) > cap)
  }

  /** One turn of the scan. */
  lemma ScanTurn(rows: seq<Frame>, cap: nat, kept: nat, total: nat)
    requires kept <= |rows| && kept <= SEED_MAX_ROWS
    ensures SeedCount(rows, cap, kept, total)
         == if kept == |rows| || kept == SEED_MAX_ROWS then kept
            else
              var with := total + Size(rows[|rows| - 1 - kept]);
              if kept != 0 && with > cap then kept
              else if with >= cap then kept + 1
              else SeedCount(rows, cap, kept + 1, with)
  {
  }

  /** Scans of lists with the same newest rows go the same way for as long as those last. */
  lemma {:induction false} SameScan(a: seq<Frame>, b: seq<Frame>, cap: nat, kept: nat, total: nat)
    requires kept <= |a| && kept <= SEED_MAX_ROWS && kept <= SeedCount(a, cap, kept, total) <= |b|
    requires total == TotalSize(a[|a| - kept..]) && (kept != 0 ==> total < cap)
    requires var m := SeedCount(a, cap, kept, total); a[|a| - m..] == b[|b| - m..]
    ensures var m := SeedCount(a, cap, kept, total); SeedCount(b, cap, kept, total) == m <==> Stops(b, cap, m)
    decreases |a| - kept
  {
    hide SeedCount, TotalSize;
    var m := SeedCount(a, cap, kept, total);
    ScanTurn(a, cap, kept, total);
    ScanTurn(b, cap, kept, total);
    if kept < m {
      var x := a[|a| - 1 - kept];
      assert a[|a| - m..][m - 1 - kept] == x && b[|b| - m..][m - 1 - kept] == b[|b| - 1 - kept];
      NewestNext(a, kept);
      if total + Size(x) < cap { SameScan(a, b, cap, kept + 1, total + Size(x)); }
    }
  }

  lemma SeedCountBounded(rows: seq<Frame>, cap: nat)
    ensures |Seed(rows, cap)| == SeedCount(rows, cap, 0, 0) && (rows != [] ==> Seed(rows, cap) != [])
    ensures Seed(rows, cap) == rows[|rows| - |Seed(rows, cap)|..]
  {
  }

  /** Two lists give one seed exactly when the second ends in the first's and its scan stops there too. */
  lemma SameSeed(all: seq<Frame>, stored: seq<Frame>, cap: nat)
    ensures var m := |Seed(all, cap)|;
      Seed(stored, cap) == Seed(all, cap) <==>
      m <= |stored| && all[|all| - m..] == stored[|stored| - m..] && Stops(stored, cap, m)
  {
    hide SeedCount, Stops, TotalSize, Seed;
    var m := |Seed(all, cap)|;
    SeedCountBounded(all, cap);
    SeedCountBounded(stored, cap);
    if m <= |stored| && all[|all| - m..] == stored[|stored| - m..] {
      NothingTotals(all);
      SameScan(all, stored, cap, 0, 0);
    }
  }

  /**
   The seed read from the stored rows is the one that all output would give
   exactly when no chunk of the latter is missing and the scan stops there too.
   */
  lemma SeedIff(chunks: seq<Chunk>, cap: nat)
    requires Ascending(chunks)
    ensures var stored := Present(chunks);
      var m := |Seed(AllFrames(chunks), cap)|;
      Seed(stored, cap) == Seed(AllFrames(chunks), cap) <==>
      && (forall i :: |chunks| - m <= i < |chunks| ==> !chunks[i].missing)
      && m <= |stored| && Stops(stored, cap, m)
  {
    hide Present, Ascending, Stops, Seed, AllFrames;
    var stored := Present(chunks);
    var m := |Seed(AllFrames(chunks), cap)|;
    SeedCountBounded(AllFrames(chunks), cap);
    SameSeed(AllFrames(chunks), stored, cap);
    if m <= |stored| {
      SuffixIff(chunks, m);
    }
  }
}
