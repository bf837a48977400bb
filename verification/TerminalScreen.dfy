/** What is on a viewer's screen, told by the frames themselves. */
module TerminalScreen {
  import opened Lists
  import opened Terminal
  import opened TerminalProtocol

  /** The change a frame makes: output is processed, a resize sets both dimensions, input shows nothing. */
  predicate Draws(f: Frame, e: Effect) {
    match f.body
    case Output(bytes) => e == Process(bytes)
    case Input(_) => false
    case Resize(cols, rows) => e.SetSize? && e.cols == cols && e.rows == rows
  }

  function Visible(fs: seq<Frame>): seq<Frame> { Filter((f: Frame) => !f.body.Input?, fs) }

  /** One change for each visible frame, in order. */
  ghost predicate Shows(fs: seq<Frame>, screen: Screen) {
    |screen| == |Visible(fs)| && forall i :: 0 <= i < |screen| ==> Draws(Visible(fs)[i], screen[i])
  }

  /** The bytes a screen was fed, and the bytes that frames output. */
  function Fed(screen: Screen): Bytes {
    if screen == [] then []
    else Fed(screen[..|screen| - 1]) + if screen[|screen| - 1].Process? then screen[|screen| - 1].bytes else []
  }

  function Text(fs: seq<Frame>): Bytes {
    if fs == [] then []
    else Text(fs[..|fs| - 1]) + if IsOutput(fs[|fs| - 1]) then fs[|fs| - 1].body.bytes else []
  }

  /** The last change of size on a screen, and the last resize among frames. */
  function LastSize(screen: Screen): (e: Option<Effect>)
    ensures e.Some? ==> e.value.SetSize?
  {
    if screen == [] then None
    else if screen[|screen| - 1].SetSize? then Some(screen[|screen| - 1])
    else LastSize(screen[..|screen| - 1])
  }

  function LastResize(fs: seq<Frame>): (f: Option<Frame>)
    ensures f.Some? ==> f.value.body.Resize?
  {
    if fs == [] then None
    else if fs[|fs| - 1].body.Resize? then Some(fs[|fs| - 1])
    else LastResize(fs[..|fs| - 1])
  }

  /** The screen has the size the last resize asked for, if there was one. */
  ghost predicate SizedBy(fs: seq<Frame>, screen: Screen) {
    match LastResize(fs)
    case None => LastSize(screen).None?
    case Some(f) =>
      LastSize(screen).Some?
      && LastSize(screen).value.rows == f.body.rows && LastSize(screen).value.cols == f.body.cols
  }

  lemma {:induction false} EffectsShow(fs: seq<Frame>)
    ensures Shows(fs, Effects(fs))
  {
    if fs != [] { EffectsShow(fs[..|fs| - 1]); }
  }

  lemma EffectsLast(fs: seq<Frame>)
    requires fs != []
    ensures var n := |fs| - 1;
      if fs[n].body.Input? then Effects(fs) == Effects(fs[..n])
      else
        && |Effects(fs)| == |Effects(fs[..n])| + 1 && Effects(fs)[..|Effects(fs)| - 1] == Effects(fs[..n])
        && Draws(fs[n], Effects(fs)[|Effects(fs)| - 1])
  {
  }

  lemma {:induction false} EffectsFeed(fs: seq<Frame>)
    ensures Fed(Effects(fs)) == Text(fs)
  {
    hide Effects;
    if fs == [] {
      assert Effects([]) == [] by { EffectsEmpty(); }
    } else {
      EffectsFeed(fs[..|fs| - 1]);
      EffectsLast(fs);
    }
  }

  lemma {:induction false} EffectsSize(fs: seq<Frame>)
    ensures SizedBy(fs, Effects(fs))
  {
    hide Effects;
    if fs == [] {
      assert Effects([]) == [] by { EffectsEmpty(); }
    } else {
      EffectsSize(fs[..|fs| - 1]);
      EffectsLast(fs);
    }
  }

  // ---------------------------------------------------------------------
  // The seed of a respawned screen
  // ---------------------------------------------------------------------

  /** Row `i` has its place in the bytes, after all older ones. */
  ghost predicate Placed(bytes: Bytes, rows: seq<Frame>, i: nat)
    requires i < |rows|
  {
    var at := TotalSize(rows[..i]);
    IsOutput(rows[i]) ==>
      at + |rows[i].body.bytes| <= |bytes| && bytes[at..at + |rows[i].body.bytes|] == rows[i].body.bytes
  }

  /** The bytes of the rows, one after another, oldest first. */
  ghost predicate Carries(bytes: Bytes, rows: seq<Frame>) {
    |bytes| == TotalSize(rows) && forall i :: 0 <= i < |rows| ==> Placed(bytes, rows, i)
  }

  lemma {:induction false} TotalSnoc(rows: seq<Frame>, f: Frame)
    ensures TotalSize(rows + [f]) == TotalSize(rows) + Size(f)
  {
    if rows != [] {
      assert (rows + [f])[1..] == rows[1..] + [f];
      TotalSnoc(rows[1..], f);
    }
  }

  lemma PlacedSnoc(bytes: Bytes, rows: seq<Frame>, more: Bytes, f: Frame, i: nat)
    requires i < |rows| && Placed(bytes, rows, i)
    ensures Placed(bytes + more, rows + [f], i)
  {
    hide TotalSize;
    assert (rows + [f])[..i] == rows[..i];
  }

  lemma PlacedLast(bytes: Bytes, rows: seq<Frame>, more: Bytes, f: Frame)
    requires |bytes| == TotalSize(rows) && (IsOutput(f) ==> more == f.body.bytes)
    ensures Placed(bytes + more, rows + [f], |rows|)
  {
    hide TotalSize;
    assert (rows + [f])[..|rows|] == rows;
  }

  lemma {:induction false} ConcatCarries(rows: seq<Frame>)
    ensures Carries(Concat(rows), rows)
  {
    hide Placed, TotalSize;
    if rows == [] {
      assert TotalSize(rows) == 0 by { NothingTotals([]); }
    } else {
      var n := |rows| - 1;
      var before, more := Concat(rows[..n]), Concat(rows)[|Concat(rows[..n])|..];
      ConcatCarries(rows[..n]);
      assert rows == rows[..n] + [rows[n]] && Concat(rows) == before + more;
      TotalSnoc(rows[..n], rows[n]);
      forall i | 0 <= i < |rows| ensures Placed(Concat(rows), rows, i) {
        if i < n {
          PlacedSnoc(before, rows[..n], more, rows[n], i);
        } else {
          PlacedLast(before, rows[..n], more, rows[n]);
        }
      }
    }
  }

  /** A session's screen starts empty, or with the output an earlier epoch left, as far back as the seed goes. */
  ghost predicate SeededBy(seedScreen: Screen, prior: seq<Frame>, cap: nat) {
    || seedScreen == []
    || (|seedScreen| == 1 && seedScreen[0].Process?
        && (seedScreen[0].bytes == [] || Carries(seedScreen[0].bytes, Seed(prior, cap))))
  }

  lemma SeededStep(s: State, step: Step)
    requires SeededBy(s.seedScreen, s.prior, s.cap)
    ensures var t := Next(s, step); SeededBy(t.seedScreen, t.prior, t.cap)
    ensures step.Respawn? ==>
      var t := Next(s, step);
      && |t.seedScreen| == 1 && t.seedScreen[0].Process?
      && if step.seedOk then Carries(t.seedScreen[0].bytes, Seed(t.prior, t.cap)) else t.seedScreen[0].bytes == []
  {
    hide Received, OutputRows, Seed, InsertAll, NotedWatermark, Carries, Concat;
    if step.Respawn? {
      ConcatCarries(Seed(OutputRows(s.rows, NextSeq(s.rows)), s.cap));
    }
  }

  lemma {:induction false} RunSeeded(cap: nat, steps: seq<Step>)
    ensures var s := Run(Init(cap), steps); SeededBy(s.seedScreen, s.prior, s.cap) && s.cap == cap
  {
    hide Next, SeededBy;
    if steps == [] {
      assert SeededBy([], [], cap) by { EmptySeeded(cap); }
    } else {
      var n := |steps| - 1;
      RunSeeded(cap, steps[..n]);
      SeededStep(Run(Init(cap), steps[..n]), steps[n]);
      CapKept(Run(Init(cap), steps[..n]), steps[n]);
    }
  }

  lemma EmptySeeded(cap: nat)
    ensures SeededBy([], [], cap)
  {
  }

  lemma CapKept(s: State, step: Step)
    ensures Next(s, step).cap == s.cap
  {
    hide Received, OutputRows, Seed, InsertAll, NotedWatermark, Concat, NextSeq;
  }
}
