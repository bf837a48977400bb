/** What every run of the config transaction promises. */
module ConfigTheorems {
  import opened Lists
  import opened ConfigTxn

  /** Whatever interleaves or crashes, the file is the serial replay of the commits, in lock order. */
  lemma FileIsSerialReplay(content: Content, calls: Calls, steps: seq<Step>)
    ensures var s := Run(content, calls, steps);
      && s.content == Replay(content, calls, s.commits)
      && s.commits == Filter((c: Caller) => c in s.commits, s.acquired)
      && NoRepeats(s.acquired)
  {
    RunKeeps(content, calls, steps);
  }

  /** A call that returned success is committed, at the state it saw when it took the lock. */
  lemma SuccessIsCommitted(content: Content, calls: Calls, steps: seq<Step>, c: Caller)
    requires At(Run(content, calls, steps), c) == Done(Ok(()))
    ensures var s := Run(content, calls, steps);
      && c in s.base && s.base[c] < |s.commits| && s.commits[s.base[c]] == c
      && Applies(calls, c, Replay(content, calls, s.commits[..s.base[c]]),
                 Replay(content, calls, s.commits[..s.base[c] + 1]))
  {
    RunKeeps(content, calls, steps);
    RunApplied(content, calls, steps);
    hide Applies, Replay, Run;
  }

  /** The one reason for each refusal. */
  ghost predicate Refuses(calls: Calls, c: Caller, before: Content, e: Error) {
    match e
    case Corrupt => before == Garbage
    case NotAnObject => before == NonObject
    case Rejected(reason) => exists doc :: Reads(before, doc) && calls.mutate(c)(doc) == Err(reason)
    case _ => true
  }

  lemma RefusedFor(calls: Calls, c: Caller, before: Content, e: Error)
    requires Updated(before, calls.mutate(c)) == Err(e)
    ensures Refuses(calls, c, before, e)
  {
    if Parsed(before).Ok? { assert Reads(before, Parsed(before).value); }
  }

  /** A call that returned an error changed nothing; unless a system call failed, the file gave it that reason. */
  lemma FailureChangesNothing(content: Content, calls: Calls, steps: seq<Step>, c: Caller, e: Error)
    requires At(Run(content, calls, steps), c) == Done(Err(e))
    ensures var s := Run(content, calls, steps);
      && c !in s.commits
      && (e != Io && e != Panicked ==>
            c in s.base && s.base[c] <= |s.commits|
            && Refuses(calls, c, Replay(content, calls, s.commits[..s.base[c]]), e))
  {
    RunKeeps(content, calls, steps);
    hide Replay, Run, Refuses, Updated;
    if e != Io && e != Panicked {
      var s := Run(content, calls, steps);
      RefusedFor(calls, c, Replay(content, calls, s.commits[..s.base[c]]), e);
    }
  }

  /** A config that is not a JSON object is never overwritten. */
  lemma {:induction false} UnreadableIsKept(content: Content, calls: Calls, steps: seq<Step>)
    requires content.Garbage? || content.NonObject?
    ensures Run(content, calls, steps).content == content && Run(content, calls, steps).commits == []
  {
    RunKeeps(content, calls, steps);
    if steps != [] {
      UnreadableIsKept(content, calls, steps[..|steps| - 1]);
      RunKeeps(content, calls, steps[..|steps| - 1]);
      UnreadableStep(content, calls, Run(content, calls, steps[..|steps| - 1]), steps[|steps| - 1]);
    }
  }

  lemma UnreadableStep(content: Content, calls: Calls, s: State, step: Step)
    requires Inv(content, calls, s) && s.content == content && s.commits == []
    requires content.Garbage? || content.NonObject?
    ensures Next(s, calls, step).content == content && Next(s, calls, step).commits == []
  {
    if step.Rename? && At(s, step.c).Written? { HolderKnows(content, calls, s, step.c); }
    hide Inv, Replay;
  }

  // ---------------------------------------------------------------------
  // No update is lost
  // ---------------------------------------------------------------------

  /** The second content is the first with the caller's mutation applied. */
  ghost predicate Applies(calls: Calls, c: Caller, before: Content, after: Content) {
    exists doc :: Reads(before, doc) && calls.mutate(c)(doc).Ok? && after == Object(calls.mutate(c)(doc).value)
  }

  ghost predicate AllApplied(content: Content, calls: Calls, commits: seq<Caller>) {
    forall i :: 0 <= i < |commits| ==>
      Applies(calls, commits[i], Replay(content, calls, commits[..i]), Replay(content, calls, commits[..i + 1]))
  }

  lemma UpdateApplies(calls: Calls, c: Caller, before: Content, doc: Doc)
    requires Updated(before, calls.mutate(c)) == Ok(doc)
    ensures Applies(calls, c, before, Object(doc))
  {
    assert Reads(before, Parsed(before).value);
  }

  lemma AppliedNext(content: Content, calls: Calls, commits: seq<Caller>, c: Caller, doc: Doc)
    requires AllApplied(content, calls, commits)
    requires Updated(Replay(content, calls, commits), calls.mutate(c)) == Ok(doc)
    ensures AllApplied(content, calls, commits + [c])
  {
    hide Replay, Applies;
    var longer := commits + [c];
    ReplayAppend(content, calls, commits, c, doc);
    UpdateApplies(calls, c, Replay(content, calls, commits), doc);
    assert longer[..|commits|] == commits && longer[..|longer|] == longer;
    forall i | 0 <= i < |longer|
      ensures Applies(calls, longer[i], Replay(content, calls, longer[..i]), Replay(content, calls, longer[..i + 1]))
    {
      if i < |commits| {
        assert longer[..i] == commits[..i] && longer[..i + 1] == commits[..i + 1];
      }
    }
  }

  lemma AppliedStep(content: Content, calls: Calls, s: State, step: Step)
    requires Inv(content, calls, s) && AllApplied(content, calls, s.commits)
    ensures AllApplied(content, calls, Next(s, calls, step).commits)
  {
    hide Replay, Inv, AllApplied;
    if step.Rename? && At(s, step.c).Written? {
      HolderKnows(content, calls, s, step.c);
      assert s.commits[..|s.commits|] == s.commits;
      AppliedNext(content, calls, s.commits, step.c, At(s, step.c).doc);
    } else {
      CommitsKept(s, calls, step);
    }
  }

  lemma CommitsKept(s: State, calls: Calls, step: Step)
    requires !(step.Rename? && At(s, step.c).Written?)
    ensures Next(s, calls, step).commits == s.commits
  {
    hide Parsed, Mutated, SeqOf;
  }

  lemma {:induction false} RunApplied(content: Content, calls: Calls, steps: seq<Step>)
    ensures AllApplied(content, calls, Run(content, calls, steps).commits)
  {
    hide Next, AllApplied, Inv;
    if steps == [] {
      assert AllApplied(content, calls, []) by { NoneApplied(content, calls); }
    } else {
      var n := |steps| - 1;
      RunApplied(content, calls, steps[..n]);
      RunKeeps(content, calls, steps[..n]);
      AppliedStep(content, calls, Run(content, calls, steps[..n]), steps[n]);
    }
  }

  lemma NoneApplied(content: Content, calls: Calls)
    ensures AllApplied(content, calls, [])
  {
  }

  /**
   Whatever interleaves or crashes, there is one content between any two commits:
   each commit's mutation is accepted and applied to what the one before it left,
   the first one's to the initial content, and the last one's result is the file.
   */
  lemma EachCommitApplies(content: Content, calls: Calls, steps: seq<Step>) returns (contents: seq<Content>)
    ensures var s := Run(content, calls, steps);
      && |contents| == |s.commits| + 1 && contents[0] == content && contents[|s.commits|] == s.content
      && forall i :: 0 <= i < |s.commits| ==> Applies(calls, s.commits[i], contents[i], contents[i + 1])
  {
    hide Applies, Replay, Inv;
    var s := Run(content, calls, steps);
    FileIsSerialReplay(content, calls, steps);
    RunApplied(content, calls, steps);
    contents := seq(|s.commits| + 1, i requires 0 <= i <= |s.commits| => Replay(content, calls, s.commits[..i]));
    assert s.commits[..|s.commits|] == s.commits && s.commits[..0] == [];
    assert Replay(content, calls, []) == content by { ReplayNothing(content, calls); }
  }

  lemma ReplayNothing(content: Content, calls: Calls)
    ensures Replay(content, calls, []) == content
  {
  }

  // ---------------------------------------------------------------------
  // A call that nobody disturbs
  // ---------------------------------------------------------------------

  /** Where a call runs into trouble, if anywhere. */
  datatype Trouble = NoTrouble | OnLock | OnRead | OnMutate | OnCreate | OnWrite | OnRename

  /** Nobody holds a lock this call needs. */
  predicate Undisturbed(s: State, calls: Calls, c: Caller) {
    var p := calls.process(c);
    c !in s.phase && p !in s.dead && p !in s.mutex && s.flock == None
  }

  /** The temporary name the call would use. */
  function TmpOf(s: State, calls: Calls, c: Caller): TmpName {
    (calls.pid(calls.process(c)), SeqOf(s, calls.process(c)))
  }

  /** What such a call returns and leaves; `free` says that nothing is at its temporary name yet. */
  ghost predicate Answers(
    calls: Calls, c: Caller, trouble: Trouble, free: bool, before: Content, out: Outcome, after: Content)
  {
    if trouble.OnLock? || trouble.OnRead? then out == Err(Io) && after == before
    else
      && (before == Garbage ==> out == Err(Corrupt) && after == before)
      && (before == NonObject ==> out == Err(NotAnObject) && after == before)
      && (forall doc :: Reads(before, doc) ==>
            if trouble.OnMutate? then out == Err(Panicked) && after == before
            else match calls.mutate(c)(doc)
                 case Err(reason) => out == Err(Rejected(reason)) && after == before
                 case Ok(next) =>
                   if trouble.NoTrouble? && free then out == Ok(()) && after == Object(next)
                   else out == Err(Io) && after == before)
  }

  function LockStep(c: Caller, trouble: Trouble): Step { if trouble.OnLock? then LockFails(c) else TakeFlock(c) }

  function ReadStep(c: Caller, trouble: Trouble): Step { if trouble.OnRead? then ReadFails(c) else Read(c) }

  function MutateStep(c: Caller, trouble: Trouble): Step { if trouble.OnMutate? then MutatePanics(c) else Mutate(c) }

  function CreateStep(c: Caller, trouble: Trouble): Step { if trouble.OnCreate? then CreateFails(c) else CreateTmp(c) }

  function WriteStep(c: Caller, trouble: Trouble): Step { if trouble.OnWrite? then WriteFails(c) else WriteTmp(c) }

  function RenameStep(c: Caller, trouble: Trouble): Step { if trouble.OnRename? then RenameFails(c) else Rename(c) }

  /** The steps of one call. */
  function WholeCall(c: Caller, trouble: Trouble): seq<Step> {
    [TakeMutex(c), LockStep(c, trouble), ReadStep(c, trouble), MutateStep(c, trouble), CreateStep(c, trouble),
     WriteStep(c, trouble), RenameStep(c, trouble), Cleanup(c), ReleaseFlock(c), ReleaseMutex(c)]
  }

  function After(s: State, calls: Calls, steps: seq<Step>): State
    decreases |steps|
  {
    if steps == [] then s else After(Next(s, calls, steps[0]), calls, steps[1..])
  }

  lemma {:induction false} RunAfter(content: Content, calls: Calls, steps: seq<Step>, more: seq<Step>)
    ensures Run(content, calls, steps + more) == After(Run(content, calls, steps), calls, more)
    decreases |more|
  {
    hide Next;
    if more == [] {
      assert steps + more == steps;
    } else {
      var first := steps + [more[0]];
      assert first[..|steps|] == steps && steps + more == first + more[1..];
      RunAfter(content, calls, first, more[1..]);
    }
  }

  lemma {:induction false} AfterSplit(s: State, calls: Calls, a: seq<Step>, b: seq<Step>)
    ensures After(s, calls, a + b) == After(After(s, calls, a), calls, b)
    decreases |a|
  {
    hide Next;
    if a == [] {
      assert a + b == b;
    } else {
      assert (a + b)[1..] == a[1..] + b;
      AfterSplit(Next(s, calls, a[0]), calls, a[1..], b);
    }
  }

  lemma AfterTwo(s: State, calls: Calls, a: Step, b: Step)
    ensures After(s, calls, [a, b]) == Next(Next(s, calls, a), calls, b)
  {
    hide Next;
    assert [a, b][1..] == [b] && [b][1..] == [];
    assert After(Next(s, calls, a), calls, [b]) == Next(Next(s, calls, a), calls, b);
  }

  /** Everything but the caller's phase is as it was. */
  ghost predicate OnlyMoved(s: State, t: State) {
    t.content == s.content && t.tmps == s.tmps && t.seqs == s.seqs && t.flock == s.flock && t.mutex == s.mutex
  }

  lemma LocksTaken(s: State, calls: Calls, c: Caller, trouble: Trouble) returns (t: State)
    requires Undisturbed(s, calls, c)
    ensures t == Next(Next(s, calls, TakeMutex(c)), calls, LockStep(c, trouble))
    ensures t.content == s.content && t.tmps == s.tmps && t.seqs == s.seqs
    ensures t.mutex == s.mutex[calls.process(c) := c]
    ensures if trouble.OnLock? then At(t, c) == Unlocked(Err(Io)) && t.flock == None
            else At(t, c) == Locked && t.flock == Some(c)
  {
    t := Next(Next(s, calls, TakeMutex(c)), calls, LockStep(c, trouble));
  }

  lemma ReadOnce(s: State, calls: Calls, c: Caller, trouble: Trouble) returns (t: State)
    requires At(s, c) == Locked
    ensures t == Next(s, calls, ReadStep(c, trouble)) && OnlyMoved(s, t)
    ensures trouble.OnRead? ==> At(t, c) == Returning(Err(Io))
    ensures !trouble.OnRead? ==>
      && (s.content == Garbage ==> At(t, c) == Returning(Err(Corrupt)))
      && (s.content == NonObject ==> At(t, c) == Returning(Err(NotAnObject)))
      && (forall doc :: Reads(s.content, doc) ==> At(t, c) == Mutating(doc))
    ensures At(t, c).Mutating? || At(t, c).Returning?
  {
    hide Apply, Create, Replace, Killed, Mutated;
    t := Next(s, calls, ReadStep(c, trouble));
  }

  lemma MutatedOnce(s: State, calls: Calls, c: Caller, trouble: Trouble) returns (t: State)
    requires At(s, c).Mutating? || At(s, c).Returning?
    ensures t == Next(s, calls, MutateStep(c, trouble)) && OnlyMoved(s, t)
    ensures At(s, c).Returning? ==> t == s
    ensures At(s, c).Mutating? && trouble.OnMutate? ==> At(t, c) == Returning(Err(Panicked))
    ensures At(s, c).Mutating? && !trouble.OnMutate? ==>
      match calls.mutate(c)(At(s, c).doc)
      case Err(reason) => At(t, c) == Returning(Err(Rejected(reason)))
      case Ok(next) => At(t, c) == Writing(next)
    ensures At(t, c).Writing? || At(t, c).Returning?
  {
    hide Next;
    t := Next(s, calls, MutateStep(c, trouble));
    if trouble.OnMutate? { PanicsOnce(s, calls, c); } else { AppliesOnce(s, calls, c); }
  }

  lemma PanicsOnce(s: State, calls: Calls, c: Caller)
    ensures Next(s, calls, MutatePanics(c)) == if At(s, c).Mutating? then Moved(s, c, Returning(Err(Panicked))) else s
  {
    hide Parse, Create, Replace, Killed, Parsed, Apply, Moved;
  }

  lemma AppliesOnce(s: State, calls: Calls, c: Caller)
    ensures Next(s, calls, Mutate(c)) ==
      if !At(s, c).Mutating? then s
      else match calls.mutate(c)(At(s, c).doc)
           case Ok(next) => Moved(s, c, Writing(next))
           case Err(reason) => Moved(s, c, Returning(Err(Rejected(reason))))
  {
    hide Parse, Create, Replace, Killed, Parsed, Moved;
  }

  lemma CreatedOnce(s: State, calls: Calls, c: Caller, trouble: Trouble) returns (t: State)
    requires At(s, c).Writing?
    ensures t == Next(s, calls, CreateStep(c, trouble))
    ensures t.content == s.content && t.flock == s.flock && t.mutex == s.mutex
    ensures var name := TmpOf(s, calls, c);
      if trouble.OnCreate? || name in s.tmps then At(t, c) == Cleaning(name) && t.tmps == s.tmps
      else At(t, c) == Created(At(s, c).doc, name) && t.tmps == s.tmps[name := Partial]
  {
    t := Next(s, calls, CreateStep(c, trouble));
  }

  lemma WrittenOnce(s: State, calls: Calls, c: Caller, trouble: Trouble) returns (t: State)
    requires At(s, c).Created?
    ensures t == Next(s, calls, WriteStep(c, trouble))
    ensures t.content == s.content && t.flock == s.flock && t.mutex == s.mutex
    ensures var name := At(s, c).name;
      if trouble.OnWrite? then At(t, c) == Cleaning(name) && t.tmps == s.tmps
      else At(t, c) == Written(At(s, c).doc, name) && t.tmps == s.tmps[name := Full(At(s, c).doc)]
  {
    t := Next(s, calls, WriteStep(c, trouble));
  }

  lemma RenamedOnce(s: State, calls: Calls, c: Caller, trouble: Trouble) returns (t: State)
    requires At(s, c).Written? && At(s, c).name in s.tmps && s.tmps[At(s, c).name] == Full(At(s, c).doc)
    ensures t == Next(s, calls, RenameStep(c, trouble)) && t.flock == s.flock && t.mutex == s.mutex
    ensures var name := At(s, c).name;
      if trouble.OnRename? then At(t, c) == Cleaning(name) && t.tmps == s.tmps && t.content == s.content
      else At(t, c) == Returning(Ok(())) && t.tmps == s.tmps - {name} && t.content == Object(At(s, c).doc)
  {
    t := Next(s, calls, RenameStep(c, trouble));
  }

  lemma CleanedOnce(s: State, calls: Calls, c: Caller) returns (t: State)
    requires At(s, c).Cleaning? || At(s, c).Returning? || At(s, c).Unlocked?
    ensures t == Next(s, calls, Cleanup(c)) && t.content == s.content && t.flock == s.flock && t.mutex == s.mutex
    ensures if At(s, c).Cleaning? then At(t, c) == Returning(Err(Io)) && t.tmps == s.tmps - {At(s, c).name} else t == s
  {
    t := Next(s, calls, Cleanup(c));
  }

  /** Nothing more is tried once the call is on its way out. */
  lemma Skips(s: State, calls: Calls, c: Caller, trouble: Trouble)
    requires At(s, c).Cleaning? || At(s, c).Returning? || At(s, c).Unlocked?
    ensures Next(s, calls, ReadStep(c, trouble)) == s && Next(s, calls, MutateStep(c, trouble)) == s
    ensures Next(s, calls, CreateStep(c, trouble)) == s && Next(s, calls, WriteStep(c, trouble)) == s
    ensures Next(s, calls, RenameStep(c, trouble)) == s
  {
    hide Parse, Apply, Create, Replace, Killed, Moved;
  }

  /** Writing, from the accepted document to the return value. */
  lemma WritesOut(s: State, calls: Calls, c: Caller, trouble: Trouble) returns (t: State)
    requires At(s, c).Writing?
    ensures t == Next(Next(Next(Next(s, calls, CreateStep(c, trouble)), calls, WriteStep(c, trouble)),
                           calls, RenameStep(c, trouble)), calls, Cleanup(c))
    ensures t.flock == s.flock && t.mutex == s.mutex && t.tmps == s.tmps - {TmpOf(s, calls, c)}
    ensures if trouble.OnCreate? || trouble.OnWrite? || trouble.OnRename? || TmpOf(s, calls, c) in s.tmps
            then At(t, c) == Returning(Err(Io)) && t.content == s.content
            else At(t, c) == Returning(Ok(())) && t.content == Object(At(s, c).doc)
  {
    hide Next;
    var name := TmpOf(s, calls, c);
    var s1 := CreatedOnce(s, calls, c, trouble);
    if At(s1, c).Cleaning? {
      Skips(s1, calls, c, trouble);
      t := CleanedOnce(s1, calls, c);
    } else {
      assert s.tmps[name := Partial] - {name} == s.tmps - {name};
      var s2 := WrittenOnce(s1, calls, c, trouble);
      if At(s2, c).Cleaning? {
        Skips(s2, calls, c, trouble);
        t := CleanedOnce(s2, calls, c);
      } else {
        var full := s1.tmps[name := Full(At(s, c).doc)];
        assert full - {name} == s.tmps - {name};
        var s3 := RenamedOnce(s2, calls, c, trouble);
        t := CleanedOnce(s3, calls, c);
      }
    }
  }

  lemma LocksReleased(s: State, calls: Calls, c: Caller) returns (t: State)
    requires At(s, c).Returning? || At(s, c).Unlocked?
    ensures t == Next(Next(s, calls, ReleaseFlock(c)), calls, ReleaseMutex(c))
    ensures At(t, c) == Done(At(s, c).out) && t.content == s.content && t.tmps == s.tmps
    ensures t.flock == (if At(s, c).Returning? then None else s.flock) && t.mutex == s.mutex - {calls.process(c)}
  {
    t := Next(Next(s, calls, ReleaseFlock(c)), calls, ReleaseMutex(c));
  }

  /** The ten steps, two at a time. */
  lemma AfterTen(s: State, calls: Calls, c: Caller, trouble: Trouble)
    ensures After(s, calls, WholeCall(c, trouble))
         == After(After(After(After(After(s, calls, [TakeMutex(c), LockStep(c, trouble)]),
                  calls, [ReadStep(c, trouble), MutateStep(c, trouble)]),
                  calls, [CreateStep(c, trouble), WriteStep(c, trouble)]),
                  calls, [RenameStep(c, trouble), Cleanup(c)]),
                  calls, [ReleaseFlock(c), ReleaseMutex(c)])
  {
    hide After;
    var a, b := [TakeMutex(c), LockStep(c, trouble)], [ReadStep(c, trouble), MutateStep(c, trouble)];
    var d, e := [CreateStep(c, trouble), WriteStep(c, trouble)], [RenameStep(c, trouble), Cleanup(c)];
    var f := [ReleaseFlock(c), ReleaseMutex(c)];
    assert WholeCall(c, trouble) == a + (b + (d + (e + f)));
    AfterSplit(s, calls, a, b + (d + (e + f)));
    var s1 := After(s, calls, a);
    AfterSplit(s1, calls, b, d + (e + f));
    var s2 := After(s1, calls, b);
    AfterSplit(s2, calls, d, e + f);
    AfterSplit(After(s2, calls, d), calls, e, f);
  }

  /** What a whole call leaves of locks and temporary files. */
  ghost predicate LeavesClean(s: State, calls: Calls, c: Caller, t: State) {
    && t.flock == None && t.mutex == s.mutex
    && (TmpOf(s, calls, c) !in s.tmps ==> t.tmps == s.tmps)
  }

  /** A call that cannot take the file lock. */
  lemma LockTroubleAnswers(s: State, calls: Calls, c: Caller) returns (t: State)
    requires Undisturbed(s, calls, c)
    ensures t == After(s, calls, WholeCall(c, OnLock))
    ensures At(t, c) == Done(Err(Io)) && t.content == s.content && t.tmps == s.tmps
    ensures t.flock == None && t.mutex == s.mutex
  {
    hide Next, After, WholeCall;
    AfterTen(s, calls, c, OnLock);
    AfterTwo(s, calls, TakeMutex(c), LockStep(c, OnLock));
    var s1 := LocksTaken(s, calls, c, OnLock);
    assert s1.mutex - {calls.process(c)} == s.mutex;
    Skips(s1, calls, c, OnLock);
    AfterTwo(s1, calls, ReadStep(c, OnLock), MutateStep(c, OnLock));
    AfterTwo(s1, calls, CreateStep(c, OnLock), WriteStep(c, OnLock));
    AfterTwo(s1, calls, RenameStep(c, OnLock), Cleanup(c));
    var s2 := CleanedOnce(s1, calls, c);
    AfterTwo(s1, calls, ReleaseFlock(c), ReleaseMutex(c));
    t := LocksReleased(s1, calls, c);
  }

  /** Reading and mutating under the lock: an answer, or the document to write. */
  ghost predicate Judged(calls: Calls, c: Caller, trouble: Trouble, before: Content, p: Phase) {
    if trouble.OnRead? then p == Returning(Err(Io))
    else
      && (before == Garbage ==> p == Returning(Err(Corrupt)))
      && (before == NonObject ==> p == Returning(Err(NotAnObject)))
      && (forall doc :: Reads(before, doc) ==>
            if trouble.OnMutate? then p == Returning(Err(Panicked))
            else match calls.mutate(c)(doc)
                 case Err(reason) => p == Returning(Err(Rejected(reason)))
                 case Ok(next) => p == Writing(next))
  }

  lemma JudgedOnce(s: State, calls: Calls, c: Caller, trouble: Trouble) returns (t: State)
    requires At(s, c) == Locked
    ensures t == After(s, calls, [ReadStep(c, trouble), MutateStep(c, trouble)]) && OnlyMoved(s, t)
    ensures Judged(calls, c, trouble, s.content, At(t, c)) && (At(t, c).Writing? || At(t, c).Returning?)
  {
    hide Next, After;
    AfterTwo(s, calls, ReadStep(c, trouble), MutateStep(c, trouble));
    var read := ReadOnce(s, calls, c, trouble);
    t := MutatedOnce(read, calls, c, trouble);
  }

  /** From there to the return value. */
  lemma FinishedOnce(s: State, calls: Calls, c: Caller, trouble: Trouble) returns (t: State)
    requires At(s, c).Writing? || At(s, c).Returning?
    ensures t == After(After(s, calls, [CreateStep(c, trouble), WriteStep(c, trouble)]),
                       calls, [RenameStep(c, trouble), Cleanup(c)])
    ensures t.flock == s.flock && t.mutex == s.mutex && (TmpOf(s, calls, c) !in s.tmps ==> t.tmps == s.tmps)
    ensures At(s, c).Returning? ==> t == s
    ensures At(s, c).Writing? ==>
      if trouble.OnCreate? || trouble.OnWrite? || trouble.OnRename? || TmpOf(s, calls, c) in s.tmps
      then At(t, c) == Returning(Err(Io)) && t.content == s.content
      else At(t, c) == Returning(Ok(())) && t.content == Object(At(s, c).doc)
  {
    hide Next, After;
    AfterTwo(s, calls, CreateStep(c, trouble), WriteStep(c, trouble));
    var s1 := Next(Next(s, calls, CreateStep(c, trouble)), calls, WriteStep(c, trouble));
    AfterTwo(s1, calls, RenameStep(c, trouble), Cleanup(c));
    if At(s, c).Writing? {
      t := WritesOut(s, calls, c, trouble);
    } else {
      Skips(s, calls, c, trouble);
      t := CleanedOnce(s, calls, c);
    }
  }

  lemma LockedAnswers(s: State, calls: Calls, c: Caller, trouble: Trouble) returns (t: State)
    requires Undisturbed(s, calls, c) && !trouble.OnLock?
    ensures t == After(s, calls, WholeCall(c, trouble)) && At(t, c).Done?
    ensures Answers(calls, c, trouble, TmpOf(s, calls, c) !in s.tmps, s.content, At(t, c).out, t.content)
    ensures LeavesClean(s, calls, c, t)
  {
    hide Next, After, WholeCall, Judged, Answers;
    AfterTen(s, calls, c, trouble);
    AfterTwo(s, calls, TakeMutex(c), LockStep(c, trouble));
    var s1 := LocksTaken(s, calls, c, trouble);
    assert s1.mutex - {calls.process(c)} == s.mutex;
    var s2 := JudgedOnce(s1, calls, c, trouble);
    var s3 := FinishedOnce(s2, calls, c, trouble);
    AfterTwo(s3, calls, ReleaseFlock(c), ReleaseMutex(c));
    t := LocksReleased(s3, calls, c);
    assert TmpOf(s2, calls, c) == TmpOf(s, calls, c);
    JudgedAnswers(calls, c, trouble, TmpOf(s, calls, c) !in s.tmps, s.content, At(s2, c), At(t, c).out, t.content);
  }

  lemma JudgedAnswers(calls: Calls, c: Caller, trouble: Trouble, free: bool, before: Content, p: Phase, out: Outcome,
                      after: Content)
    requires Judged(calls, c, trouble, before, p) && !trouble.OnLock? && (p.Writing? || p.Returning?)
    requires p.Returning? ==> out == p.out && after == before
    requires p.Writing? ==>
      if trouble.OnCreate? || trouble.OnWrite? || trouble.OnRename? || !free then out == Err(Io) && after == before
      else out == Ok(()) && after == Object(p.doc)
    ensures Answers(calls, c, trouble, free, before, out, after)
  {
    if Parsed(before).Ok? { assert Reads(before, Parsed(before).value); }
  }

  lemma CallAnswers(s: State, calls: Calls, c: Caller, trouble: Trouble) returns (t: State)
    requires Undisturbed(s, calls, c)
    ensures t == After(s, calls, WholeCall(c, trouble)) && At(t, c).Done?
    ensures Answers(calls, c, trouble, TmpOf(s, calls, c) !in s.tmps, s.content, At(t, c).out, t.content)
    ensures LeavesClean(s, calls, c, t)
  {
    hide Next, After, WholeCall, Undisturbed;
    if trouble.OnLock? { t := LockTroubleAnswers(s, calls, c); } else { t := LockedAnswers(s, calls, c, trouble); }
  }

  /**
   From every reachable state a call that nobody disturbs returns, whatever
   trouble it runs into: with success exactly when its mutation accepts what the
   file holds and no system call fails, leaving the mutated document, and else
   with the error of the first thing that went wrong, leaving the file alone. It
   frees its locks and leaves no temporary file behind.
   */
  lemma UndisturbedCallAnswers(content: Content, calls: Calls, steps: seq<Step>, c: Caller, trouble: Trouble)
    requires Undisturbed(Run(content, calls, steps), calls, c)
    ensures
      var s, t := Run(content, calls, steps), Run(content, calls, steps + WholeCall(c, trouble));
      && At(t, c).Done?
      && Answers(calls, c, trouble, TmpOf(s, calls, c) !in s.tmps, s.content, At(t, c).out, t.content)
      && LeavesClean(s, calls, c, t)
  {
    hide Run, Next, After, WholeCall, Undisturbed, Answers, LeavesClean;
    RunAfter(content, calls, steps, WholeCall(c, trouble));
    var t := CallAnswers(Run(content, calls, steps), calls, c, trouble);
  }

  // ---------------------------------------------------------------------
  // Processes
  // ---------------------------------------------------------------------

  /** Between taking and releasing the process's mutex. */
  predicate HoldsMutex(p: Phase) { !p.Idle? && !p.Done? && !p.Crashed? }

  ghost predicate MutexHeld(calls: Calls, s: State) {
    forall c :: c in s.phase && HoldsMutex(s.phase[c]) ==>
      calls.process(c) !in s.dead && calls.process(c) in s.mutex && s.mutex[calls.process(c)] == c
  }

  /** What no step takes back. */
  ghost predicate Lasts(calls: Calls, s: State, t: State) {
    && s.dead <= t.dead
    && (forall c :: c in s.phase && s.phase[c].Done? ==> At(t, c) == s.phase[c])
    && (forall p :: SeqOf(s, p) <= SeqOf(t, p))
  }

  /** A caller inside moves on inside, or nothing happens. */
  ghost predicate Inside(s: State, t: State, c: Caller) {
    || t == s
    || (&& HoldsMutex(At(s, c)) && HoldsMutex(At(t, c)) && t.phase == s.phase[c := At(t, c)]
        && t.mutex == s.mutex && t.dead == s.dead && forall p :: SeqOf(s, p) <= SeqOf(t, p))
  }

  lemma InsideLasts(calls: Calls, s: State, t: State, c: Caller)
    requires MutexHeld(calls, s) && Inside(s, t, c)
    ensures MutexHeld(calls, t) && Lasts(calls, s, t)
  {
  }

  lemma MovesInside(calls: Calls, s: State, step: Step)
    requires step.LockFails? || step.TakeFlock? || step.Read? || step.ReadFails?
    ensures Inside(s, Next(s, calls, step), step.c)
  {
    hide Apply, Create, Replace, Killed, Parsed;
  }

  lemma MutatesInside(calls: Calls, s: State, step: Step)
    requires step.Mutate? || step.MutatePanics?
    ensures Inside(s, Next(s, calls, step), step.c)
  {
  }

  lemma WritesInside(calls: Calls, s: State, step: Step)
    requires step.WriteTmp? || step.WriteFails?
    ensures Inside(s, Next(s, calls, step), step.c)
  {
  }

  lemma CreatesInside(calls: Calls, s: State, step: Step)
    requires step.CreateTmp? || step.CreateFails?
    ensures Inside(s, Next(s, calls, step), step.c)
  {
  }

  lemma EndsInside(calls: Calls, s: State, step: Step)
    requires step.Rename? || step.RenameFails? || step.Cleanup? || step.ReleaseFlock?
    ensures Inside(s, Next(s, calls, step), step.c)
  {
  }

  lemma EdgeLasts(calls: Calls, s: State, step: Step)
    requires MutexHeld(calls, s) && (step.TakeMutex? || step.ReleaseMutex?)
    ensures MutexHeld(calls, Next(s, calls, step)) && Lasts(calls, s, Next(s, calls, step))
  {
  }

  lemma CrashLasts(calls: Calls, s: State, p: Process)
    requires MutexHeld(calls, s)
    ensures MutexHeld(calls, Killed(s, calls, p)) && Lasts(calls, s, Killed(s, calls, p))
  {
  }

  lemma MutexStep(calls: Calls, s: State, step: Step)
    requires MutexHeld(calls, s)
    ensures MutexHeld(calls, Next(s, calls, step)) && Lasts(calls, s, Next(s, calls, step))
  {
    hide MutexHeld, Lasts, Inside, Killed;
    match step {
      case Crash(p) => { CrashLasts(calls, s, p); }
      case TakeMutex(c) => { EdgeLasts(calls, s, step); }
      case ReleaseMutex(c) => { EdgeLasts(calls, s, step); }
      case _ => {
        hide Next;
        if step.CreateTmp? || step.CreateFails? {
          CreatesInside(calls, s, step);
        } else if step.WriteTmp? || step.WriteFails? {
          WritesInside(calls, s, step);
        } else if step.Mutate? || step.MutatePanics? {
          MutatesInside(calls, s, step);
        } else if step.Rename? || step.RenameFails? || step.Cleanup? || step.ReleaseFlock? {
          EndsInside(calls, s, step);
        } else {
          MovesInside(calls, s, step);
        }
        InsideLasts(calls, s, Next(s, calls, step), step.c);
      }
    }
  }

  lemma {:induction false} RunMutex(content: Content, calls: Calls, steps: seq<Step>)
    ensures MutexHeld(calls, Run(content, calls, steps))
  {
    hide Next, MutexHeld;
    if steps == [] {
      assert MutexHeld(calls, Init(content)) by { NobodyHolds(content, calls); }
    } else {
      RunMutex(content, calls, steps[..|steps| - 1]);
      MutexStep(calls, Run(content, calls, steps[..|steps| - 1]), steps[|steps| - 1]);
    }
  }

  lemma NobodyHolds(content: Content, calls: Calls)
    ensures MutexHeld(calls, Init(content))
  {
  }

  /** What is so for good. */
  lemma {:induction false} ForGood(
    content: Content, calls: Calls, steps: seq<Step>, more: seq<Step>, c: Caller, p: Process)
    ensures var s, t := Run(content, calls, steps), Run(content, calls, steps + more);
      && (p in s.dead ==> p in t.dead)
      && (At(s, c).Done? ==> At(t, c) == At(s, c))
      && SeqOf(s, p) <= SeqOf(t, p)
    decreases |more|
  {
    hide Next, MutexHeld;
    if more == [] {
      assert steps + more == steps;
    } else {
      var n := |more| - 1;
      ForGood(content, calls, steps, more[..n], c, p);
      var u := Run(content, calls, steps + more[..n]);
      assert (steps + more)[..|steps| + n] == steps + more[..n];
      RunMutex(content, calls, steps + more[..n]);
      MutexStep(calls, u, more[n]);
    }
  }

  /** Of the callers of one process at most one is in the transaction at a time. */
  lemma OnePerProcess(content: Content, calls: Calls, steps: seq<Step>, c: Caller, c': Caller)
    requires var s := Run(content, calls, steps);
      HoldsMutex(At(s, c)) && HoldsMutex(At(s, c')) && calls.process(c) == calls.process(c')
    ensures c == c'
  {
    hide Run;
    RunMutex(content, calls, steps);
  }

  /** A process that died does nothing more, and what its calls had returned stands. */
  lemma DeadStaysDead(content: Content, calls: Calls, steps: seq<Step>, more: seq<Step>, c: Caller)
    ensures var t := Run(content, calls, steps + [Crash(calls.process(c))] + more);
      !HoldsMutex(At(t, c)) && t.flock != Some(c)
    ensures At(Run(content, calls, steps), c).Done? ==>
      At(Run(content, calls, steps + [Crash(calls.process(c))] + more), c) == At(Run(content, calls, steps), c)
  {
    var p := calls.process(c);
    var crashed := steps + [Crash(p)];
    assert crashed[..|steps|] == steps;
    assert p in Run(content, calls, crashed).dead;
    hide Run, Next;
    ForGood(content, calls, crashed, more, c, p);
    ForGood(content, calls, steps, [Crash(p)], c, p);
    RunMutex(content, calls, crashed + more);
    RunKeeps(content, calls, crashed + more);
    assert !HoldsMutex(At(Run(content, calls, crashed + more), c));
    NotLocking(content, calls, Run(content, calls, crashed + more), c);
  }

  lemma NotLocking(content: Content, calls: Calls, s: State, c: Caller)
    requires Inv(content, calls, s) && !HoldsMutex(At(s, c))
    ensures s.flock != Some(c)
  {
    hide Replay, Filter, InLockOrder, Explained, Holding, Returned;
    CriticalHolds(s, c);
  }

  /** No two writes of one process, however far apart, use the same temporary name. */
  lemma TmpNamesNotReused(
    content: Content, calls: Calls, steps: seq<Step>, c: Caller, fails: bool, more: seq<Step>, c': Caller)
    requires At(Run(content, calls, steps), c).Writing? && calls.process(c) == calls.process(c')
    ensures var s := Run(content, calls, steps);
      var t := Run(content, calls, steps + [if fails then CreateFails(c) else CreateTmp(c)] + more);
      TmpOf(t, calls, c').1 > TmpOf(s, calls, c).1
  {
    var step := if fails then CreateFails(c) else CreateTmp(c);
    var created := steps + [step];
    var s := Run(content, calls, steps);
    assert created[..|steps|] == steps;
    assert SeqOf(Run(content, calls, created), calls.process(c)) == SeqOf(s, calls.process(c)) + 1;
    hide Run, Next;
    ForGood(content, calls, created, more, c', calls.process(c));
  }
}
