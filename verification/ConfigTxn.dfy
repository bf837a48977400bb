/**
 Read-modify-write of `config.json`: a per-process mutex, an advisory file lock
 shared by all processes, and a temporary file renamed over the target.
 */
module ConfigTxn {
  import opened Lists

  type Doc = map<string, string>

  /** What is at the config path, already parsed. */
  datatype Content = Missing | Garbage | NonObject | Object(doc: Doc)

  datatype Error = Corrupt | NotAnObject | Rejected(reason: string) | Io | Panicked

  type Mutation = Doc -> Result<Doc, string>

  /** The document a transaction starts from: a missing file counts as an empty object. */
  function Parsed(content: Content): Result<Doc, Error> {
    match content
    case Missing => Ok(map[])
    case Garbage => Err(Corrupt)
    case NonObject => Err(NotAnObject)
    case Object(doc) => Ok(doc)
  }

  function Mutated(doc: Doc, mutate: Mutation): Result<Doc, Error> {
    match mutate(doc)
    case Ok(next) => Ok(next)
    case Err(reason) => Err(Rejected(reason))
  }

  /** The whole update as if nobody else existed and no system call failed. */
  function Updated(content: Content, mutate: Mutation): Result<Doc, Error> {
    match Parsed(content)
    case Ok(doc) => Mutated(doc, mutate)
    case Err(e) => Err(e)
  }

  /** What a transaction reads: the object in the file, or an empty one where there is no file. */
  predicate Reads(content: Content, doc: Doc) { content == Object(doc) || (content == Missing && doc == map[]) }

  type TmpName = (nat, nat)

  datatype Tmp = Partial | Full(doc: Doc)

  // ---------------------------------------------------------------------
  // One transaction with the lock held
  // ---------------------------------------------------------------------

  /** The system call at which a transaction fails, if any. */
  datatype Fault = NoFault | ReadFault | CreateFault | WriteFault | RenameFault

  class ConfigStore {
    var content: Content
    var tmps: map<TmpName, Tmp>
    var nextSeq: nat
    const pid: nat

    constructor (content: Content, pid: nat)
      ensures this.content == content && tmps == map[] && nextSeq == 0 && this.pid == pid
    {
      this.content := content;
      this.pid := pid;
      tmps, nextSeq := map[], 0;
    }

    /** Replaces the content or leaves it alone, and removes its temporary name either way. */
    method WriteAtomic(doc: Doc, fault: Fault) returns (result: Result<(), Error>)
      modifies this
      ensures result.Ok? <==> (pid, old(nextSeq)) !in old(tmps) && fault !in {CreateFault, WriteFault, RenameFault}
      ensures result.Ok? ==> content == Object(doc)
      ensures result.Err? ==> result.error == Io && content == old(content)
      ensures tmps == old(tmps) - {(pid, old(nextSeq))} && nextSeq == old(nextSeq) + 1
    {
      var name := (pid, nextSeq);
      nextSeq := nextSeq + 1;
      if name in tmps || fault == CreateFault {
        tmps := tmps - {name};
        return Err(Io);
      }
      tmps := tmps[name := Partial];
      if fault == WriteFault {
        tmps := tmps - {name};
        return Err(Io);
      }
      tmps := tmps[name := Full(doc)];
      if fault == RenameFault {
        tmps := tmps - {name};
        return Err(Io);
      }
      content := Object(tmps[name].doc);
      tmps := tmps - {name};
      return Ok(());
    }

    method UpdateJson(mutate: Mutation, fault: Fault) returns (result: Result<(), Error>)
      modifies this
      ensures fault == ReadFault ==> result == Err(Io)
      ensures fault != ReadFault && old(content) == Garbage ==> result == Err(Corrupt)
      ensures fault != ReadFault && old(content) == NonObject ==> result == Err(NotAnObject)
      ensures forall doc :: fault != ReadFault && Reads(old(content), doc) ==>
        match mutate(doc)
        case Err(reason) => result == Err(Rejected(reason))
        case Ok(next) =>
          if fault == NoFault && (pid, old(nextSeq)) !in old(tmps) then result.Ok? && content == Object(next)
          else result == Err(Io)
      ensures result.Err? ==> content == old(content)
      ensures tmps.Keys <= old(tmps.Keys)
    {
      if fault == ReadFault {
        return Err(Io);
      }
      var parsed := Parsed(content);
      if parsed.Err? {
        return Err(parsed.error);
      }
      assert forall doc :: Reads(content, doc) ==> doc == parsed.value;
      var mutated := Mutated(parsed.value, mutate);
      if mutated.Err? {
        return Err(mutated.error);
      }
      result := WriteAtomic(mutated.value, fault);
    }
  }

  // ---------------------------------------------------------------------
  // Any number of callers, in any number of processes
  // ---------------------------------------------------------------------

  type Caller = nat
  type Process = nat

  /** Which process each call runs in, what it wants to change, and each process's system-wide number. */
  datatype Calls = Calls(process: Caller -> Process, mutate: Caller -> Mutation, pid: Process -> nat)

  type Outcome = Result<(), Error>

  datatype Phase =
    | Idle
    | HasMutex
    | Locked
    | Mutating(doc: Doc)
    | Writing(doc: Doc)
    | Created(doc: Doc, name: TmpName)
    | Written(doc: Doc, name: TmpName)
    | Cleaning(name: TmpName)
    | Returning(out: Outcome)
    | Unlocked(out: Outcome)
    | Done(out: Outcome)
    | Crashed

  datatype State = State(
    content: Content, tmps: map<TmpName, Tmp>,
    mutex: map<Process, Caller>, flock: Option<Caller>, phase: map<Caller, Phase>,
    seqs: map<Process, nat>, dead: set<Process>,
    acquired: seq<Caller>, commits: seq<Caller>, base: map<Caller, nat>)

  function Init(content: Content): State {
    State(content, map[], map[], None, map[], map[], {}, [], [], map[])
  }

  datatype Step =
    | TakeMutex(c: Caller)
    | LockFails(c: Caller)
    | TakeFlock(c: Caller)
    | Read(c: Caller)
    | ReadFails(c: Caller)
    | Mutate(c: Caller)
    | MutatePanics(c: Caller)
    | CreateTmp(c: Caller)
    | CreateFails(c: Caller)
    | WriteTmp(c: Caller)
    | WriteFails(c: Caller)
    | Rename(c: Caller)
    | RenameFails(c: Caller)
    | Cleanup(c: Caller)
    | ReleaseFlock(c: Caller)
    | ReleaseMutex(c: Caller)
    | Crash(p: Process)

  function At(s: State, c: Caller): Phase { if c in s.phase then s.phase[c] else Idle }

  function Moved(s: State, c: Caller, p: Phase): State { s.(phase := s.phase[c := p]) }

  function SeqOf(s: State, p: Process): nat { if p in s.seqs then s.seqs[p] else 0 }

  function Parse(s: State, c: Caller): State {
    match Parsed(s.content)
    case Ok(doc) => Moved(s, c, Mutating(doc))
    case Err(e) => Moved(s, c, Returning(Err(e)))
  }

  function Apply(s: State, calls: Calls, c: Caller, doc: Doc): State {
    match Mutated(doc, calls.mutate(c))
    case Ok(next) => Moved(s, c, Writing(next))
    case Err(e) => Moved(s, c, Returning(Err(e)))
  }

  function Create(s: State, calls: Calls, c: Caller, doc: Doc, fails: bool): State {
    var p := calls.process(c);
    var name := (calls.pid(p), SeqOf(s, p));
    var t := s.(seqs := s.seqs[p := name.1 + 1]);
    if fails || name in s.tmps then Moved(t, c, Cleaning(name))
    else Moved(t.(tmps := s.tmps[name := Partial]), c, Created(doc, name))
  }

  function Replace(s: State, c: Caller, name: TmpName): State {
    if name !in s.tmps || s.tmps[name].Partial? then s
    else Moved(s.(content := Object(s.tmps[name].doc), tmps := s.tmps - {name}, commits := s.commits + [c]),
               c, Returning(Ok(())))
  }

  /** The kernel frees the locks of a dead process; its unfinished calls never return. */
  function Killed(s: State, calls: Calls, p: Process): State {
    s.(dead := s.dead + {p}, mutex := s.mutex - {p},
       flock := if s.flock.Some? && calls.process(s.flock.value) == p then None else s.flock,
       phase := map c | c in s.phase ::
         if calls.process(c) == p && !s.phase[c].Done? then Crashed else s.phase[c])
  }

  function Next(s: State, calls: Calls, step: Step): State {
    match step
    case TakeMutex(c) =>
      if At(s, c).Idle? && calls.process(c) !in s.dead && calls.process(c) !in s.mutex
      then Moved(s.(mutex := s.mutex[calls.process(c) := c]), c, HasMutex) else s
    case LockFails(c) => if At(s, c).HasMutex? then Moved(s, c, Unlocked(Err(Io))) else s
    case TakeFlock(c) =>
      if At(s, c).HasMutex? && s.flock.None?
      then Moved(s.(flock := Some(c), acquired := s.acquired + [c], base := s.base[c := |s.commits|]), c, Locked)
      else s
    case Read(c) => if At(s, c).Locked? then Parse(s, c) else s
    case ReadFails(c) => if At(s, c).Locked? then Moved(s, c, Returning(Err(Io))) else s
    case Mutate(c) => if At(s, c).Mutating? then Apply(s, calls, c, At(s, c).doc) else s
    case MutatePanics(c) => if At(s, c).Mutating? then Moved(s, c, Returning(Err(Panicked))) else s
    case CreateTmp(c) => if At(s, c).Writing? then Create(s, calls, c, At(s, c).doc, false) else s
    case CreateFails(c) => if At(s, c).Writing? then Create(s, calls, c, At(s, c).doc, true) else s
    case WriteTmp(c) =>
      if At(s, c).Created?
      then Moved(s.(tmps := s.tmps[At(s, c).name := Full(At(s, c).doc)]), c, Written(At(s, c).doc, At(s, c).name))
      else s
    case WriteFails(c) => if At(s, c).Created? then Moved(s, c, Cleaning(At(s, c).name)) else s
    case Rename(c) => if At(s, c).Written? then Replace(s, c, At(s, c).name) else s
    case RenameFails(c) => if At(s, c).Written? then Moved(s, c, Cleaning(At(s, c).name)) else s
    case Cleanup(c) =>
      if At(s, c).Cleaning? then Moved(s.(tmps := s.tmps - {At(s, c).name}), c, Returning(Err(Io))) else s
    case ReleaseFlock(c) =>
      if At(s, c).Returning? then Moved(s.(flock := None), c, Unlocked(At(s, c).out)) else s
    case ReleaseMutex(c) =>
      if At(s, c).Unlocked? then Moved(s.(mutex := s.mutex - {calls.process(c)}), c, Done(At(s, c).out)) else s
    case Crash(p) => Killed(s, calls, p)
  }

  function Run(content: Content, calls: Calls, steps: seq<Step>): State {
    if steps == [] then Init(content)
    else Next(Run(content, calls, steps[..|steps| - 1]), calls, steps[|steps| - 1])
  }

  // ---------------------------------------------------------------------
  // The serial reference and the invariant
  // ---------------------------------------------------------------------

  /** The committed updates applied one after another. */
  function Replay(content: Content, calls: Calls, commits: seq<Caller>): Content {
    if commits == [] then content
    else
      var before := Replay(content, calls, commits[..|commits| - 1]);
      match Updated(before, calls.mutate(commits[|commits| - 1]))
      case Ok(doc) => Object(doc)
      case Err(_) => before
  }

  predicate InCritical(p: Phase) {
    p.Locked? || p.Mutating? || p.Writing? || p.Created? || p.Written? || p.Cleaning? || p.Returning?
  }

  ghost predicate NoRepeats(cs: seq<Caller>) {
    forall i, j :: 0 <= i < j < |cs| ==> cs[i] != cs[j]
  }

  /** Exactly the lock holder is between taking and releasing the lock. */
  ghost predicate Exclusive(phase: map<Caller, Phase>, flock: Option<Caller>) {
    && (forall c :: c in phase ==> (InCritical(phase[c]) <==> flock == Some(c)))
    && (flock.Some? ==> flock.value in phase)
  }

  /** Commits come in lock order, one at most per lock taken. */
  ghost predicate InLockOrder(acquired: seq<Caller>, commits: seq<Caller>) {
    NoRepeats(acquired) && commits == Filter((c: Caller) => c in commits, acquired)
  }

  ghost predicate Acquirers(phase: map<Caller, Phase>, flock: Option<Caller>, acquired: seq<Caller>) {
    && (forall c :: c in acquired ==> c in phase && !phase[c].Idle? && !phase[c].HasMutex?)
    && (flock.Some? ==> acquired != [] && acquired[|acquired| - 1] == flock.value)
  }

  /** An outcome agrees with the serial update at the point the lock was taken. */
  ghost predicate Explained(
    content: Content, calls: Calls, commits: seq<Caller>, base: map<Caller, nat>, c: Caller, out: Outcome)
  {
    if out.Ok? then
      c in base && base[c] < |commits| && commits[base[c]] == c
      && Updated(Replay(content, calls, commits[..base[c]]), calls.mutate(c)).Ok?
    else
      c !in commits
      && (out.error != Io && out.error != Panicked ==>
            c in base && base[c] <= |commits|
            && Updated(Replay(content, calls, commits[..base[c]]), calls.mutate(c)) == Err(out.error))
  }

  predicate HasReturned(p: Phase) { p.Unlocked? || p.Done? }

  ghost predicate Returned(
    content: Content, calls: Calls, phase: map<Caller, Phase>, commits: seq<Caller>, base: map<Caller, nat>)
  {
    forall c :: c in phase && HasReturned(phase[c]) ==> Explained(content, calls, commits, base, c, phase[c].out)
  }

  /** Not committed yet, and nobody else has since this caller took the lock. */
  ghost predicate Current(commits: seq<Caller>, base: map<Caller, nat>, c: Caller) {
    c !in commits && c in base && base[c] == |commits|
  }

  /** What the lock holder knows in each phase; `now` is what the file holds at present. */
  ghost predicate Holding(content: Content, calls: Calls, now: Content, tmps: map<TmpName, Tmp>,
                          commits: seq<Caller>, base: map<Caller, nat>, c: Caller, p: Phase)
  {
    match p
    case Locked => Current(commits, base, c)
    case Mutating(doc) => Current(commits, base, c) && Parsed(now) == Ok(doc)
    case Writing(doc) => Current(commits, base, c) && Updated(now, calls.mutate(c)) == Ok(doc)
    case Created(doc, name) => Current(commits, base, c) && Updated(now, calls.mutate(c)) == Ok(doc)
    case Written(doc, name) =>
      Current(commits, base, c) && Updated(now, calls.mutate(c)) == Ok(doc)
      && name in tmps && tmps[name] == Full(doc)
    case Cleaning(name) => Current(commits, base, c)
    case Returning(out) => Explained(content, calls, commits, base, c, out)
    case _ => false
  }

  ghost predicate Inv(content: Content, calls: Calls, s: State) {
    && Exclusive(s.phase, s.flock)
    && InLockOrder(s.acquired, s.commits)
    && Acquirers(s.phase, s.flock, s.acquired)
    && Returned(content, calls, s.phase, s.commits, s.base)
    && (s.flock.Some? ==>
          Holding(content, calls, s.content, s.tmps, s.commits, s.base, s.flock.value, s.phase[s.flock.value]))
    && s.content == Replay(content, calls, s.commits)
  }

  // ---------------------------------------------------------------------
  // Preservation
  // ---------------------------------------------------------------------

  lemma CriticalHolds(s: State, c: Caller)
    requires Exclusive(s.phase, s.flock)
    ensures InCritical(At(s, c)) <==> s.flock == Some(c)
    ensures InCritical(At(s, c)) ==> c in s.phase
  {
  }

  /** A caller moves within its critical section, touching only temporary files and counters. */
  ghost predicate Within(s: State, t: State, c: Caller, p: Phase) {
    && t.phase == s.phase[c := p]
    && t.content == s.content && t.commits == s.commits && t.acquired == s.acquired && t.base == s.base
    && t.flock == s.flock
  }

  lemma WithinKeeps(content: Content, calls: Calls, s: State, t: State, c: Caller, p: Phase)
    requires Inv(content, calls, s) && InCritical(At(s, c)) && InCritical(p) && Within(s, t, c, p)
    requires Holding(content, calls, t.content, t.tmps, t.commits, t.base, c, p)
    ensures Inv(content, calls, t)
  {
    hide Replay, InLockOrder, Explained, Current, Filter, Holding;
    CriticalHolds(s, c);
  }

  /** The holder's knowledge, from the invariant. */
  lemma HolderKnows(content: Content, calls: Calls, s: State, c: Caller)
    requires Inv(content, calls, s) && InCritical(At(s, c))
    ensures Holding(content, calls, s.content, s.tmps, s.commits, s.base, c, At(s, c))
    ensures s.content == Replay(content, calls, s.commits[..|s.commits|])
  {
    hide Replay, InLockOrder, Explained, Current, Filter, Holding;
    CriticalHolds(s, c);
    assert s.commits[..|s.commits|] == s.commits;
  }

  lemma ReadKeeps(content: Content, calls: Calls, s: State, c: Caller)
    requires Inv(content, calls, s) && At(s, c).Locked?
    ensures Inv(content, calls, Parse(s, c)) && Inv(content, calls, Moved(s, c, Returning(Err(Io))))
  {
    hide Inv, Replay, Within;
    HolderKnows(content, calls, s, c);
    var t := Parse(s, c);
    assert Within(s, t, c, t.phase[c]) && Within(s, Moved(s, c, Returning(Err(Io))), c, Returning(Err(Io))) by {
      WithinMoves(s, c, t.phase[c]);
      WithinMoves(s, c, Returning(Err(Io)));
    }
    WithinKeeps(content, calls, s, t, c, t.phase[c]);
    WithinKeeps(content, calls, s, Moved(s, c, Returning(Err(Io))), c, Returning(Err(Io)));
  }

  lemma WithinMoves(s: State, c: Caller, p: Phase)
    ensures Within(s, Moved(s, c, p), c, p)
  {
  }

  lemma MutateKeeps(content: Content, calls: Calls, s: State, c: Caller)
    requires Inv(content, calls, s) && At(s, c).Mutating?
    ensures Inv(content, calls, Apply(s, calls, c, At(s, c).doc))
    ensures Inv(content, calls, Moved(s, c, Returning(Err(Panicked))))
  {
    hide Inv, Replay, Within;
    HolderKnows(content, calls, s, c);
    var t := Apply(s, calls, c, At(s, c).doc);
    WithinMoves(s, c, t.phase[c]);
    WithinMoves(s, c, Returning(Err(Panicked)));
    WithinKeeps(content, calls, s, t, c, t.phase[c]);
    WithinKeeps(content, calls, s, Moved(s, c, Returning(Err(Panicked))), c, Returning(Err(Panicked)));
  }

  lemma CreateKeeps(content: Content, calls: Calls, s: State, c: Caller, fails: bool)
    requires Inv(content, calls, s) && At(s, c).Writing?
    ensures Inv(content, calls, Create(s, calls, c, At(s, c).doc, fails))
  {
    HolderKnows(content, calls, s, c);
    hide Inv, Replay;
    var t := Create(s, calls, c, At(s, c).doc, fails);
    WithinKeeps(content, calls, s, t, c, t.phase[c]);
  }

  lemma TmpStepKeeps(content: Content, calls: Calls, s: State, step: Step)
    requires Inv(content, calls, s)
    requires step.WriteTmp? || step.WriteFails? || step.RenameFails? || step.Cleanup?
    ensures Inv(content, calls, Next(s, calls, step))
  {
    hide Inv, Replay;
    var t := Next(s, calls, step);
    if t != s {
      HolderKnows(content, calls, s, step.c);
      WithinKeeps(content, calls, s, t, step.c, t.phase[step.c]);
    }
  }

  /** Outcomes stay explained while others take the lock or commit. */
  lemma ExplainedLater(content: Content, calls: Calls, commits: seq<Caller>, base: map<Caller, nat>,
                       base': map<Caller, nat>, more: seq<Caller>, c: Caller, out: Outcome)
    requires Explained(content, calls, commits, base, c, out)
    requires c !in more && (c in base ==> c in base' && base'[c] == base[c])
    ensures Explained(content, calls, commits + more, base', c, out)
  {
    hide Replay;
    if c in base && base[c] <= |commits| {
      assert (commits + more)[..base[c]] == commits[..base[c]];
    }
  }

  lemma ReturnedLater(content: Content, calls: Calls, phase: map<Caller, Phase>, commits: seq<Caller>,
                      base: map<Caller, nat>, c: Caller, p: Phase, more: seq<Caller>, base': map<Caller, nat>)
    requires Returned(content, calls, phase, commits, base)
    requires !HasReturned(p) && forall x :: x in more ==> x == c
    requires forall x :: x in base && x != c ==> x in base' && base'[x] == base[x]
    ensures Returned(content, calls, phase[c := p], commits + more, base')
  {
    hide Explained;
    forall x | x in phase && x != c && HasReturned(phase[x])
      ensures Explained(content, calls, commits + more, base', x, phase[x].out)
    {
      ExplainedLater(content, calls, commits, base, base', more, x, phase[x].out);
    }
  }

  lemma TakeFlockKeeps(content: Content, calls: Calls, s: State, c: Caller)
    requires Inv(content, calls, s)
    ensures Inv(content, calls, Next(s, calls, TakeFlock(c)))
  {
    var t := Next(s, calls, TakeFlock(c));
    if At(s, c).HasMutex? && s.flock.None? {
      hide Replay, Filter, Explained;
      NewAcquirer(s.acquired, s.commits, c);
      ReturnedLater(content, calls, s.phase, s.commits, s.base, c, Locked, [], t.base);
      assert s.commits + [] == s.commits;
      LockTaken(s.phase, s.acquired, c);
      assert Current(t.commits, t.base, c);
      hide InLockOrder, Returned, Exclusive, Acquirers;
    }
  }

  lemma LockTaken(phase: map<Caller, Phase>, acquired: seq<Caller>, c: Caller)
    requires Exclusive(phase, None) && Acquirers(phase, None, acquired)
    ensures Exclusive(phase[c := Locked], Some(c)) && Acquirers(phase[c := Locked], Some(c), acquired + [c])
  {
  }

  lemma NewAcquirer(acquired: seq<Caller>, commits: seq<Caller>, c: Caller)
    requires InLockOrder(acquired, commits) && c !in acquired
    ensures c !in commits && InLockOrder(acquired + [c], commits)
  {
    hide Filter;
    FilterMembers((x: Caller) => x in commits, acquired);
    FilterAppend((x: Caller) => x in commits, acquired, c);
  }

  lemma NewCommit(acquired: seq<Caller>, commits: seq<Caller>, c: Caller)
    requires InLockOrder(acquired, commits) && acquired != [] && acquired[|acquired| - 1] == c && c !in commits
    ensures InLockOrder(acquired, commits + [c])
  {
    hide Filter;
    var n := |acquired| - 1;
    var prior := acquired[..n];
    assert acquired == prior + [c];
    var before := (x: Caller) => x in commits;
    var after := (x: Caller) => x in commits + [c];
    FilterAppend(before, prior, c);
    FilterAppend(after, prior, c);
    assert forall i :: 0 <= i < n ==> acquired[i] != c;
    FilterAgree(before, after, prior);
    assert commits == Filter(before, acquired);
    assert Filter(after, acquired) == commits + [c];
  }

  lemma ReplayAppend(content: Content, calls: Calls, commits: seq<Caller>, c: Caller, doc: Doc)
    requires Updated(Replay(content, calls, commits), calls.mutate(c)) == Ok(doc)
    ensures Replay(content, calls, commits + [c]) == Object(doc)
  {
    assert (commits + [c])[..|commits|] == commits;
  }

  lemma RenameKeeps(content: Content, calls: Calls, s: State, c: Caller)
    requires Inv(content, calls, s) && At(s, c).Written?
    ensures Inv(content, calls, Replace(s, c, At(s, c).name))
  {
    hide Replay, Filter, InLockOrder, Exclusive, Acquirers, Returned, Explained;
    var t := Replace(s, c, At(s, c).name);
    CriticalHolds(s, c);
    HolderKnows(content, calls, s, c);
    ReplayAppend(content, calls, s.commits, c, At(s, c).doc);
    HolderMoves(s.phase, s.flock, s.acquired, c, Returning(Ok(())));
    NewCommit(s.acquired, s.commits, c);
    ReturnedLater(content, calls, s.phase, s.commits, s.base, c, Returning(Ok(())), [c], s.base);
    CommitExplained(content, calls, s.commits, s.base, c, At(s, c).doc);
  }

  /** The holder stays the holder through any phase of its critical section. */
  lemma HolderMoves(phase: map<Caller, Phase>, flock: Option<Caller>, acquired: seq<Caller>, c: Caller, p: Phase)
    requires Exclusive(phase, flock) && Acquirers(phase, flock, acquired) && flock == Some(c) && InCritical(p)
    ensures Exclusive(phase[c := p], flock) && Acquirers(phase[c := p], flock, acquired)
    ensures acquired != [] && acquired[|acquired| - 1] == c
  {
  }

  lemma CommitExplained(
    content: Content, calls: Calls, commits: seq<Caller>, base: map<Caller, nat>, c: Caller, doc: Doc)
    requires Current(commits, base, c) && Updated(Replay(content, calls, commits), calls.mutate(c)) == Ok(doc)
    ensures Explained(content, calls, commits + [c], base, c, Ok(()))
  {
    hide Replay;
    assert (commits + [c])[..|commits|] == commits;
  }

  lemma HoldingReturn(content: Content, calls: Calls, s: State, c: Caller, out: Outcome)
    ensures Holding(content, calls, s.content, s.tmps, s.commits, s.base, c, Returning(out))
            == Explained(content, calls, s.commits, s.base, c, out)
  {
  }

  lemma TakeMutexKeeps(content: Content, calls: Calls, s: State, c: Caller)
    requires Inv(content, calls, s)
    ensures Inv(content, calls, Next(s, calls, TakeMutex(c)))
  {
    hide Replay, Filter, InLockOrder, Explained, Holding;
  }

  lemma NotCommitted(phase: map<Caller, Phase>, flock: Option<Caller>, acquired: seq<Caller>,
                     commits: seq<Caller>, c: Caller)
    requires InLockOrder(acquired, commits) && Acquirers(phase, flock, acquired)
    requires c in phase && phase[c].HasMutex?
    ensures c !in commits
  {
    hide Filter;
    FilterMembers((x: Caller) => x in commits, acquired);
  }

  lemma LockFailsKeeps(content: Content, calls: Calls, s: State, c: Caller)
    requires Inv(content, calls, s)
    ensures Inv(content, calls, Next(s, calls, LockFails(c)))
  {
    if At(s, c).HasMutex? {
      NotCommitted(s.phase, s.flock, s.acquired, s.commits, c);
      hide Replay, Filter, InLockOrder, Holding;
      assert Explained(content, calls, s.commits, s.base, c, Err(Io));
      hide Explained;
      GaveUpLock(content, calls, s.phase, s.flock, s.acquired, s.commits, s.base, c);
      hide Exclusive, Acquirers, Returned;
    }
  }

  lemma GaveUpLock(content: Content, calls: Calls, phase: map<Caller, Phase>, flock: Option<Caller>,
                   acquired: seq<Caller>, commits: seq<Caller>, base: map<Caller, nat>, c: Caller)
    requires Exclusive(phase, flock) && Acquirers(phase, flock, acquired)
    requires Returned(content, calls, phase, commits, base)
    requires c in phase && phase[c].HasMutex? && Explained(content, calls, commits, base, c, Err(Io))
    ensures var after := phase[c := Unlocked(Err(Io))];
      Exclusive(after, flock) && Acquirers(after, flock, acquired) && Returned(content, calls, after, commits, base)
      && flock != Some(c)
  {
    hide Explained;
  }

  lemma ReleaseFlockKeeps(content: Content, calls: Calls, s: State, c: Caller)
    requires Inv(content, calls, s)
    ensures Inv(content, calls, Next(s, calls, ReleaseFlock(c)))
  {
    if At(s, c).Returning? {
      CriticalHolds(s, c);
      HolderKnows(content, calls, s, c);
      HoldingReturn(content, calls, s, c, At(s, c).out);
      hide Replay, Filter, InLockOrder, Explained, Holding;
    }
  }

  lemma ReleaseMutexKeeps(content: Content, calls: Calls, s: State, c: Caller)
    requires Inv(content, calls, s)
    ensures Inv(content, calls, Next(s, calls, ReleaseMutex(c)))
  {
    hide Replay, Filter, InLockOrder, Explained, Holding;
  }

  lemma CrashKeeps(content: Content, calls: Calls, s: State, p: Process)
    requires Inv(content, calls, s)
    ensures Inv(content, calls, Killed(s, calls, p))
  {
    var t := Killed(s, calls, p);
    if t.flock.Some? {
      hide Replay, Filter, InLockOrder, Exclusive, Returned, Acquirers;
      assert Holding(content, calls, s.content, s.tmps, s.commits, s.base, t.flock.value, s.phase[t.flock.value]);
      assert Holding(content, calls, t.content, t.tmps, t.commits, t.base, t.flock.value, s.phase[t.flock.value]);
    }
    hide Replay, Filter, InLockOrder, Explained, Holding;
  }

  lemma NextKeeps(content: Content, calls: Calls, s: State, step: Step)
    requires Inv(content, calls, s)
    ensures Inv(content, calls, Next(s, calls, step))
  {
    hide Inv;
    match step {
      case Crash(p) => CrashKeeps(content, calls, s, p);
      case TakeFlock(c) => TakeFlockKeeps(content, calls, s, c);
      case Rename(c) => if At(s, c).Written? { RenameKeeps(content, calls, s, c); }
      case TakeMutex(c) => TakeMutexKeeps(content, calls, s, c);
      case LockFails(c) => LockFailsKeeps(content, calls, s, c);
      case ReleaseFlock(c) => ReleaseFlockKeeps(content, calls, s, c);
      case ReleaseMutex(c) => ReleaseMutexKeeps(content, calls, s, c);
      case Read(c) => if At(s, c).Locked? { ReadKeeps(content, calls, s, c); }
      case ReadFails(c) => if At(s, c).Locked? { ReadKeeps(content, calls, s, c); }
      case Mutate(c) => if At(s, c).Mutating? { MutateKeeps(content, calls, s, c); }
      case MutatePanics(c) => if At(s, c).Mutating? { MutateKeeps(content, calls, s, c); }
      case CreateTmp(c) => if At(s, c).Writing? { CreateKeeps(content, calls, s, c, false); }
      case CreateFails(c) => if At(s, c).Writing? { CreateKeeps(content, calls, s, c, true); }
      case _ => TmpStepKeeps(content, calls, s, step);
    }
  }

  lemma {:induction false} RunKeeps(content: Content, calls: Calls, steps: seq<Step>)
    ensures Inv(content, calls, Run(content, calls, steps))
  {
    if steps != [] {
      RunKeeps(content, calls, steps[..|steps| - 1]);
      hide Inv, Next;
      NextKeeps(content, calls, Run(content, calls, steps[..|steps| - 1]), steps[|steps| - 1]);
    }
  }
}
