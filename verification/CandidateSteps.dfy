/** The record transactions taken apart: any number of calls in any number of
    processes queue for their process's mutex and the record's file lock, read,
    check, rename, sync and release one step at a time, and a process may die
    between any two steps (withRecord, writeRecord and lockRecord in
    internal/candidate). Every interleaving refines a run of whole transactions. */
module CandidateSteps {
  import opened Wrappers
  import opened Candidate
  import opened CandidateHistory

  datatype Stage =
    | Waiting                            // wants its process's mutex
    | Inside                             // holds the mutex, wants the file lock
    | Entered                            // holds both, has read nothing
    | Read(seen: File)
    | Checked(seen: File)                // has decided on what it saw
    | Replaced(seen: File)               // has renamed, has not synced the directory
    | Leaving(seen: File, fault: Fault)  // its answer is settled
    | Left                               // has released the file lock
  {
    predicate HoldsLock() { Entered? || Read? || Checked? || Replaced? || Leaving? }
    predicate HoldsMutex() { !Waiting? }
  }

  datatype Call = Call(process: nat, op: Op, stage: Stage)

  // The kernel knows the lock's holder; each living process knows its mutex's.
  datatype State = State(file: File, calls: map<nat, Call>, lock: Option<nat>, mutexes: map<nat, nat>)

  datatype Step =
    | Ask(c: nat, process: nat, op: Op)
    | TakeMutex(c: nat)
    | TakeLock(c: nat)
    | GiveUp(c: nat)                     // the lock was not acquired in time
    | ReadRecord(c: nat)
    | Check(c: nat)
    | Conclude(c: nat)                   // refuse, or keep the record
    | FailWrite(c: nat)                  // the write fails before the rename
    | Rename(c: nat)
    | Sync(c: nat, ok: bool)
    | Unlock(c: nat)
    | Return(c: nat)
    | Crash(process: nat)

  predicate At(s: State, c: nat) { c in s.calls }

  function StageOf(s: State, c: nat): Stage requires At(s, c) { s.calls[c].stage }

  predicate Enabled(s: State, step: Step) {
    match step
    case Ask(c, _, _) => c !in s.calls
    case TakeMutex(c) => At(s, c) && StageOf(s, c).Waiting? && s.calls[c].process !in s.mutexes
    case TakeLock(c) => At(s, c) && StageOf(s, c).Inside? && s.lock.None?
    case GiveUp(c) => At(s, c) && StageOf(s, c).Inside?
    case ReadRecord(c) => At(s, c) && StageOf(s, c).Entered?
    case Check(c) => At(s, c) && StageOf(s, c).Read?
    case Conclude(c) => At(s, c) && StageOf(s, c).Checked? && !Decide(s.calls[c].op, StageOf(s, c).seen).Replace?
    case FailWrite(c) => At(s, c) && StageOf(s, c).Checked? && Decide(s.calls[c].op, StageOf(s, c).seen).Replace?
    case Rename(c) => At(s, c) && StageOf(s, c).Checked? && Decide(s.calls[c].op, StageOf(s, c).seen).Replace?
    case Sync(c, _) => At(s, c) && StageOf(s, c).Replaced?
    case Unlock(c) => At(s, c) && StageOf(s, c).Leaving?
    case Return(c) => At(s, c) && StageOf(s, c).Left?
    case Crash(_) => true
  }

  function Move(s: State, c: nat, stage: Stage): State
    requires At(s, c)
  {
    s.(calls := s.calls[c := s.calls[c].(stage := stage)])
  }

  function Next(s: State, step: Step): State
    requires Enabled(s, step)
  {
    match step
    case Ask(c, process, op) => s.(calls := s.calls[c := Call(process, op, Waiting)])
    case TakeMutex(c) => Move(s, c, Inside).(mutexes := s.mutexes[s.calls[c].process := c])
    case TakeLock(c) => Move(s, c, Entered).(lock := Some(c))
    case GiveUp(c) => Move(s, c, Left)
    case ReadRecord(c) => Move(s, c, Read(s.file))
    case Check(c) => Move(s, c, Checked(StageOf(s, c).seen))
    case Conclude(c) => Move(s, c, Leaving(StageOf(s, c).seen, NoFault))
    case FailWrite(c) => Move(s, c, Leaving(StageOf(s, c).seen, BeforeRename))
    case Rename(c) =>
      Move(s, c, Replaced(StageOf(s, c).seen)).(file := Holds(Decide(s.calls[c].op, StageOf(s, c).seen).next))
    case Sync(c, ok) => Move(s, c, Leaving(StageOf(s, c).seen, if ok then NoFault else AfterRename))
    case Unlock(c) => Move(s, c, Left).(lock := None)
    case Return(c) => s.(calls := s.calls - {c}, mutexes := s.mutexes - {s.calls[c].process})
    case Crash(process) =>
      var dead := set c | c in s.calls && s.calls[c].process == process;
      s.(calls := s.calls - dead,
         mutexes := s.mutexes - {process},
         lock := if s.lock.Some? && s.lock.value in dead then None else s.lock)
  }

  // What a call that holds the lock knows about the record.
  ghost predicate Knows(file: File, call: Call) {
    match call.stage
    case Read(seen) => file == seen
    case Checked(seen) => file == seen
    case Replaced(seen) => Decide(call.op, seen).Replace? && file == Holds(Decide(call.op, seen).next)
    case Leaving(seen, fault) => !fault.NoLock? && file == Transact(call.op, seen, fault).0
    case _ => true
  }

  ghost predicate LocksAgree(s: State) {
    && (forall c :: c in s.calls ==> (s.calls[c].stage.HoldsLock() <==> s.lock == Some(c)))
    && (s.lock.Some? ==> s.lock.value in s.calls)
  }

  ghost predicate MutexesAgree(s: State) {
    && (forall c :: c in s.calls && s.calls[c].stage.HoldsMutex() ==>
          s.calls[c].process in s.mutexes && s.mutexes[s.calls[c].process] == c)
    && (forall p :: p in s.mutexes ==>
          s.mutexes[p] in s.calls && s.calls[s.mutexes[p]].process == p && s.calls[s.mutexes[p]].stage.HoldsMutex())
  }

  ghost predicate Inv(s: State) {
    && LocksAgree(s)
    && MutexesAgree(s)
    && (forall c :: c in s.calls ==> Knows(s.file, s.calls[c]))
  }

  // At most one call, over all processes, is between reading and releasing.
  lemma OneHolder(s: State, c: nat, d: nat)
    requires Inv(s) && At(s, c) && At(s, d)
    requires StageOf(s, c).HoldsLock() && StageOf(s, d).HoldsLock()
    ensures c == d
  {
  }

  // The whole transactions a step completes: a rename is where a write takes
  // effect; a refusal, a kept record and a failed write change nothing.
  function Commits(s: State, step: Step): seq<Event>
    requires Enabled(s, step)
  {
    match step
    case Conclude(c) => [Event(s.calls[c].op, false)]
    case FailWrite(c) => [Event(s.calls[c].op, false)]
    case Rename(c) => [Event(s.calls[c].op, true)]
    case _ => []
  }

  lemma StepKeepsLocks(s: State, step: Step)
    requires Inv(s) && Enabled(s, step)
    ensures LocksAgree(Next(s, step))
  {
  }

  // A call that keeps its mutex changes no claim to one.
  lemma MoveKeepsMutexes(s: State, c: nat, stage: Stage)
    requires MutexesAgree(s) && At(s, c) && StageOf(s, c).HoldsMutex() && stage.HoldsMutex()
    ensures MutexesAgree(Move(s, c, stage))
  {
  }

  lemma EnteringKeepsMutexes(s: State, step: Step)
    requires MutexesAgree(s) && Enabled(s, step) && (step.Ask? || step.TakeMutex?)
    ensures MutexesAgree(Next(s, step))
  {
  }

  lemma LeavingKeepsMutexes(s: State, step: Step)
    requires MutexesAgree(s) && Enabled(s, step) && (step.Return? || step.Crash?)
    ensures MutexesAgree(Next(s, step))
  {
  }

  lemma StepKeepsMutexes(s: State, step: Step)
    requires MutexesAgree(s) && Enabled(s, step)
    ensures MutexesAgree(Next(s, step))
  {
    match step
    case Ask(_, _, _) => EnteringKeepsMutexes(s, step);
    case TakeMutex(_) => EnteringKeepsMutexes(s, step);
    case Return(_) => LeavingKeepsMutexes(s, step);
    case Crash(_) => LeavingKeepsMutexes(s, step);
    case TakeLock(c) => MoveKeepsMutexes(s, c, Entered);
    case GiveUp(c) => MoveKeepsMutexes(s, c, Left);
    case ReadRecord(c) => MoveKeepsMutexes(s, c, Read(s.file));
    case Check(c) => MoveKeepsMutexes(s, c, Checked(StageOf(s, c).seen));
    case Conclude(c) => MoveKeepsMutexes(s, c, Leaving(StageOf(s, c).seen, NoFault));
    case FailWrite(c) => MoveKeepsMutexes(s, c, Leaving(StageOf(s, c).seen, BeforeRename));
    case Rename(c) => MoveKeepsMutexes(s, c, Replaced(StageOf(s, c).seen));
    case Sync(c, ok) => MoveKeepsMutexes(s, c, Leaving(StageOf(s, c).seen, if ok then NoFault else AfterRename));
    case Unlock(c) => MoveKeepsMutexes(s, c, Left);
  }

  lemma StepKeepsKnowledge(s: State, step: Step, c: nat)
    requires Inv(s) && Enabled(s, step) && At(Next(s, step), c)
    ensures Knows(Next(s, step).file, Next(s, step).calls[c])
  {
  }

  lemma StepKeepsInv(s: State, step: Step)
    requires Inv(s) && Enabled(s, step)
    ensures Inv(Next(s, step))
  {
    StepKeepsLocks(s, step);
    StepKeepsMutexes(s, step);
    forall c | c in Next(s, step).calls ensures Knows(Next(s, step).file, Next(s, step).calls[c]) {
      StepKeepsKnowledge(s, step, c);
    }
  }

  lemma StepRefines(s: State, step: Step)
    requires Inv(s) && Enabled(s, step)
    ensures IsRun(s.file, Commits(s, step))
    ensures Next(s, step).file == Final(s.file, Commits(s, step))
  {
    var events := Commits(s, step);
    if events != [] { assert events[1..] == []; }
  }

  ghost predicate Executes(s: State, steps: seq<Step>)
    decreases |steps|
  {
    steps == [] || (Enabled(s, steps[0]) && Executes(Next(s, steps[0]), steps[1..]))
  }

  function End(s: State, steps: seq<Step>): State
    requires Executes(s, steps)
    decreases |steps|
  {
    if steps == [] then s else End(Next(s, steps[0]), steps[1..])
  }

  function History(s: State, steps: seq<Step>): seq<Event>
    requires Executes(s, steps)
    decreases |steps|
  {
    if steps == [] then [] else Commits(s, steps[0]) + History(Next(s, steps[0]), steps[1..])
  }

  // Every interleaving of the steps of all writers is a run of whole
  // transactions, with the same record at the end.
  lemma {:induction false} InterleavingRefinesTransactions(s: State, steps: seq<Step>)
    requires Inv(s) && Executes(s, steps)
    ensures Inv(End(s, steps))
    ensures IsRun(s.file, History(s, steps))
    ensures End(s, steps).file == Final(s.file, History(s, steps))
    decreases |steps|
  {
    if steps == [] {
    } else {
      StepKeepsInv(s, steps[0]);
      StepRefines(s, steps[0]);
      InterleavingRefinesTransactions(Next(s, steps[0]), steps[1..]);
      RunAppend(s.file, Commits(s, steps[0]), History(Next(s, steps[0]), steps[1..]));
    }
  }

  // The whole write of a call, if it took effect.
  function Took(call: Call, seen: File, fault: Fault): bool {
    Decide(call.op, seen).Replace? && !fault.BeforeRename?
  }

  // A call past its decision is the last event of the history, and the record
  // it read is what the history before that event leaves.
  ghost predicate Committed(file: File, history: seq<Event>, call: Call) {
    match call.stage
    case Replaced(seen) => LastEvent(file, history, Event(call.op, true), seen)
    case Leaving(seen, fault) => LastEvent(file, history, Event(call.op, Took(call, seen, fault)), seen)
    case _ => true
  }

  ghost predicate LastEvent(file: File, history: seq<Event>, e: Event, seen: File) {
    history != [] && history[|history| - 1] == e && Final(file, history[..|history| - 1]) == seen
  }

  lemma AppendedIsLast(file: File, history: seq<Event>, e: Event)
    ensures LastEvent(file, history + [e], e, Final(file, history))
  {
    assert (history + [e])[..|history|] == history;
  }

  predicate Decides(step: Step) { step.Conclude? || step.FailWrite? || step.Rename? }

  lemma QuietKeepsCommitted(file: File, history: seq<Event>, s: State, step: Step, c: nat)
    requires Inv(s) && Enabled(s, step) && !Decides(step)
    requires At(s, c) ==> Committed(file, history, s.calls[c])
    ensures At(Next(s, step), c) ==> Committed(file, history, Next(s, step).calls[c])
  {
  }

  lemma OwnEventCommits(file: File, history: seq<Event>, s: State, step: Step)
    requires Inv(s) && Enabled(s, step) && Decides(step) && Final(file, history) == s.file
    ensures Committed(file, history + Commits(s, step), Next(s, step).calls[step.c])
  {
    assert StageOf(s, step.c).seen == s.file by { assert Knows(s.file, s.calls[step.c]); }
    AppendedIsLast(file, history, Commits(s, step)[0]);
    assert Next(s, step).calls[step.c].op == s.calls[step.c].op;
  }

  // Other calls commit nothing while this one holds the lock.
  lemma StepKeepsCommitted(file: File, history: seq<Event>, s: State, step: Step, c: nat)
    requires Inv(s) && Enabled(s, step) && Final(file, history) == s.file
    requires At(s, c) ==> Committed(file, history, s.calls[c])
    ensures At(Next(s, step), c) ==> Committed(file, history + Commits(s, step), Next(s, step).calls[c])
  {
    if !Decides(step) {
      QuietKeepsCommitted(file, history, s, step, c);
      assert history + [] == history;
    } else if step.c == c {
      OwnEventCommits(file, history, s, step);
    } else if At(s, c) {
      assert s.lock == Some(step.c) && !StageOf(s, c).HoldsLock();
    }
  }

  lemma Reassociate(a: seq<Event>, b: seq<Event>, c: seq<Event>)
    ensures a + b + c == a + (b + c)
  {
  }

  lemma {:induction false} RunKeepsCommitted(file: File, history: seq<Event>, s: State, steps: seq<Step>, c: nat)
    requires Inv(s) && Executes(s, steps) && Final(file, history) == s.file
    requires At(s, c) ==> Committed(file, history, s.calls[c])
    ensures At(End(s, steps), c) ==> Committed(file, history + History(s, steps), End(s, steps).calls[c])
    decreases |steps|
  {
    if steps == [] {
      assert history + [] == history;
    } else {
      var events, t := Commits(s, steps[0]), Next(s, steps[0]);
      StepKeepsInv(s, steps[0]);
      StepRefines(s, steps[0]);
      RunAppend(file, history, events);
      StepKeepsCommitted(file, history, s, steps[0], c);
      RunKeepsCommitted(file, history + events, t, steps[1..], c);
      Reassociate(history, events, History(t, steps[1..]));
    }
  }

  // A call that reaches its answer has run exactly one whole transaction on
  // the record it read, whatever ran beside it: the history of the
  // interleaving ends with its one event, the events before it leave the
  // record it read, and what it did to that record is its transaction.
  lemma AnswerIsOneTransaction(s: State, steps: seq<Step>, c: nat)
    requires Inv(s) && Executes(s, steps) && !At(s, c)
    requires At(End(s, steps), c) && StageOf(End(s, steps), c).Leaving?
    ensures var call := End(s, steps).calls[c];
            var seen, fault := call.stage.seen, call.stage.fault;
            && LastEvent(s.file, History(s, steps), Event(call.op, Took(call, seen, fault)), seen)
            && End(s, steps).file == Transact(call.op, seen, fault).0
  {
    InterleavingRefinesTransactions(s, steps);
    RunKeepsCommitted(s.file, [], s, steps, c);
    assert [] + History(s, steps) == History(s, steps);
  }

  // A crash leaves exactly the record before the interrupted transaction, or
  // exactly the one after it, and frees the lock.
  lemma CrashLeavesOldOrNew(s: State, c: nat)
    requires Inv(s) && At(s, c) && StageOf(s, c).HoldsLock()
    ensures var s' := Next(s, Crash(s.calls[c].process));
            && s'.lock.None? && s'.file == s.file && c !in s'.calls
            && match StageOf(s, c)
               case Entered => true
               case Read(seen) => s'.file == seen
               case Checked(seen) => s'.file == seen
               case Replaced(seen) => s'.file == After(seen, Event(s.calls[c].op, true))
               case Leaving(seen, fault) =>
                 || s'.file == seen
                 || s'.file == After(seen, Event(s.calls[c].op, true))
               case _ => false
  {
  }

  // A death anywhere else, or of another process, takes no lock from its
  // holder and no knowledge from it.
  lemma OthersSurviveACrash(s: State, process: nat, c: nat)
    requires Inv(s) && At(s, c) && s.calls[c].process != process
    ensures var s' := Next(s, Crash(process));
            At(s', c) && s'.calls[c] == s.calls[c] && (s'.lock == Some(c) <==> s.lock == Some(c))
  {
  }

  // The protected history of any interleaving, crashes included.
  lemma InterleavedHistoryIsRounds(s: State, steps: seq<Step>)
    requires Inv(s) && Executes(s, steps)
    requires InFlightOf(s.file).None? && !QuarantinedFile(s.file)
    ensures Rounds(Marks(s.file, History(s, steps)))
    ensures InFlightOf(End(s, steps).file) == Account(None, History(s, steps))
  {
    InterleavingRefinesTransactions(s, steps);
    ProtectedHistoryIsRounds(s.file, History(s, steps));
    NoStaleCopyMatters(s.file, History(s, steps));
  }
}
