/** What every run of record transactions keeps, whatever stale copies the
    ordinary writers bring: who may change the execution in flight, the shape of
    the protected history, and the finality of a quarantine. */
module CandidateHistory {
  import opened Wrappers
  import opened Candidate

  // One transaction of a run: what was asked, and whether its write took
  // effect. A write that took effect counts even when it was answered with an
  // error, and a write that was refused or failed before the rename does not.
  datatype Event = Event(op: Op, took: bool)

  ghost predicate Possible(file: File, e: Event) {
    e.took ==> Decide(e.op, file).Replace?
  }

  function After(file: File, e: Event): File {
    if e.took && Decide(e.op, file).Replace? then Holds(Decide(e.op, file).next) else file
  }

  ghost predicate IsRun(file: File, events: seq<Event>)
    decreases |events|
  {
    events == [] || (Possible(file, events[0]) && IsRun(After(file, events[0]), events[1..]))
  }

  function Final(file: File, events: seq<Event>): File
    decreases |events|
  {
    if events == [] then file else Final(After(file, events[0]), events[1..])
  }

  lemma {:induction false} RunAppend(file: File, a: seq<Event>, b: seq<Event>)
    ensures IsRun(file, a + b) <==> IsRun(file, a) && IsRun(Final(file, a), b)
    ensures Final(file, a + b) == Final(Final(file, a), b)
    decreases |a|
  {
    if a == [] {
      assert a + b == b;
    } else {
      assert (a + b)[1..] == a[1..] + b;
      RunAppend(After(file, a[0]), a[1..], b);
    }
  }

  // Transact is what one event does, for every fault.
  lemma TransactIsAnEvent(op: Op, file: File, fault: Fault)
    ensures exists took ::
              Possible(file, Event(op, took)) && Transact(op, file, fault).0 == After(file, Event(op, took))
  {
    var took := Decide(op, file).Replace? && !fault.NoLock? && !fault.BeforeRename?;
    assert Possible(file, Event(op, took)) && Transact(op, file, fault).0 == After(file, Event(op, took));
  }

  // ----- The execution in flight -----

  function InFlightOf(file: File): Option<InFlight> {
    if file.Holds? then file.id.inFlight else None
  }

  predicate QuarantinedFile(file: File) { file.Holds? && file.id.IsQuarantined() }

  // A reference account of the execution in flight that reads the protected
  // operations only: no copy handed to an ordinary write appears in it.
  function AccountStep(current: Option<InFlight>, e: Event): Option<InFlight> {
    if !e.took then current
    else
      match e.op
      case Begin(_, f, now) => Some(Started(f, now))
      case NoteBaseline(_, _, baseline) =>
        if current.Some? then Some(current.value.(baseline := baseline)) else None
      case Settle(_, _) => None
      case _ => current
  }

  function Account(current: Option<InFlight>, events: seq<Event>): Option<InFlight>
    decreases |events|
  {
    if events == [] then current else Account(AccountStep(current, events[0]), events[1..])
  }

  lemma StepKeepsAccount(file: File, e: Event)
    requires Possible(file, e)
    ensures InFlightOf(After(file, e)) == AccountStep(InFlightOf(file), e)
    ensures e.took && e.op.NoteBaseline? ==>
              InFlightOf(file).Some? && InFlightOf(file).value.invocation == e.op.invocation
    ensures e.took && e.op.Settle? ==>
              InFlightOf(file).Some? && InFlightOf(file).value.invocation == e.op.invocation
    ensures e.took && e.op.Begin? ==> InFlightOf(file).None?
  {
  }

  // No stale copy resurrects or erases an execution: in every run the record
  // carries exactly the execution the protected operations account for.
  lemma {:induction false} NoStaleCopyMatters(file: File, events: seq<Event>)
    requires IsRun(file, events)
    ensures InFlightOf(Final(file, events)) == Account(InFlightOf(file), events)
    decreases |events|
  {
    if events == [] {
    } else {
      StepKeepsAccount(file, events[0]);
      NoStaleCopyMatters(After(file, events[0]), events[1..]);
    }
  }

  ghost predicate BeginsBetween(events: seq<Event>, invocation: string) {
    exists k :: 0 <= k < |events| && events[k].took && events[k].op.Begin? && events[k].op.f.invocation == invocation
  }

  // Once an invocation is settled, only BeginExecution can put it back.
  lemma {:induction false} SettledStaysSettled(file: File, events: seq<Event>, invocation: string)
    requires IsRun(file, events)
    requires InFlightOf(file).None? || InFlightOf(file).value.invocation != invocation
    requires !BeginsBetween(events, invocation)
    ensures InFlightOf(Final(file, events)).None? || InFlightOf(Final(file, events)).value.invocation != invocation
    decreases |events|
  {
    if events == [] {
    } else {
      StepKeepsAccount(file, events[0]);
      assert forall k :: 0 <= k < |events| - 1 ==> events[1..][k] == events[k + 1];
      SettledStaysSettled(After(file, events[0]), events[1..], invocation);
    }
  }

  // While an execution is in flight every ordinary write keeps it exactly, and
  // a baseline changes only by NoteBaseline of that very invocation.
  lemma OrdinaryWritesKeepTheExecution(file: File, e: Event, f: InFlight)
    requires Possible(file, e) && InFlightOf(file) == Some(f)
    ensures e.op.Save? || e.op.Resolve? || e.op.Quarantine? ==> InFlightOf(After(file, e)) == Some(f)
    ensures InFlightOf(After(file, e)) != Some(f) ==>
              || (e.took && e.op.Settle? && e.op.invocation == f.invocation && InFlightOf(After(file, e)).None?)
              || (e.took && e.op.NoteBaseline? && e.op.invocation == f.invocation
                  && InFlightOf(After(file, e)) == Some(f.(baseline := e.op.baseline)))
  {
  }

  // ----- The shape of the protected history -----

  datatype Mark = Began(invocation: string) | Noted(invocation: string) | Settled(invocation: string) | Quarantining

  // What a successful protected operation leaves in the history. Noting the
  // baseline already on record succeeds without a write; repeating a
  // quarantine changes nothing and leaves no mark.
  function MarkOf(file: File, e: Event): Option<Mark> {
    match e.op
    case Begin(_, f, _) => if e.took then Some(Began(f.invocation)) else None
    case NoteBaseline(_, invocation, _) =>
      if e.took || Decide(e.op, file).Keep? then Some(Noted(invocation)) else None
    case Settle(_, invocation) => if e.took then Some(Settled(invocation)) else None
    case Quarantine(_, _, _) => if e.took then Some(Quarantining) else None
    case _ => None
  }

  function Marks(file: File, events: seq<Event>): seq<Mark>
    decreases |events|
  {
    if events == [] then []
    else
      var rest := Marks(After(file, events[0]), events[1..]);
      if MarkOf(file, events[0]).Some? then [MarkOf(file, events[0]).value] + rest else rest
  }

  // Which mark may follow which: rounds of Began I, Noted I, ..., Settled I,
  // and nothing after a quarantine.
  predicate Follows(m: Mark, next: Mark) {
    match m
    case Began(i) => next == Noted(i) || next == Settled(i) || next.Quarantining?
    case Noted(i) => next == Noted(i) || next == Settled(i) || next.Quarantining?
    case Settled(_) => next.Began? || next.Quarantining?
    case Quarantining => false
  }

  ghost predicate Rounds(marks: seq<Mark>) {
    && (marks != [] ==> marks[0].Began? || marks[0].Quarantining?)
    && forall k :: 0 < k < |marks| ==> Follows(marks[k - 1], marks[k])
  }

  // May `next` be the first mark of a run that starts at this record?
  predicate MayOpen(file: File, next: Mark) {
    if QuarantinedFile(file) then false
    else if InFlightOf(file).Some? then Follows(Began(InFlightOf(file).value.invocation), next)
    else next.Began? || next.Quarantining?
  }

  lemma MarkStep(file: File, e: Event, next: Mark)
    requires Possible(file, e)
    ensures MarkOf(file, e).None? && MayOpen(After(file, e), next) ==> MayOpen(file, next)
    ensures MarkOf(file, e).Some? ==> MayOpen(file, MarkOf(file, e).value)
    ensures MarkOf(file, e).Some? && MayOpen(After(file, e), next) ==> Follows(MarkOf(file, e).value, next)
  {
    StepKeepsAccount(file, e);
    if QuarantinedFile(file) { QuarantineKept(file, e); }
  }

  lemma {:induction false} MarksChain(file: File, events: seq<Event>)
    requires IsRun(file, events)
    ensures var marks := Marks(file, events);
            && (marks != [] ==> MayOpen(file, marks[0]))
            && forall k :: 0 < k < |marks| ==> Follows(marks[k - 1], marks[k])
    decreases |events|
  {
    if events == [] {
    } else {
      var next := After(file, events[0]);
      MarksChain(next, events[1..]);
      var rest := Marks(next, events[1..]);
      MarkStep(file, events[0], if rest != [] then rest[0] else Quarantining);
    }
  }

  // In every run that starts from a settled record, or from none, the
  // successful protected operations are rounds of one invocation each, cut
  // off by at most one quarantine.
  lemma ProtectedHistoryIsRounds(file: File, events: seq<Event>)
    requires IsRun(file, events)
    requires InFlightOf(file).None? && !QuarantinedFile(file)
    ensures Rounds(Marks(file, events))
  {
    MarksChain(file, events);
  }

  // ----- A quarantine is final -----

  lemma QuarantineKept(file: File, e: Event)
    requires Possible(file, e) && QuarantinedFile(file)
    ensures After(file, e).Holds?
    ensures After(file, e).id.resolution == file.id.resolution && After(file, e).id.inFlight == file.id.inFlight
    ensures MarkOf(file, e).None?
  {
  }

  // After a quarantine both the execution in flight and the resolution stay as
  // they are in every later record, and no protected operation succeeds.
  lemma {:induction false} QuarantineIsFinal(file: File, events: seq<Event>)
    requires IsRun(file, events) && QuarantinedFile(file)
    ensures Final(file, events).Holds?
    ensures Final(file, events).id.resolution == file.id.resolution
    ensures Final(file, events).id.inFlight == file.id.inFlight
    ensures Marks(file, events) == []
    decreases |events|
  {
    if events == [] {
    } else {
      QuarantineKept(file, events[0]);
      QuarantineIsFinal(After(file, events[0]), events[1..]);
    }
  }

  // Only QuarantineExecution makes a record quarantined.
  lemma OnlyQuarantineExecutionQuarantines(file: File, e: Event)
    requires Possible(file, e) && !QuarantinedFile(file) && QuarantinedFile(After(file, e))
    ensures e.took && e.op.Quarantine?
    ensures After(file, e).id.inFlight == InFlightOf(file)
  {
  }
}
