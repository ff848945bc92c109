/** The durable candidate record of one task and the transactions on it
    (internal/candidate/identity.go, internal/candidate/disposition.go).

    Each transaction reads the record, validates it and decides: refuse, keep
    the record as it is, or replace it by one new record. `RecordStore` runs
    them the way the package does; `Decide` says what each one decides. */
module Candidate {
  import opened Wrappers
  import opened Text

  // A time; 0 is the zero time.
  type Time = nat

  datatype InFlight = InFlight(
    invocation: string, phase: string, workspace: string, baseline: string, profile: string, startedAt: Time)

  datatype Disposition =
    Retained | Adopted | Rejected | Superseded | Resumable | Disposed | Quarantined | Unrecognised(text: string)
  {
    predicate Keeps() { Retained? || Resumable? || Quarantined? }
    predicate Valid() { !Unrecognised? }
  }

  datatype Evidence = Evidence(
    baseSha: string, diffDigest: string, diffBytes: int, changedPaths: seq<string>, auditVerdict: string,
    auditDetail: string, executedChecks: seq<string>, producedNoWork: bool)

  datatype Resolution = Resolution(
    disposition: Disposition, reason: string, decidedAt: Time, evidence: Evidence,
    worktreeRemoved: bool, branchRemoved: bool)
  {
    // Whether this resolution may be recorded.
    predicate Valid() {
      && disposition.Valid()
      && !Blank(reason)
      && (!disposition.Keeps() ==> SurvivesRemoval())
    }

    // What must outlive a removed checkout.
    predicate SurvivesRemoval() {
      && !Blank(evidence.baseSha)
      && (evidence.producedNoWork || !Blank(evidence.diffDigest) || evidence.changedPaths != [])
    }
  }

  datatype Identity = Identity(
    taskId: string, repository: string, domain: string, baseSha: string, worktreeState: string,
    graphBuildCommit: string, sourceRepoCommit: string, worktree: string, branch: string, createdAt: Time,
    resolution: Option<Resolution>, inFlight: Option<InFlight>)
  {
    predicate IsQuarantined() { resolution.Some? && resolution.value.disposition.Quarantined? }
    predicate Unsettled() { inFlight.Some? || IsQuarantined() }
  }

  // A resolution that may be recorded has a reason; one that lets the checkout
  // go also names its base and the work, or says that there was none.
  lemma ValidIs(r: Resolution)
    ensures r.Valid() <==>
              && !r.disposition.Unrecognised? && TrimSpace(r.reason) != ""
              && (r.disposition in {Retained, Resumable, Quarantined}
                  || (TrimSpace(r.evidence.baseSha) != ""
                      && (r.evidence.producedNoWork || TrimSpace(r.evidence.diffDigest) != ""
                          || r.evidence.changedPaths != [])))
  {
  }

  // What is on disk at a record's path.
  datatype File = Absent | Torn | Holds(id: Identity)

  datatype Loaded = Missing | Unreadable | Found(id: Identity)

  function Load(file: File, task: string): Loaded {
    match file
    case Absent => Missing
    case Torn => Unreadable
    case Holds(id) =>
      if id.taskId == "" || id.taskId != task || Blank(id.baseSha) then Unreadable else Found(id)
  }

  // A record is read only as its own task's, and only with a base; what cannot
  // be read is no missing record.
  lemma LoadIs(file: File, task: string)
    ensures Load(file, task).Missing? <==> file.Absent?
    ensures Load(file, task).Found? <==>
              file.Holds? && file.id.taskId == task && task != "" && TrimSpace(file.id.baseSha) != ""
    ensures Load(file, task).Found? ==> file == Holds(Load(file, task).id)
  {
  }

  datatype Refusal =
    | UnreadableRecord | NoIdentity | CandidateQuarantined | ProtectedState | NotInFlight | Malformed
    | HeadUnread | CheckoutUnread
    | InvalidResolution | LockNotAcquired | WriteFailed | DirtyCanonical | NoHead | BaseMoved

  datatype Decision = Refuse(why: Refusal) | Keep | Replace(next: Identity)

  // ----- The checks of an ordinary write -----

  predicate DropsUnsettled(onDisk: Identity, next: Identity) {
    || (onDisk.inFlight.Some? && onDisk.inFlight != next.inFlight)
    || (onDisk.IsQuarantined() && onDisk.resolution != next.resolution)
  }

  predicate MintsProtected(durableInFlight: bool, durableQuarantined: bool, next: Identity) {
    || (next.inFlight.Some? && !durableInFlight)
    || (next.IsQuarantined() && !durableQuarantined)
  }

  function DecideSave(i: Identity, file: File): Decision {
    match Load(file, i.taskId)
    case Unreadable => Refuse(UnreadableRecord)
    case Missing => if MintsProtected(false, false, i) then Refuse(ProtectedState) else Replace(i)
    case Found(onDisk) =>
      if onDisk.Unsettled() && DropsUnsettled(onDisk, i) then Refuse(CandidateQuarantined)
      else if MintsProtected(onDisk.inFlight.Some?, onDisk.IsQuarantined(), i) then Refuse(ProtectedState)
      else Replace(i)
  }

  function WithBase(r: Resolution, base: string): Resolution {
    if Blank(r.evidence.baseSha) then r.(evidence := r.evidence.(baseSha := base)) else r
  }

  function DecidedAt(r: Resolution, now: Time): Resolution {
    if r.decidedAt == 0 then r.(decidedAt := now) else r
  }

  function DecideResolve(i: Identity, r: Resolution, now: Time, file: File): Decision {
    if !r.Valid() || r.disposition.Quarantined? then Refuse(InvalidResolution)
    else
      var stamped := WithBase(DecidedAt(r, now), i.baseSha);
      match Load(file, i.taskId)
      case Unreadable => Refuse(UnreadableRecord)
      case Missing =>
        if MintsProtected(false, false, i) then Refuse(ProtectedState) else Replace(i.(resolution := Some(stamped)))
      case Found(onDisk) =>
        if onDisk.Unsettled() then Refuse(CandidateQuarantined) else Replace(onDisk.(resolution := Some(stamped)))
  }

  // ----- The transactions that own the protected state -----

  function Started(f: InFlight, now: Time): InFlight {
    if f.startedAt == 0 then f.(startedAt := now) else f
  }

  function DecideBegin(task: string, f: InFlight, now: Time, file: File): Decision {
    match Load(file, task)
    case Unreadable => Refuse(UnreadableRecord)
    case Missing => Refuse(NoIdentity)
    case Found(id) =>
      if id.Unsettled() then Refuse(CandidateQuarantined)
      else if Blank(f.invocation) || Blank(f.workspace) then Refuse(Malformed)
      else Replace(id.(inFlight := Some(Started(f, now))))
  }

  function DecideNoteBaseline(task: string, invocation: string, baseline: string, file: File): Decision {
    match Load(file, task)
    case Unreadable => Refuse(UnreadableRecord)
    case Missing => Refuse(NoIdentity)
    case Found(id) =>
      if id.inFlight.None? || id.inFlight.value.invocation != invocation then Refuse(NotInFlight)
      else if id.IsQuarantined() then Refuse(CandidateQuarantined)
      else if id.inFlight.value.baseline == baseline then Keep
      else Replace(id.(inFlight := Some(id.inFlight.value.(baseline := baseline))))
  }

  function DecideSettle(task: string, invocation: string, file: File): Decision {
    match Load(file, task)
    case Unreadable => Refuse(UnreadableRecord)
    case Missing => Refuse(NoIdentity)
    case Found(id) =>
      if id.IsQuarantined() then Refuse(CandidateQuarantined)
      else if id.inFlight.None? || id.inFlight.value.invocation != invocation then Refuse(NotInFlight)
      else Replace(id.(inFlight := None))
  }

  function QuarantineResolution(r: Resolution, now: Time, base: string): Resolution {
    WithBase(DecidedAt(r.(disposition := Quarantined), now), base).(worktreeRemoved := false, branchRemoved := false)
  }

  function DecideQuarantine(task: string, r: Resolution, now: Time, file: File): Decision {
    match Load(file, task)
    case Unreadable => Refuse(UnreadableRecord)
    case Missing => Refuse(NoIdentity)
    case Found(id) =>
      if id.IsQuarantined() then Keep
      else if !r.(disposition := Quarantined).Valid() then Refuse(InvalidResolution)
      else Replace(id.(resolution := Some(QuarantineResolution(r, now, id.baseSha))))
  }

  // ----- One vocabulary for every record writer -----

  datatype Op =
    | Save(i: Identity)
    | Resolve(i: Identity, r: Resolution, now: Time)
    | Begin(task: string, f: InFlight, now: Time)
    | NoteBaseline(task: string, invocation: string, baseline: string)
    | Settle(task: string, invocation: string)
    | Quarantine(task: string, r: Resolution, now: Time)

  function Decide(op: Op, file: File): Decision {
    match op
    case Save(i) => DecideSave(i, file)
    case Resolve(i, r, now) => DecideResolve(i, r, now, file)
    case Begin(task, f, now) => DecideBegin(task, f, now, file)
    case NoteBaseline(task, invocation, baseline) => DecideNoteBaseline(task, invocation, baseline, file)
    case Settle(task, invocation) => DecideSettle(task, invocation, file)
    case Quarantine(task, r, now) => DecideQuarantine(task, r, now, file)
  }

  // How the file system treats one transaction: the lock may not be acquired,
  // and a write may fail before the rename or, in syncDir, after it.
  datatype Fault = NoFault | NoLock | BeforeRename | AfterRename

  datatype Outcome = Done | Refused(why: Refusal)

  // The record and the answer after one whole transaction.
  function Transact(op: Op, file: File, fault: Fault): (r: (File, Outcome)) {
    if fault.NoLock? then (file, Refused(LockNotAcquired))
    else
      match Decide(op, file)
      case Refuse(why) => (file, Refused(why))
      case Keep => (file, Done)
      case Replace(next) =>
        match fault
        case BeforeRename => (file, Refused(WriteFailed))
        case AfterRename => (Holds(next), Refused(WriteFailed))
        case _ => (Holds(next), Done)
  }

  // An error answer means "unchanged or already new", never a third record;
  // only a failure after the rename leaves the new record under an error.
  lemma ErrorMeansOldOrNew(op: Op, file: File, fault: Fault)
    ensures var (file', outcome) := Transact(op, file, fault);
            && (outcome.Done? ==> Decide(op, file).Keep? || file' == Holds(Decide(op, file).next))
            && (outcome.Refused? ==>
                  (|| file' == file
                   || (fault.AfterRename? && Decide(op, file).Replace? && file' == Holds(Decide(op, file).next))))
  {
  }

  function GraphBound(i: Identity, graphBuildCommit: string, sourceRepoCommit: string): Identity {
    i.(graphBuildCommit := TrimSpace(graphBuildCommit), sourceRepoCommit := TrimSpace(sourceRepoCommit))
  }

  // The given resolution, with its time and its base filled in where it had none.
  ghost predicate IsStamped(recorded: Resolution, given: Resolution, now: Time, base: string) {
    && recorded.(decidedAt := given.decidedAt, evidence := recorded.evidence.(baseSha := given.evidence.baseSha))
       == given
    && recorded.decidedAt == (if given.decidedAt == 0 then now else given.decidedAt)
    && recorded.evidence.baseSha == (if TrimSpace(given.evidence.baseSha) == "" then base else given.evidence.baseSha)
  }

  // The record of this task, with a new resolution and nothing else changed.
  ghost predicate ResolutionPut(record: Identity, id: Identity) {
    record.resolution.Some? && record.(resolution := id.resolution) == id
  }

  // What a resolution that is recorded replaces.
  lemma ResolutionRecorded(i: Identity, resolution: Resolution, now: Time, file: File)
    ensures Decide(Op.Resolve(i, resolution, now), file).Replace? <==>
              && resolution.Valid() && !resolution.disposition.Quarantined?
              && match Load(file, i.taskId)
                 case Unreadable => false
                 case Found(id) => id.inFlight.None? && !id.IsQuarantined()
                 case Missing => i.inFlight.None? && !i.IsQuarantined()
    ensures Decide(Op.Resolve(i, resolution, now), file).Replace? ==>
              var next := Decide(Op.Resolve(i, resolution, now), file).next;
              && ResolutionPut(next, if file.Holds? then file.id else i)
              && IsStamped(next.resolution.value, resolution, now, i.baseSha)
  {
  }

  // ... with a new execution in flight, or none, and nothing else changed.
  ghost predicate ExecutionPut(record: Identity, id: Identity) {
    record.(inFlight := id.inFlight) == id
  }

  predicate Runs(id: Identity, invocation: string) {
    id.inFlight.Some? && id.inFlight.value.invocation == invocation
  }

  // Why a checkout cannot be established on; it is asked whether it is clean first.
  function Unestablishable(clean: Option<bool>, head: Option<string>): Option<Refusal> {
    if clean != Some(true) then Some(if clean.None? then CheckoutUnread else DirtyCanonical)
    else if head.None? then Some(HeadUnread)
    else if Blank(head.value) then Some(NoHead)
    else None
  }

  function EstablishedAt(bound: Identity, head: string): Identity {
    bound.(baseSha := TrimSpace(head), worktreeState := "clean")
  }

  /** The record as the package's own code keeps it: every method runs under the
      record lock, and its `fault` argument is what the file system does to it. */
  class RecordStore {
    var file: File

    constructor (file: File)
      ensures this.file == file
    {
      this.file := file;
    }

    // writeRecord: replace the record atomically, then make the rename durable.
    method WriteRecord(next: Identity, fault: Fault) returns (o: Outcome)
      requires !fault.NoLock?
      modifies this
      ensures file == (if fault.BeforeRename? then old(file) else Holds(next))
      ensures o == (if fault.NoFault? then Done else Refused(WriteFailed))
    {
      if fault.BeforeRename? {
        return Refused(WriteFailed);
      }
      file := Holds(next);
      return if fault.AfterRename? then Refused(WriteFailed) else Done;
    }

    method Save(i: Identity, fault: Fault) returns (o: Outcome)
      modifies this
      ensures (file, o) == Transact(Op.Save(i), old(file), fault)
      ensures o.Done? ==> file == Holds(i)
      ensures Load(old(file), i.taskId).Found? ==>
                var id := Load(old(file), i.taskId).id;
                (o.Done? <==>
                   && fault.NoFault? && i.inFlight == id.inFlight
                   && (id.IsQuarantined() ==> i.resolution == id.resolution)
                   && (i.IsQuarantined() ==> id.IsQuarantined()))
      ensures Load(old(file), i.taskId).Missing? ==>
                (o.Done? <==> fault.NoFault? && i.inFlight.None? && !i.IsQuarantined())
      ensures Load(old(file), i.taskId).Unreadable? ==> o.Refused? && file == old(file)
    {
      if fault.NoLock? { return Refused(LockNotAcquired); }
      var seen := Load(file, i.taskId);
      if seen.Unreadable? { return Refused(UnreadableRecord); }
      if seen.Found? && seen.id.Unsettled() && DropsUnsettled(seen.id, i) {
        return Refused(CandidateQuarantined);
      }
      if MintsProtected(seen.Found? && seen.id.inFlight.Some?, seen.Found? && seen.id.IsQuarantined(), i) {
        return Refused(ProtectedState);
      }
      o := WriteRecord(i, fault);
    }

    method Resolve(i: Identity, resolution: Resolution, now: Time, fault: Fault) returns (out: Identity, o: Outcome)
      modifies this
      ensures file == Transact(Op.Resolve(i, resolution, now), old(file), fault).0
      ensures o == if !resolution.Valid() || resolution.disposition.Quarantined? then Refused(InvalidResolution)
                   else Transact(Op.Resolve(i, resolution, now), old(file), fault).1
      ensures out == if o.Done? then Decide(Op.Resolve(i, resolution, now), old(file)).next else i
      ensures o.Done? ==>
                && file == Holds(out) && out.resolution.Some?
                && IsStamped(out.resolution.value, resolution, now, i.baseSha)
                && ResolutionPut(out, if old(file).Holds? then old(file).id else i)
      ensures o.Done? <==>
                && resolution.Valid() && !resolution.disposition.Quarantined? && fault.NoFault?
                && match Load(old(file), i.taskId)
                   case Unreadable => false
                   case Found(id) => id.inFlight.None? && !id.IsQuarantined()
                   case Missing => i.inFlight.None? && !i.IsQuarantined()
    {
      out := i;
      ResolutionRecorded(i, resolution, now, file);
      if !resolution.Valid() { return i, Refused(InvalidResolution); }
      if resolution.disposition.Quarantined? { return i, Refused(InvalidResolution); }
      var r := resolution;
      if r.decidedAt == 0 { r := r.(decidedAt := now); }
      if Blank(r.evidence.baseSha) { r := r.(evidence := r.evidence.(baseSha := i.baseSha)); }
      if fault.NoLock? { return i, Refused(LockNotAcquired); }
      var seen := Load(file, i.taskId);
      if seen.Unreadable? { return i, Refused(UnreadableRecord); }
      if seen.Found? && seen.id.Unsettled() { return i, Refused(CandidateQuarantined); }
      var next := i;
      if seen.Found? {
        next := seen.id;
      } else if MintsProtected(false, false, i) {
        return i, Refused(ProtectedState);
      }
      next := next.(resolution := Some(r));
      o := WriteRecord(next, fault);
      if o.Done? { out := next; }
    }

    method BeginExecution(task: string, execution: InFlight, now: Time, fault: Fault)
      returns (out: Option<Identity>, o: Outcome)
      modifies this
      ensures (file, o) == Transact(Begin(task, execution, now), old(file), fault)
      ensures o.Done? ==> out == Some(Decide(Begin(task, execution, now), old(file)).next)
      ensures out.Some? && !o.Done? ==> Load(old(file), task) == Found(out.value)
      ensures o.Done? <==>
                && fault.NoFault? && Load(old(file), task).Found?
                && old(file).id.inFlight.None? && !old(file).id.IsQuarantined()
                && TrimSpace(execution.invocation) != "" && TrimSpace(execution.workspace) != ""
      ensures o.Done? ==>
                && old(file).Holds? && Load(file, task).Found? && out == Some(Load(file, task).id)
                && ExecutionPut(out.value, old(file).id) && out.value.inFlight.Some?
                && var f := out.value.inFlight.value;
                   && f.(startedAt := execution.startedAt) == execution
                   && f.startedAt == if execution.startedAt == 0 then now else execution.startedAt
    {
      out := None;
      if fault.NoLock? { return None, Refused(LockNotAcquired); }
      var seen := Load(file, task);
      if seen.Unreadable? { return None, Refused(UnreadableRecord); }
      if seen.Missing? { return None, Refused(NoIdentity); }
      out := Some(seen.id);
      if seen.id.Unsettled() { return out, Refused(CandidateQuarantined); }
      if Blank(execution.invocation) || Blank(execution.workspace) { return out, Refused(Malformed); }
      var f := execution;
      if f.startedAt == 0 { f := f.(startedAt := now); }
      var id := seen.id.(inFlight := Some(f));
      o := WriteRecord(id, fault);
      out := if o.Done? then Some(id) else None;
    }

    method NoteBaseline(task: string, invocation: string, baseline: string, fault: Fault) returns (o: Outcome)
      modifies this
      ensures (file, o) == Transact(Op.NoteBaseline(task, invocation, baseline), old(file), fault)
      ensures o.Done? <==>
                && Load(old(file), task).Found? && Runs(old(file).id, invocation) && !old(file).id.IsQuarantined()
                && (fault.NoFault? || (!fault.NoLock? && old(file).id.inFlight.value.baseline == baseline))
      ensures o.Done? ==>
                && old(file).Holds? && Load(file, task).Found?
                && ExecutionPut(file.id, old(file).id) && Runs(file.id, invocation) && Runs(old(file).id, invocation)
                && file.id.inFlight.value.baseline == baseline
                && file.id.inFlight.value.(baseline := old(file).id.inFlight.value.baseline)
                   == old(file).id.inFlight.value
    {
      if fault.NoLock? { return Refused(LockNotAcquired); }
      var seen := Load(file, task);
      if seen.Unreadable? { return Refused(UnreadableRecord); }
      if seen.Missing? { return Refused(NoIdentity); }
      var id := seen.id;
      if id.inFlight.None? || id.inFlight.value.invocation != invocation { return Refused(NotInFlight); }
      if id.IsQuarantined() { return Refused(CandidateQuarantined); }
      if id.inFlight.value.baseline == baseline { return Done; }
      id := id.(inFlight := Some(id.inFlight.value.(baseline := baseline)));
      o := WriteRecord(id, fault);
    }

    method SettleExecution(task: string, invocation: string, fault: Fault)
      returns (out: Option<Identity>, o: Outcome)
      modifies this
      ensures (file, o) == Transact(Settle(task, invocation), old(file), fault)
      ensures o.Done? ==> out == Some(Decide(Settle(task, invocation), old(file)).next)
      ensures out.Some? && !o.Done? ==> Load(old(file), task) == Found(out.value)
      ensures o.Done? <==>
                && fault.NoFault? && Load(old(file), task).Found?
                && Runs(old(file).id, invocation) && !old(file).id.IsQuarantined()
      ensures o.Done? ==>
                && old(file).Holds? && Load(file, task).Found? && out == Some(Load(file, task).id)
                && ExecutionPut(out.value, old(file).id) && out.value.inFlight.None?
    {
      out := None;
      if fault.NoLock? { return None, Refused(LockNotAcquired); }
      var seen := Load(file, task);
      if seen.Unreadable? { return None, Refused(UnreadableRecord); }
      if seen.Missing? { return None, Refused(NoIdentity); }
      var id := seen.id;
      out := Some(id);
      if id.IsQuarantined() { return out, Refused(CandidateQuarantined); }
      if id.inFlight.None? || id.inFlight.value.invocation != invocation { return out, Refused(NotInFlight); }
      id := id.(inFlight := None);
      o := WriteRecord(id, fault);
      out := if o.Done? then Some(id) else None;
    }

    method QuarantineExecution(task: string, resolution: Resolution, now: Time, fault: Fault)
      returns (out: Option<Identity>, o: Outcome)
      modifies this
      ensures (file, o) == Transact(Quarantine(task, resolution, now), old(file), fault)
      ensures o.Done? ==> file.Holds? && out == Some(file.id) && file.id.IsQuarantined()
      ensures out.Some? && !o.Done? ==> Load(old(file), task) == Found(out.value)
      ensures o.Done? <==>
                && Load(old(file), task).Found?
                && if old(file).id.IsQuarantined() then !fault.NoLock?
                   else fault.NoFault? && TrimSpace(resolution.reason) != ""
      ensures o.Done? && old(file).id.IsQuarantined() ==> file == old(file)
      ensures o.Done? && !old(file).id.IsQuarantined() ==>
                && Load(file, task).Found? && ResolutionPut(file.id, old(file).id)
                && var given := resolution.(disposition := Quarantined, worktreeRemoved := false,
                                            branchRemoved := false);
                   IsStamped(file.id.resolution.value, given, now, old(file).id.baseSha)
    {
      out := None;
      if fault.NoLock? { return None, Refused(LockNotAcquired); }
      var seen := Load(file, task);
      if seen.Unreadable? { return None, Refused(UnreadableRecord); }
      if seen.Missing? { return None, Refused(NoIdentity); }
      var id := seen.id;
      out := Some(id);
      if id.IsQuarantined() { return out, Done; }
      var r := resolution.(disposition := Quarantined);
      if !r.Valid() { return out, Refused(InvalidResolution); }
      if r.decidedAt == 0 { r := r.(decidedAt := now); }
      if Blank(r.evidence.baseSha) { r := r.(evidence := r.evidence.(baseSha := id.baseSha)); }
      r := r.(worktreeRemoved := false, branchRemoved := false);
      id := id.(resolution := Some(r));
      o := WriteRecord(id, fault);
      out := if o.Done? then Some(id) else None;
    }

    method BindGraph(i: Identity, graphBuildCommit: string, sourceRepoCommit: string, fault: Fault)
      returns (out: Identity, o: Outcome)
      modifies this
      ensures out == GraphBound(i, graphBuildCommit, sourceRepoCommit)
      ensures (file, o) == Transact(Op.Save(out), old(file), fault)
      ensures out.graphBuildCommit == TrimSpace(graphBuildCommit) && out.sourceRepoCommit == TrimSpace(sourceRepoCommit)
      ensures out.(graphBuildCommit := i.graphBuildCommit, sourceRepoCommit := i.sourceRepoCommit) == i
    {
      out := i.(graphBuildCommit := TrimSpace(graphBuildCommit), sourceRepoCommit := TrimSpace(sourceRepoCommit));
      o := Save(out, fault);
    }

    // One Establish that no other writer overlaps; CandidateCopies takes its
    // two halves apart. `clean` and `head` are what the repository answers, if
    // it does.
    method Establish(bound: Identity, clean: Option<bool>, head: Option<string>, fault: Fault)
      returns (out: Option<Identity>, o: Outcome)
      requires bound.inFlight.None? && bound.resolution.None?
      modifies this
      ensures Load(old(file), bound.taskId).Found? ==>
                && file == old(file)
                && (head.None? ==> out.None? && o == Refused(HeadUnread))
                && (head.Some? ==>
                      && out == Some(Load(file, bound.taskId).id)
                      && o == if Blank(head.value) || head.value == out.value.baseSha then Done else Refused(BaseMoved))
      ensures Load(old(file), bound.taskId).Missing? ==>
                && (o.Done? <==> clean == Some(true) && head.Some? && !Blank(head.value) && fault.NoFault?)
                && (o.Done? ==>
                      && file == Holds(EstablishedAt(bound, head.value))
                      && file.id.baseSha == TrimSpace(head.value) && file.id.worktreeState == "clean"
                      && file.id.(baseSha := bound.baseSha, worktreeState := bound.worktreeState) == bound)
                && (o.Refused? ==> out.None?)
      ensures Load(old(file), bound.taskId).Missing? && Unestablishable(clean, head).Some? ==>
                o == Refused(Unestablishable(clean, head).value) && file == old(file)
      ensures Load(old(file), bound.taskId).Missing? && Unestablishable(clean, head).None? ==>
                (file, o) == Transact(Op.Save(EstablishedAt(bound, head.value)), old(file), fault)
      ensures Load(old(file), bound.taskId).Unreadable? ==> file == old(file) && o == Refused(UnreadableRecord)
      ensures o.Done? ==> file.Holds? && out == Some(file.id)
    {
      out := None;
      var seen := Load(file, bound.taskId);
      if seen.Unreadable? { return None, Refused(UnreadableRecord); }
      if seen.Found? {
        if head.None? { return None, Refused(HeadUnread); }
        if !Blank(head.value) && head.value != seen.id.baseSha { return Some(seen.id), Refused(BaseMoved); }
        return Some(seen.id), Done;
      }
      if clean.None? { return None, Refused(CheckoutUnread); }
      if !clean.value { return None, Refused(DirtyCanonical); }
      if head.None? { return None, Refused(HeadUnread); }
      if Blank(head.value) { return None, Refused(NoHead); }
      var id := EstablishedAt(bound, head.value);
      o := Save(id, fault);
      if o.Done? { out := Some(id); }
    }
  }
}
