/** The base of a candidate, when every copy an ordinary writer hands back came
    from this package. Copies are held by callers for any time, and `Establish`
    reads outside the record lock and saves later, so that any number of
    establishments may overlap. */
module CandidateCopies {
  import opened Wrappers
  import opened Text
  import opened Candidate
  import opened CandidateHistory

  // The record of one task, every copy ever handed to a caller, and the
  // establishments that have found no record and have not saved yet.
  datatype State = State(file: File, copies: set<Identity>, pending: map<nat, Identity>)

  datatype Action =
    | Look                                      // Load or LoadLocked
    | Transaction(op: Op, took: bool)           // one of the operations that own the protected state
    | SaveCopy(c: Identity, took: bool)
    | ResolveCopy(c: Identity, r: Resolution, now: Time, took: bool)
    | BindGraph(c: Identity, graphBuildCommit: string, sourceRepoCommit: string, took: bool)
    | StartEstablish(e: nat, blank: Identity, clean: bool, head: string)
    | FinishEstablish(e: nat, took: bool, answered: bool)    // the save took effect; it was answered without error

  predicate ForTask(op: Op, task: string) {
    match op
    case Begin(t, _, _) => t == task
    case NoteBaseline(t, _, _) => t == task
    case Settle(t, _) => t == task
    case Quarantine(t, _, _) => t == task
    case _ => false
  }

  // Only copies this package returned are handed back.
  ghost predicate Enabled(s: State, a: Action, task: string) {
    match a
    case Look => true
    case Transaction(op, took) => ForTask(op, task) && Possible(s.file, Event(op, took))
    case SaveCopy(c, took) => c in s.copies && Possible(s.file, Event(Save(c), took))
    case ResolveCopy(c, r, now, took) => c in s.copies && Possible(s.file, Event(Resolve(c, r, now), took))
    case BindGraph(c, g, r, took) => c in s.copies && Possible(s.file, Event(Save(GraphBound(c, g, r)), took))
    case StartEstablish(e, blank, _, _) =>
      e !in s.pending && blank.taskId == task && blank.resolution.None? && blank.inFlight.None?
    case FinishEstablish(e, took, answered) =>
      e in s.pending && (answered ==> took) && Possible(s.file, Event(Save(s.pending[e]), took))
  }

  function Seen(file: File, task: string): set<Identity> {
    match Load(file, task) case Found(id) => {id} case _ => {}
  }

  // An establishment that finds no record at a clean head goes on to save. One
  // whose repository does not answer stops like one that finds it dirty.
  predicate Proceeds(s: State, a: Action, task: string) {
    a.StartEstablish? && Load(s.file, task).Missing? && a.clean && !Blank(a.head)
  }

  // The identities a call may return: what it read and what it wrote.
  function Next(s: State, a: Action, task: string): State {
    match a
    case Look => s.(copies := s.copies + Seen(s.file, task))
    case Transaction(op, took) =>
      var file := After(s.file, Event(op, took));
      s.(file := file, copies := s.copies + Seen(s.file, task) + Seen(file, task))
    case SaveCopy(c, took) => s.(file := After(s.file, Event(Save(c), took)))
    case ResolveCopy(c, r, now, took) =>
      var file := After(s.file, Event(Resolve(c, r, now), took));
      s.(file := file, copies := s.copies + Seen(file, task))
    case BindGraph(c, g, r, took) =>
      s.(file := After(s.file, Event(Save(GraphBound(c, g, r)), took)), copies := s.copies + {GraphBound(c, g, r)})
    case StartEstablish(e, blank, clean, head) =>
      if Proceeds(s, a, task) then s.(pending := s.pending[e := EstablishedAt(blank, head)])
      else s.(copies := s.copies + Seen(s.file, task))
    case FinishEstablish(e, took, answered) =>
      if e !in s.pending then s
      else
        s.(file := After(s.file, Event(Save(s.pending[e]), took)),
           copies := if answered then s.copies + {s.pending[e]} else s.copies,
           pending := s.pending - {e})
  }

  ghost predicate Sound(id: Identity, task: string) {
    && id.taskId == task
    && !Blank(id.baseSha)
    && (id.resolution.Some? ==> id.resolution.value.Valid())
  }

  // What holds however calls overlap.
  ghost predicate Inv(s: State, task: string) {
    && !s.file.Torn?
    && (s.file.Absent? ==> s.copies == {})
    && (s.file.Holds? ==> Sound(s.file.id, task))
    && (forall c :: c in s.copies ==> Sound(c, task))
    && (forall e :: e in s.pending ==> Sound(s.pending[e], task))
  }

  lemma SaveKeepsInv(s: State, a: Action, task: string)
    requires Inv(s, task) && Enabled(s, a, task) && (a.SaveCopy? || a.BindGraph?)
    ensures Inv(Next(s, a, task), task)
    ensures s.file.Holds? ==> Next(s, a, task).file.Holds?
  {
    SaveWrites(s.file, if a.SaveCopy? then a.c else GraphBound(a.c, a.graphBuildCommit, a.sourceRepoCommit), a.took);
  }

  lemma EstablishKeepsInv(s: State, a: Action, task: string)
    requires Inv(s, task) && Enabled(s, a, task) && (a.StartEstablish? || a.FinishEstablish?)
    ensures Inv(Next(s, a, task), task)
    ensures s.file.Holds? ==> Next(s, a, task).file.Holds?
  {
    if a.StartEstablish? { TrimSpaceIdempotent(a.head); } else { SaveWrites(s.file, s.pending[a.e], a.took); }
  }

  lemma RewriteKeepsInv(s: State, a: Action, task: string)
    requires Inv(s, task) && Enabled(s, a, task) && (a.Transaction? || a.ResolveCopy?)
    ensures Inv(Next(s, a, task), task)
    ensures s.file.Holds? ==> Next(s, a, task).file.Holds?
  {
    match a
    case Transaction(op, took) => TransactionKeepsRecord(s.file, op, took, task);
    case ResolveCopy(c, r, now, took) => ResolveKeepsRecord(s.file, c, r, now, took, task);
  }

  lemma StepKeepsInv(s: State, a: Action, task: string)
    requires Inv(s, task) && Enabled(s, a, task)
    ensures Inv(Next(s, a, task), task)
    ensures s.file.Holds? ==> Next(s, a, task).file.Holds?
  {
    if a.Transaction? || a.ResolveCopy? {
      RewriteKeepsInv(s, a, task);
    } else if a.SaveCopy? || a.BindGraph? {
      SaveKeepsInv(s, a, task);
    } else if !a.Look? {
      EstablishKeepsInv(s, a, task);
    }
  }

  lemma SaveWrites(file: File, i: Identity, took: bool)
    requires Possible(file, Event(Save(i), took))
    ensures After(file, Event(Save(i), took)) == if took then Holds(i) else file
  {
  }

  lemma TransactionKeepsRecord(file: File, op: Op, took: bool, task: string)
    requires ForTask(op, task) && Possible(file, Event(op, took))
    requires file.Holds? ==> Sound(file.id, task)
    requires !file.Torn?
    ensures var file' := After(file, Event(op, took));
            if file.Absent? then file' == file
            else file'.Holds? && Sound(file'.id, task) && file'.id.baseSha == file.id.baseSha
  {
  }

  lemma ResolveKeepsRecord(file: File, c: Identity, r: Resolution, now: Time, took: bool, task: string)
    requires Possible(file, Event(Resolve(c, r, now), took))
    requires file.Holds? && Sound(file.id, task) && Sound(c, task)
    ensures var file' := After(file, Event(Resolve(c, r, now), took));
            file'.Holds? && Sound(file'.id, task) && file'.id.baseSha == file.id.baseSha
  {
  }

  ghost predicate Executes(s: State, actions: seq<Action>, task: string)
    decreases |actions|
  {
    actions == [] || (Enabled(s, actions[0], task) && Executes(Next(s, actions[0], task), actions[1..], task))
  }

  function End(s: State, actions: seq<Action>, task: string): State
    decreases |actions|
  {
    if actions == [] then s else End(Next(s, actions[0], task), actions[1..], task)
  }

  const Start := State(Absent, {}, map[])

  lemma {:induction false} RunKeepsInv(s: State, actions: seq<Action>, task: string)
    requires Inv(s, task) && Executes(s, actions, task)
    ensures Inv(End(s, actions, task), task)
    ensures s.file.Holds? ==> End(s, actions, task).file.Holds?
    decreases |actions|
  {
    if actions == [] {
    } else {
      StepKeepsInv(s, actions[0], task);
      RunKeepsInv(Next(s, actions[0], task), actions[1..], task);
    }
  }

  // ----- When the base moves -----

  // The base a whole identity carries to the record, if this action saves one
  // and the save takes effect. Transactions and resolutions carry none: they
  // rewrite the record they read.
  function Carries(s: State, a: Action): Option<string> {
    match a
    case SaveCopy(c, took) => if took then Some(c.baseSha) else None
    case BindGraph(c, _, _, took) => if took then Some(c.baseSha) else None
    case FinishEstablish(e, took, _) => if took && e in s.pending then Some(s.pending[e].baseSha) else None
    case _ => None
  }

  ghost predicate CarriesAnother(s: State, a: Action, base: string) {
    Carries(s, a).Some? && Carries(s, a).value != base
  }

  // One step moves a recorded base exactly when it carries another one.
  lemma StepMovesBaseIff(s: State, a: Action, task: string)
    requires Inv(s, task) && Enabled(s, a, task) && s.file.Holds?
    ensures Next(s, a, task).file.Holds?
    ensures Next(s, a, task).file.id.baseSha != s.file.id.baseSha <==> CarriesAnother(s, a, s.file.id.baseSha)
  {
    match a
    case Transaction(op, took) => TransactionKeepsRecord(s.file, op, took, task);
    case SaveCopy(c, took) => SaveWrites(s.file, c, took);
    case ResolveCopy(c, r, now, took) => ResolveKeepsRecord(s.file, c, r, now, took, task);
    case BindGraph(c, g, r, took) => SaveWrites(s.file, GraphBound(c, g, r), took);
    case FinishEstablish(e, took, _) => SaveWrites(s.file, s.pending[e], took);
    case _ =>
  }

  // Every record of the run has this base.
  ghost predicate BaseStays(s: State, actions: seq<Action>, task: string, base: string)
    decreases |actions|
  {
    && s.file.Holds? && s.file.id.baseSha == base
    && (actions != [] ==> BaseStays(Next(s, actions[0], task), actions[1..], task, base))
  }

  // No save of the run that took effect carried another one.
  ghost predicate NoneCarriesAnother(s: State, actions: seq<Action>, task: string, base: string)
    decreases |actions|
  {
    actions != [] ==>
      && !CarriesAnother(s, actions[0], base)
      && NoneCarriesAnother(Next(s, actions[0], task), actions[1..], task, base)
  }

  // A run keeps a recorded base if and only if no copy and no establishment
  // whose save took effect carried another one.
  lemma {:induction false} BaseStaysIff(s: State, actions: seq<Action>, task: string)
    requires Inv(s, task) && Executes(s, actions, task) && s.file.Holds?
    ensures BaseStays(s, actions, task, s.file.id.baseSha) <==> NoneCarriesAnother(s, actions, task, s.file.id.baseSha)
    decreases |actions|
  {
    if actions == [] {
    } else {
      var t := Next(s, actions[0], task);
      StepKeepsInv(s, actions[0], task);
      StepMovesBaseIff(s, actions[0], task);
      if t.file.id.baseSha == s.file.id.baseSha { BaseStaysIff(t, actions[1..], task); }
    }
  }

  // ----- What keeps it from moving -----

  // Record, copies and pending establishments all speak of one base.
  ghost predicate Agrees(s: State, base: string) {
    && (s.file.Holds? ==> s.file.id.baseSha == base)
    && (forall c :: c in s.copies ==> c.baseSha == base)
    && (forall e :: e in s.pending ==> s.pending[e].baseSha == base)
  }

  // An establishment may overlap others only at their head.
  ghost predicate AtOneHead(s: State, a: Action, task: string) {
    Proceeds(s, a, task) ==> forall e :: e in s.pending ==> s.pending[e].baseSha == TrimSpace(a.head)
  }

  ghost predicate OneHead(s: State, actions: seq<Action>, task: string)
    decreases |actions|
  {
    actions != [] ==> AtOneHead(s, actions[0], task) && OneHead(Next(s, actions[0], task), actions[1..], task)
  }

  // The base that state speaks of after this step.
  ghost function BaseAfter(s: State, a: Action, task: string, base: string): string {
    if Proceeds(s, a, task) then TrimSpace(a.head) else base
  }

  lemma SaveKeepsAgreement(s: State, a: Action, task: string, base: string)
    requires Enabled(s, a, task) && Agrees(s, base) && (a.SaveCopy? || a.BindGraph? || a.FinishEstablish?)
    ensures Agrees(Next(s, a, task), base) && (s.file.Holds? ==> Next(s, a, task).file.Holds?)
  {
    var i := match a
             case SaveCopy(c, _) => c
             case BindGraph(c, g, r, _) => GraphBound(c, g, r)
             case FinishEstablish(e, _, _) => s.pending[e];
    SaveWrites(s.file, i, a.took);
  }

  lemma RewriteKeepsAgreement(s: State, a: Action, task: string, base: string)
    requires Inv(s, task) && Enabled(s, a, task) && Agrees(s, base) && (a.Transaction? || a.ResolveCopy?)
    ensures Agrees(Next(s, a, task), base) && (s.file.Holds? ==> Next(s, a, task).file.Holds?)
  {
    match a
    case Transaction(op, took) => TransactionKeepsRecord(s.file, op, took, task);
    case ResolveCopy(c, r, now, took) => ResolveKeepsRecord(s.file, c, r, now, took, task);
  }

  lemma StartKeepsAgreement(s: State, a: Action, task: string, base: string)
    requires Inv(s, task) && Agrees(s, base) && (a.StartEstablish? || a.Look?) && AtOneHead(s, a, task)
    ensures Agrees(Next(s, a, task), BaseAfter(s, a, task, base)) && Next(s, a, task).file == s.file
    ensures s.file.Holds? ==> BaseAfter(s, a, task, base) == base
  {
  }

  lemma StepKeepsAgreement(s: State, a: Action, task: string, base: string)
    requires Inv(s, task) && Enabled(s, a, task) && Agrees(s, base) && AtOneHead(s, a, task)
    ensures Agrees(Next(s, a, task), BaseAfter(s, a, task, base))
    ensures s.file.Holds? ==> BaseAfter(s, a, task, base) == base && Next(s, a, task).file.Holds?
  {
    if a.Transaction? || a.ResolveCopy? {
      RewriteKeepsAgreement(s, a, task, base);
    } else if a.StartEstablish? || a.Look? {
      StartKeepsAgreement(s, a, task, base);
    } else {
      SaveKeepsAgreement(s, a, task, base);
    }
  }

  // When establishments overlap at one head only, and so whenever they do not
  // overlap, the base never changes once recorded.
  lemma {:induction false} BaseIsImmutable(s: State, actions: seq<Action>, task: string, base: string)
    returns (last: string)
    requires Inv(s, task) && Executes(s, actions, task) && Agrees(s, base) && OneHead(s, actions, task)
    ensures Inv(End(s, actions, task), task) && Agrees(End(s, actions, task), last)
    ensures s.file.Holds? ==>
              End(s, actions, task).file.Holds? && End(s, actions, task).file.id.baseSha == s.file.id.baseSha == last
    decreases |actions|
  {
    if actions == [] {
      last := base;
    } else {
      StepKeepsInv(s, actions[0], task);
      StepKeepsAgreement(s, actions[0], task, base);
      last := BaseIsImmutable(Next(s, actions[0], task), actions[1..], task, BaseAfter(s, actions[0], task, base));
    }
  }

  // What an establishment returns when it answers without error: the recorded
  // identity, or the one it just recorded.
  ghost predicate EstablishReturns(s: State, a: Action, task: string, id: Identity) {
    match a
    case StartEstablish(_, _, _, head) => Load(s.file, task) == Found(id) && (Blank(head) || head == id.baseSha)
    case FinishEstablish(e, _, answered) => answered && e in s.pending && s.pending[e] == id
    case _ => false
  }

  // Any two establishments of such a run that do not refuse return one base,
  // the recorded one.
  lemma EstablishReturnsTheBase(a: seq<Action>, x: Action, b: seq<Action>, y: Action, task: string, i: Identity,
      j: Identity)
    requires task != ""
    requires Executes(Start, a, task) && OneHead(Start, a, task)
    requires var s := End(Start, a, task);
             Enabled(s, x, task) && AtOneHead(s, x, task) && EstablishReturns(s, x, task, i)
    requires var t := Next(End(Start, a, task), x, task); Executes(t, b, task) && OneHead(t, b, task)
    requires var u := End(Next(End(Start, a, task), x, task), b, task);
             Enabled(u, y, task) && EstablishReturns(u, y, task, j)
    ensures i.baseSha == j.baseSha
    ensures var u := End(Next(End(Start, a, task), x, task), b, task); u.file.Holds? && u.file.id.baseSha == j.baseSha
  {
    var s := End(Start, a, task);
    var base := BaseIsImmutable(Start, a, task, "");
    StepKeepsInv(s, x, task);
    StepKeepsAgreement(s, x, task, base);
    var t := Next(s, x, task);
    assert t.file.Holds? && t.file.id.baseSha == i.baseSha;
    var last := BaseIsImmutable(t, b, task, BaseAfter(s, x, task, base));
  }

  // Every removal on record names its base and the work it removed, or that
  // there was none, however calls overlap.
  lemma RemovalsKeepEvidence(actions: seq<Action>, task: string)
    requires Executes(Start, actions, task)
    ensures var file := End(Start, actions, task).file;
            file.Holds? && file.id.resolution.Some? ==>
              var r := file.id.resolution.value;
              && !r.disposition.Unrecognised? && TrimSpace(r.reason) != ""
              && (r.disposition in {Adopted, Rejected, Superseded, Disposed} ==>
                    && TrimSpace(r.evidence.baseSha) != ""
                    && (r.evidence.producedNoWork || TrimSpace(r.evidence.diffDigest) != ""
                        || r.evidence.changedPaths != []))
  {
    RunKeepsInv(Start, actions, task);
  }

  // Two establishments that both found no record.
  function Overlap(blank: Identity, first: string, second: string): seq<Action> {
    [StartEstablish(0, blank, true, first), StartEstablish(1, blank, true, second),
     FinishEstablish(0, true, true), FinishEstablish(1, true, true)]
  }

  lemma ExecutesFirst(s: State, a: Action, rest: seq<Action>, task: string)
    requires Enabled(s, a, task) && Executes(Next(s, a, task), rest, task)
    ensures Executes(s, [a] + rest, task)
    ensures End(s, [a] + rest, task) == End(Next(s, a, task), rest, task)
    ensures OneHead(s, [a] + rest, task) <==> AtOneHead(s, a, task) && OneHead(Next(s, a, task), rest, task)
  {
    assert ([a] + rest)[1..] == rest;
  }

  // The states of that run.
  lemma OverlapSteps(a: Identity, b: Identity, task: string)
    requires task == a.taskId == b.taskId != "" && !Blank(a.baseSha) && !Blank(b.baseSha)
    requires a.resolution.None? && a.inFlight.None? && b.resolution.None? && b.inFlight.None?
    ensures var s := State(Absent, {}, map[0 := a, 1 := b]);
            var t := State(Holds(a), {a}, map[1 := b]);
            && Enabled(s, FinishEstablish(0, true, true), task) && Next(s, FinishEstablish(0, true, true), task) == t
            && Enabled(t, FinishEstablish(1, true, true), task) &&
                Next(t, FinishEstablish(1, true, true), task).file == Holds(b)
  {
    assert map[0 := a, 1 := b] - {0} == map[1 := b];
  }

  // The run's first steps, up to two pending establishments.
  lemma OverlapStarts(blank: Identity, first: string, second: string, rest: seq<Action>)
    requires blank.taskId != "" && blank.resolution.None? && blank.inFlight.None?
    requires !Blank(first) && !Blank(second)
    ensures var task := blank.taskId;
            var a, b := EstablishedAt(blank, first), EstablishedAt(blank, second);
            var s := State(Absent, {}, map[0 := a, 1 := b]);
            var run := [StartEstablish(0, blank, true, first), StartEstablish(1, blank, true, second)] + rest;
            && (Executes(s, rest, task) ==> Executes(Start, run, task))
            && End(Start, run, task) == End(s, rest, task)
            && (OneHead(Start, run, task) <==> a.baseSha == b.baseSha && OneHead(s, rest, task))
  {
    var task := blank.taskId;
    var a, b := EstablishedAt(blank, first), EstablishedAt(blank, second);
    var x, y := StartEstablish(0, blank, true, first), StartEstablish(1, blank, true, second);
    var one := State(Absent, {}, map[0 := a]);
    assert Next(Start, x, task) == one;
    assert Next(one, y, task) == State(Absent, {}, map[0 := a, 1 := b]);
    assert AtOneHead(one, y, task) <==> a.baseSha == b.baseSha by { assert one.pending[0] == a; }
    assert ([x, y] + rest)[1..] == [y] + rest && ([y] + rest)[1..] == rest;
  }

  // Both run without an error, and the second overwrites the base that the
  // first has recorded and returned. Only at one head is that harmless.
  lemma OverlappingEstablishesMoveTheBase(blank: Identity, first: string, second: string)
    requires blank.taskId != "" && blank.resolution.None? && blank.inFlight.None?
    requires !Blank(first) && !Blank(second)
    ensures var run := Overlap(blank, first, second);
            && Executes(Start, run, blank.taskId)
            && End(Start, run[..3], blank.taskId).file == Holds(EstablishedAt(blank, first))
            && End(Start, run, blank.taskId).file == Holds(EstablishedAt(blank, second))
            && (OneHead(Start, run, blank.taskId) <==> TrimSpace(first) == TrimSpace(second))
  {
    var task := blank.taskId;
    var a, b := EstablishedAt(blank, first), EstablishedAt(blank, second);
    var x, y := FinishEstablish(0, true, true), FinishEstablish(1, true, true);
    TrimSpaceIdempotent(first);
    TrimSpaceIdempotent(second);
    OverlapSteps(a, b, task);
    var s, t := State(Absent, {}, map[0 := a, 1 := b]), State(Holds(a), {a}, map[1 := b]);
    ExecutesFirst(t, y, [], task);
    ExecutesFirst(s, x, [y], task);
    ExecutesFirst(s, x, [], task);
    assert [x] + [y] == [x, y] && [y] + [] == [y] && [x] + [] == [x];
    OverlapStarts(blank, first, second, [x, y]);
    OverlapStarts(blank, first, second, [x]);
    var starts := [StartEstablish(0, blank, true, first), StartEstablish(1, blank, true, second)];
    assert Overlap(blank, first, second) == starts + [x, y] && Overlap(blank, first, second)[..3] == starts + [x];
  }
}
