/** The registry of pending turns (internal/control/rendezvous.go). Every method
    of the registry is one critical section, except AbandonSession, which takes
    the lock once to list the turns and once for each of them. A turn's record
    and its two one-slot channels outlive its registration: the runner that
    opened the turn still holds them. */
module Rendezvous {
  import opened Wrappers
  import opened Text

  type Time = int
  type Payload = string
  type Cause = string

  datatype Turn = Turn(
    id: string, task: string, role: string, session: string, principal: string, request: string,
    createdAt: Time, expiresAt: Time)

  // A value that entered one of a turn's channels.
  datatype Signal = Answer(payload: Payload) | Failure(cause: Cause)

  // `answer` and `failed` are what the two channels hold; `history` is every
  // value that ever entered either of them.
  datatype Pending = Pending(turn: Turn, answer: seq<Payload>, failed: seq<Cause>, done: bool, history: seq<Signal>)

  datatype State = State(pendings: map<string, Pending>, open: set<string>, answered: map<string, Time>)

  // Ten minutes, in seconds.
  const ANSWERED_MEMORY: Time := 600

  // strings.EqualFold, as any relation.
  type Fold = (string, string) -> bool

  datatype Refusal = NoSuchTurn | TurnConsumed | TurnExpired | TurnNotYours

  // ----- One critical section each -----

  datatype Action =
    | Open(turn: Turn, ttl: nat, now: Time)
    | Close(id: string, now: Time)
    | Submit(id: string, party: string, session: string, role: string, payload: Payload, now: Time)
    | Abandon(id: string, cause: Cause)
    | Receive(id: string)    // the runner takes what a channel holds

  // Turn ids are minted fresh.
  predicate Enabled(s: State, a: Action) {
    match a
    case Open(turn, _, _) => turn.id !in s.pendings && turn.id !in s.answered
    case _ => true
  }

  // The verdict on a submission.
  function Verdict(fold: Fold, s: State, id: string, party: string, session: string, role: string,
      now: Time): Result<Turn, Refusal>
  {
    var key := TrimSpace(id);
    if key !in s.open || key !in s.pendings then
      if key in s.answered then Result.Failure(TurnConsumed) else Result.Failure(NoSuchTurn)
    else
      var p := s.pendings[key];
      if p.done then Result.Failure(TurnConsumed)
      else if !(now < p.turn.expiresAt) then Result.Failure(TurnExpired)
      else if p.turn.principal != party || !fold(p.turn.session, TrimSpace(session)) then Result.Failure(TurnNotYours)
      else if p.turn.role != role then Result.Failure(TurnNotYours)
      else Success(p.turn)
  }

  function Consumed(p: Pending, payload: Payload): Pending {
    p.(done := true, answer := p.answer + [payload], history := p.history + [Answer(payload)])
  }

  // A send that would block is skipped.
  function Abandoned(p: Pending, cause: Cause): Pending {
    if |p.failed| < 1 then
        p.(done := true, failed := p.failed + [cause], history := p.history + [Signal.Failure(cause)])
    else p.(done := true)
  }

  function Opened(turn: Turn, ttl: nat, now: Time): Pending {
    Pending(turn.(createdAt := now, expiresAt := now + ttl), [], [], false, [])
  }

  function Remembered(s: State, id: string, now: Time): map<string, Time> {
    var answered :=
      if id in s.open && id in s.pendings && s.pendings[id].done then s.answered[id := now] else s.answered;
    map k | k in answered && now - answered[k] <= ANSWERED_MEMORY :: answered[k]
  }

  function Step(fold: Fold, s: State, a: Action): State {
    match a
    case Open(turn, ttl, now) =>
      s.(pendings := s.pendings[turn.id := Opened(turn, ttl, now)], open := s.open + {turn.id})
    case Close(id, now) => s.(answered := Remembered(s, id, now), open := s.open - {id})
    case Submit(id, party, session, role, payload, now) =>
      if Verdict(fold, s, id, party, session, role, now).Success? && TrimSpace(id) in s.pendings then
        s.(pendings := s.pendings[TrimSpace(id) := Consumed(s.pendings[TrimSpace(id)], payload)])
      else s
    case Abandon(id, cause) =>
      if id in s.open && id in s.pendings && !s.pendings[id].done then
        s.(pendings := s.pendings[id := Abandoned(s.pendings[id], cause)])
      else s
    case Receive(id) =>
      if id !in s.pendings then s
      else
        var p := s.pendings[id];
        s.(pendings := s.pendings[id :=
             if p.answer != [] then p.(answer := p.answer[1..])
             else if p.failed != [] then p.(failed := p.failed[1..]) else p])
  }

  // ----- What holds of every turn -----

  ghost predicate Sound(p: Pending) {
    && |p.history| <= 1
    && (p.done <==> p.history != [])
    && (p.answer == [] || p.history == [Answer(p.answer[0])]) && |p.answer| <= 1
    && (p.failed == [] || p.history == [Signal.Failure(p.failed[0])]) && |p.failed| <= 1
  }

  ghost predicate Inv(s: State) {
    && s.open <= s.pendings.Keys
    && forall id :: id in s.pendings ==> Sound(s.pendings[id]) && s.pendings[id].turn.id == id
  }

  lemma OneTurnKeepsInv(s: State, id: string, q: Pending)
    requires Inv(s) && id in s.pendings && Sound(q) && q.turn == s.pendings[id].turn
    ensures Inv(s.(pendings := s.pendings[id := q]))
  {
  }

  lemma StepKeepsInv(fold: Fold, s: State, a: Action)
    requires Inv(s) && Enabled(s, a)
    ensures Inv(Step(fold, s, a))
  {
    match a
    case Open(_, _, _) =>
    case Close(_, _) =>
    case Submit(id, _, _, _, payload, _) =>
      var key := TrimSpace(id);
      if key in s.pendings && !s.pendings[key].done { OneTurnKeepsInv(s, key, Consumed(s.pendings[key], payload)); }
    case Abandon(id, cause) =>
      if id in s.pendings && !s.pendings[id].done { OneTurnKeepsInv(s, id, Abandoned(s.pendings[id], cause)); }
    case Receive(id) =>
      if id in s.pendings { OneTurnKeepsInv(s, id, Step(fold, s, a).pendings[id]); }
  }

  // A send under the lock meets an empty channel: it never blocks.
  lemma SendFindsRoom(fold: Fold, s: State, a: Action)
    requires Inv(s)
    requires a.Submit? && Verdict(fold, s, a.id, a.party, a.session, a.role, a.now).Success?
    ensures s.pendings[TrimSpace(a.id)].answer == [] && s.pendings[TrimSpace(a.id)].failed == []
  {
  }

  // How one turn may change between two moments of any run.
  ghost predicate TurnLater(p: Pending, q: Pending) {
    && q.turn == p.turn
    && p.history <= q.history
    && (p.done ==> q.done)
  }

  // ... and the registry.
  ghost predicate Later(s: State, t: State) {
    && s.pendings.Keys <= t.pendings.Keys
    && (forall id :: id in s.pendings ==> TurnLater(s.pendings[id], t.pendings[id]))
    && (forall id :: id in s.pendings && id !in s.open ==> id !in t.open)
  }

  lemma OneTurnIsLater(s: State, id: string, q: Pending)
    requires id in s.pendings && TurnLater(s.pendings[id], q)
    ensures Later(s, s.(pendings := s.pendings[id := q]))
  {
  }

  lemma OpeningIsLater(fold: Fold, s: State, a: Action)
    requires Inv(s) && Enabled(s, a) && (a.Open? || a.Close?)
    ensures Later(s, Step(fold, s, a))
  {
  }

  lemma SelfIsLater(s: State)
    ensures Later(s, s)
  {
  }

  lemma StepIsLater(fold: Fold, s: State, a: Action)
    requires Inv(s) && Enabled(s, a)
    ensures Later(s, Step(fold, s, a))
  {
    SelfIsLater(s);
    match a
    case Open(_, _, _) => OpeningIsLater(fold, s, a);
    case Close(_, _) => OpeningIsLater(fold, s, a);
    case Submit(id, _, _, _, payload, _) =>
      var key := TrimSpace(id);
      if key in s.pendings && !s.pendings[key].done { OneTurnIsLater(s, key, Consumed(s.pendings[key], payload)); }
    case Abandon(id, cause) =>
      if id in s.pendings { OneTurnIsLater(s, id, Abandoned(s.pendings[id], cause)); }
    case Receive(id) => ReceivingIsLater(fold, s, a);
  }

  lemma ReceivingIsLater(fold: Fold, s: State, a: Action)
    requires a.Receive?
    ensures Later(s, Step(fold, s, a))
  {
  }

  lemma LaterTransitive(s: State, t: State, u: State)
    requires Later(s, t) && Later(t, u)
    ensures Later(s, u)
  {
  }

  ghost predicate IsRun(fold: Fold, s: State, actions: seq<Action>)
    decreases |actions|
  {
    actions == [] || (Enabled(s, actions[0]) && IsRun(fold, Step(fold, s, actions[0]), actions[1..]))
  }

  function End(fold: Fold, s: State, actions: seq<Action>): State
    decreases |actions|
  {
    if actions == [] then s else End(fold, Step(fold, s, actions[0]), actions[1..])
  }

  // Over all interleavings: at most one value ever enters a turn's two
  // channels, and once one has, nothing else follows or replaces it.
  lemma {:induction false} AtMostOneValue(fold: Fold, s: State, actions: seq<Action>)
    requires Inv(s) && IsRun(fold, s, actions)
    ensures Inv(End(fold, s, actions)) && Later(s, End(fold, s, actions))
    ensures forall id :: id in End(fold, s, actions).pendings ==> |End(fold, s, actions).pendings[id].history| <= 1
    ensures forall id :: id in s.pendings && s.pendings[id].history != [] ==>
              End(fold, s, actions).pendings[id].history == s.pendings[id].history
    decreases |actions|
  {
    if actions == [] {
    } else {
      var t := Step(fold, s, actions[0]);
      StepKeepsInv(fold, s, actions[0]);
      StepIsLater(fold, s, actions[0]);
      AtMostOneValue(fold, t, actions[1..]);
      LaterTransitive(s, t, End(fold, s, actions));
    }
  }

  // A submission that succeeds came in time, from the party that was asked,
  // to a turn nothing had consumed, and its payload is what the runner's
  // channel then holds.
  lemma SuccessIsTheAskedParty(fold: Fold, s: State, a: Action)
    requires Inv(s) && a.Submit?
    ensures Verdict(fold, s, a.id, a.party, a.session, a.role, a.now).Success? <==>
              var key := TrimSpace(a.id);
              && key in s.open && s.pendings[key].history == [] && a.now < s.pendings[key].turn.expiresAt
              && s.pendings[key].turn.principal == a.party && s.pendings[key].turn.role == a.role
              && fold(s.pendings[key].turn.session, TrimSpace(a.session))
    ensures Verdict(fold, s, a.id, a.party, a.session, a.role, a.now).Success? ==>
              var p := Step(fold, s, a).pendings[TrimSpace(a.id)];
              p.answer == [a.payload] && p.failed == [] && p.history == [Answer(a.payload)]
  {
  }

  // Each refusal has its own reason, and the first that applies is given.
  lemma RefusalsTell(fold: Fold, s: State, a: Action)
    requires Inv(s) && a.Submit?
    ensures var key := TrimSpace(a.id);
            var v := Verdict(fold, s, a.id, a.party, a.session, a.role, a.now);
            && (v == Result.Failure(NoSuchTurn) <==> key !in s.open && key !in s.answered)
            && (v == Result.Failure(TurnConsumed) <==>
                  if key in s.open then s.pendings[key].history != [] else key in s.answered)
            && (v == Result.Failure(TurnExpired) <==>
                  key in s.open && s.pendings[key].history == [] && s.pendings[key].turn.expiresAt <= a.now)
  {
  }

  // Until `limit`, and not from then on, the party that was asked may answer.
  ghost predicate AnswerableUntil(fold: Fold, s: State, turn: Turn, limit: Time) {
    forall a: Action :: FromTheAskedParty(fold, turn, a) ==>
      (Verdict(fold, s, a.id, a.party, a.session, a.role, a.now).Success? <==> a.now < limit)
  }

  ghost predicate FromTheAskedParty(fold: Fold, turn: Turn, a: Action) {
    && a.Submit? && TrimSpace(a.id) == turn.id && a.party == turn.principal && a.role == turn.role
    && fold(turn.session, TrimSpace(a.session))
  }

  ghost predicate Receives(actions: seq<Action>, id: string) {
    exists k :: 0 <= k < |actions| && actions[k] == Receive(id)
  }

  // An accepted answer is never displaced: it waits in the channel until the
  // runner takes it. (A runner that has given up may never take it.)
  lemma {:induction false} AnswerWaits(fold: Fold, s: State, actions: seq<Action>, id: string, payload: Payload)
    requires Inv(s) && IsRun(fold, s, actions)
    requires id in s.pendings && s.pendings[id].answer == [payload] && !Receives(actions, id)
    ensures id in End(fold, s, actions).pendings && End(fold, s, actions).pendings[id].answer == [payload]
    ensures End(fold, s, actions).pendings[id].failed == []
    decreases |actions|
  {
    if actions == [] {
    } else {
      assert actions[0] != Receive(id);
      assert forall k :: 0 <= k < |actions| - 1 ==> actions[1..][k] == actions[k + 1];
      StepKeepsInv(fold, s, actions[0]);
      AnswerWaits(fold, Step(fold, s, actions[0]), actions[1..], id, payload);
    }
  }

  ghost predicate ClosesBefore(actions: seq<Action>, limit: Time) {
    forall k :: 0 <= k < |actions| && actions[k].Close? ==> actions[k].now <= limit
  }

  // Close remembers every consumed turn, the abandoned ones too, for as long
  // as no later Close finds it older than the memory; until then a submission
  // to it is told it was answered.
  lemma {:induction false} ClosedIsRemembered(fold: Fold, s: State, actions: seq<Action>, id: string, at: Time)
    requires Inv(s) && IsRun(fold, s, actions)
    requires id in s.answered && at <= s.answered[id] && id !in s.open && id in s.pendings
    requires ClosesBefore(actions, at + ANSWERED_MEMORY)
    ensures id in End(fold, s, actions).answered && id !in End(fold, s, actions).open
    decreases |actions|
  {
    if actions == [] {
    } else {
      assert forall k :: 0 <= k < |actions| - 1 ==> actions[1..][k] == actions[k + 1];
      StepKeepsInv(fold, s, actions[0]);
      StepIsLater(fold, s, actions[0]);
      ClosedIsRemembered(fold, Step(fold, s, actions[0]), actions[1..], id, at);
    }
  }

  lemma AbandonedThenClosedReadsAsAnswered(fold: Fold, s: State, id: string, cause: Cause, now: Time, a: Action)
    requires Inv(s) && id in s.open && !s.pendings[id].done
    requires a.Submit? && TrimSpace(a.id) == id
    ensures var t := Step(fold, Step(fold, s, Abandon(id, cause)), Close(id, now));
            && t.pendings[id].history == [Signal.Failure(cause)]
            && Verdict(fold, t, a.id, a.party, a.session, a.role, a.now) == Result.Failure(TurnConsumed)
  {
  }

  // ----- What one call of AbandonSession wakes -----

  // An abandon that finds its turn open and unconsumed.
  predicate Wakes(s: State, a: Action) {
    a.Abandon? && a.id in s.open && a.id in s.pendings && !s.pendings[a.id].done
  }

  // A critical section of this goroutine (`own`) or of another one.
  datatype Entry = Entry(own: bool, action: Action)

  ghost predicate Runs(fold: Fold, s: State, trace: seq<Entry>)
    decreases |trace|
  {
    trace == [] ||
    var n := |trace| - 1;
    Runs(fold, s, trace[..n]) && Enabled(After(fold, s, trace[..n]), trace[n].action)
  }

  ghost function After(fold: Fold, s: State, trace: seq<Entry>): State
    decreases |trace|
  {
    if trace == [] then s else Step(fold, After(fold, s, trace[..|trace| - 1]), trace[|trace| - 1].action)
  }

  lemma OneMore(fold: Fold, s: State, trace: seq<Entry>, e: Entry)
    requires Runs(fold, s, trace) && Enabled(After(fold, s, trace), e.action)
    ensures Runs(fold, s, trace + [e]) && After(fold, s, trace + [e]) == Step(fold, After(fold, s, trace), e.action)
  {
    assert (trace + [e])[..|trace|] == trace;
  }

  // The turns that this goroutine's own abandons, from entry `from` on, woke.
  ghost function Woken(fold: Fold, s: State, trace: seq<Entry>, from: nat): set<string>
    decreases |trace|
  {
    if |trace| <= from then {}
    else
      var n := |trace| - 1;
      Woken(fold, s, trace[..n], from)
        + if trace[n].own && Wakes(After(fold, s, trace[..n]), trace[n].action) then {trace[n].action.id} else {}
  }

  // A turn that something is still awaited for.
  predicate Waits(s: State, id: string) {
    id in s.open && id in s.pendings && !s.pendings[id].done
  }

  // The turns whose waiting an entry of another goroutine ended.
  ghost function Lost(fold: Fold, s: State, trace: seq<Entry>, from: nat): set<string>
    decreases |trace|
  {
    if |trace| <= from then {}
    else
      var n := |trace| - 1;
      var before := After(fold, s, trace[..n]);
      Lost(fold, s, trace[..n], from) + if trace[n].own then {} else Ended(before, Step(fold, before, trace[n].action))
  }

  function Ended(s: State, t: State): set<string> {
    set id | id in s.open && Waits(s, id) && !Waits(t, id)
  }

  // What this goroutine did from entry `from` on, in order.
  ghost function Own(trace: seq<Entry>, from: nat): seq<Action>
    decreases |trace|
  {
    if |trace| <= from then []
    else
      var n := |trace| - 1;
      Own(trace[..n], from) + if trace[n].own then [trace[n].action] else []
  }

  lemma OneMoreEntry(fold: Fold, s: State, trace: seq<Entry>, e: Entry, from: nat)
    requires from <= |trace|
    ensures var t := After(fold, s, trace);
            && After(fold, s, trace + [e]) == Step(fold, t, e.action)
            && Own(trace + [e], from) == Own(trace, from) + (if e.own then [e.action] else [])
            && Woken(fold, s, trace + [e], from)
               == Woken(fold, s, trace, from) + (if e.own && Wakes(t, e.action) then {e.action.id} else {})
            && Lost(fold, s, trace + [e], from)
               == Lost(fold, s, trace, from) + (if e.own then {} else Ended(t, Step(fold, t, e.action)))
  {
    assert (trace + [e])[..|trace|] == trace;
  }

  lemma {:induction false} OthersAreNotOwn(trace: seq<Entry>, more: seq<Entry>, from: nat)
    requires from <= |trace| && forall k :: 0 <= k < |more| ==> !more[k].own
    ensures Own(trace + more, from) == Own(trace, from)
    decreases |more|
  {
    if more == [] {
      assert trace + more == trace;
    } else {
      var init := more[..|more| - 1];
      OthersAreNotOwn(trace, init, from);
      assert (trace + more)[..|trace + more| - 1] == trace + init;
    }
  }

  // Entry k, another goroutine's, ended the waiting of this turn.
  ghost predicate EndedAt(fold: Fold, s: State, trace: seq<Entry>, k: nat, id: string) {
    && k < |trace| && !trace[k].own
    && var before := After(fold, s, trace[..k]);
       Waits(before, id) && !Waits(Step(fold, before, trace[k].action), id)
  }

  lemma EndedBefore(fold: Fold, s: State, init: seq<Entry>, e: Entry, k: nat, id: string)
    requires k < |init|
    ensures EndedAt(fold, s, init + [e], k, id) <==> EndedAt(fold, s, init, k, id)
  {
    assert (init + [e])[..k] == init[..k];
  }

  lemma EndedLast(fold: Fold, s: State, init: seq<Entry>, e: Entry, from: nat, id: string)
    requires from <= |init|
    ensures id in Lost(fold, s, init + [e], from) <==>
              id in Lost(fold, s, init, from) || EndedAt(fold, s, init + [e], |init|, id)
  {
    OneMoreEntry(fold, s, init, e, from);
    assert (init + [e])[..|init|] == init;
  }

  // A turn is lost exactly when some entry of another goroutine ended its waiting.
  lemma {:induction false} LostIsByAnEntry(fold: Fold, s: State, trace: seq<Entry>, from: nat, id: string)
    requires from <= |trace|
    ensures id in Lost(fold, s, trace, from) <==> exists k: nat :: from <= k && EndedAt(fold, s, trace, k, id)
    decreases |trace|
  {
    if |trace| == from {
    } else {
      var init, e := trace[..|trace| - 1], trace[|trace| - 1];
      assert init + [e] == trace;
      LostIsByAnEntry(fold, s, init, from, id);
      EndedLast(fold, s, init, e, from, id);
      if k: nat :| from <= k && EndedAt(fold, s, init, k, id) { EndedBefore(fold, s, init, e, k, id); }
      if k: nat :| from <= k < |init| && EndedAt(fold, s, trace, k, id) { EndedBefore(fold, s, init, e, k, id); }
    }
  }

  // Between two moments of a run a turn only moves forward.
  lemma {:induction false} AfterIsLater(fold: Fold, s: State, trace: seq<Entry>, n: nat)
    requires Inv(s) && Runs(fold, s, trace) && n <= |trace|
    ensures Runs(fold, s, trace[..n]) && Inv(After(fold, s, trace[..n])) && Inv(After(fold, s, trace))
    ensures Later(After(fold, s, trace[..n]), After(fold, s, trace))
    decreases |trace|
  {
    if n == |trace| {
      assert trace[..n] == trace;
      if n > 0 {
        AfterIsLater(fold, s, trace[..n - 1], n - 1);
        assert trace[..n - 1][..n - 1] == trace[..n - 1];
        StepKeepsInv(fold, After(fold, s, trace[..n - 1]), trace[n - 1].action);
      }
    } else {
      var init := trace[..|trace| - 1];
      AfterIsLater(fold, s, init, n);
      assert init[..n] == trace[..n];
      var t := After(fold, s, init);
      StepKeepsInv(fold, t, trace[|trace| - 1].action);
      StepIsLater(fold, t, trace[|trace| - 1].action);
      LaterTransitive(After(fold, s, trace[..n]), t, After(fold, s, trace));
    }
  }

  // The turns of a session that nothing has consumed.
  function Unconsumed(fold: Fold, s: State, session: string): set<string> {
    set id | id in s.open && id in s.pendings && !s.pendings[id].done && fold(s.pendings[id].turn.session, session)
  }

  lemma NeverWaitsAgain(s: State, t: State, id: string)
    requires Later(s, t) && id in s.pendings && !Waits(s, id)
    ensures id in t.pendings && !Waits(t, id)
  {
    assert TurnLater(s.pendings[id], t.pendings[id]);
  }

  lemma AbandonEnds(fold: Fold, s: State, a: Action)
    requires a.Abandon? && a.id in s.pendings
    ensures a.id in Step(fold, s, a).pendings && !Waits(Step(fold, s, a), a.id)
  {
  }

  lemma JustAbandoned(fold: Fold, s: State, trace: seq<Entry>, id: string)
    requires trace != [] && trace[|trace| - 1].action.Abandon? && trace[|trace| - 1].action.id == id
    requires id in After(fold, s, trace[..|trace| - 1]).pendings
    ensures id in After(fold, s, trace).pendings && !Waits(After(fold, s, trace), id)
  {
    AbandonEnds(fold, After(fold, s, trace[..|trace| - 1]), trace[|trace| - 1].action);
  }

  // After an abandon of it nothing more is handed to a turn, in any run.
  lemma AbandonedIsSettled(fold: Fold, s: State, trace: seq<Entry>, n: nat, id: string)
    requires Inv(s) && Runs(fold, s, trace) && n < |trace| && id in After(fold, s, trace[..n]).pendings
    requires trace[n].action.Abandon? && trace[n].action.id == id
    ensures id in After(fold, s, trace).pendings && !Waits(After(fold, s, trace), id)
  {
    assert trace[..n + 1][..n] == trace[..n];
    JustAbandoned(fold, s, trace[..n + 1], id);
    AfterIsLater(fold, s, trace, n + 1);
    NeverWaitsAgain(After(fold, s, trace[..n + 1]), After(fold, s, trace), id);
  }

  ghost predicate OnlyAbandons(actions: seq<Action>, cause: Cause) {
    forall k :: 0 <= k < |actions| ==> actions[k].Abandon? && actions[k].cause == cause
  }

  // A turn that waited, later: woken with this cause by this goroutine, or
  // ended by another one, or still waiting and not abandoned here.
  ghost predicate Fate(t: State, id: string, cause: Cause, woken: bool, lost: bool, abandoned: bool) {
    && id in t.pendings
    && !(woken && lost)
    && (Waits(t, id) <==> !woken && !lost)
    && (abandoned ==> !Waits(t, id))
    && (woken ==> t.pendings[id].history == [Signal.Failure(cause)])
    && (Waits(t, id) ==> t.pendings[id].history == [])
  }

  lemma FateOfOthers(fold: Fold, t: State, a: Action, id: string, cause: Cause, woken: bool, lost: bool,
      abandoned: bool)
    requires Inv(t) && Enabled(t, a) && Fate(t, id, cause, woken, lost, abandoned)
    ensures var u := Step(fold, t, a); Fate(u, id, cause, woken, lost || id in Ended(t, u), abandoned)
  {
    var u := Step(fold, t, a);
    StepKeepsInv(fold, t, a);
    StepIsLater(fold, t, a);
    assert TurnLater(t.pendings[id], u.pendings[id]);
    if !Waits(t, id) { NeverWaitsAgain(t, u, id); }
  }

  lemma FateOfOwn(fold: Fold, t: State, a: Action, id: string, cause: Cause, woken: bool, lost: bool,
      abandoned: bool)
    requires Inv(t) && a.Abandon? && a.cause == cause && Fate(t, id, cause, woken, lost, abandoned)
    ensures Fate(Step(fold, t, a), id, cause, woken || (Wakes(t, a) && a.id == id), lost, abandoned || a.id == id)
  {
  }

  ghost predicate FateIs(fold: Fold, s: State, trace: seq<Entry>, from: nat, id: string, cause: Cause) {
    Fate(After(fold, s, trace), id, cause, id in Woken(fold, s, trace, from), id in Lost(fold, s, trace, from),
         Abandon(id, cause) in Own(trace, from))
  }

  lemma {:induction false} EveryFate(fold: Fold, s: State, trace: seq<Entry>, from: nat, id: string, cause: Cause)
    requires Inv(s) && Runs(fold, s, trace) && from <= |trace| && OnlyAbandons(Own(trace, from), cause)
    requires Waits(After(fold, s, trace[..from]), id)
    ensures FateIs(fold, s, trace, from, id, cause)
    decreases |trace|
  {
    if |trace| == from {
      assert trace[..from] == trace;
      AfterIsLater(fold, s, trace, from);
    } else {
      var init, e := trace[..|trace| - 1], trace[|trace| - 1];
      assert init[..from] == trace[..from] && init + [e] == trace;
      AfterIsLater(fold, s, trace, |trace| - 1);
      OnlyAbandonsBefore(init, e, from, cause);
      EveryFate(fold, s, init, from, id, cause);
      OneMoreFate(fold, s, init, e, from, id, cause);
    }
  }

  lemma OnlyAbandonsBefore(init: seq<Entry>, e: Entry, from: nat, cause: Cause)
    requires from <= |init| && OnlyAbandons(Own(init + [e], from), cause)
    ensures OnlyAbandons(Own(init, from), cause)
    ensures e.own ==> e.action.Abandon? && e.action.cause == cause
  {
    assert (init + [e])[..|init|] == init;
    var all := Own(init + [e], from);
    assert forall k :: 0 <= k < |Own(init, from)| ==> Own(init, from)[k] == all[k];
    if e.own { assert all[|all| - 1] == e.action; }
  }

  lemma OneMoreFate(fold: Fold, s: State, init: seq<Entry>, e: Entry, from: nat, id: string, cause: Cause)
    requires Inv(After(fold, s, init)) && Enabled(After(fold, s, init), e.action)
    requires from <= |init| && FateIs(fold, s, init, from, id, cause)
    requires e.own ==> e.action.Abandon? && e.action.cause == cause
    ensures FateIs(fold, s, init + [e], from, id, cause)
  {
    OneMoreEntry(fold, s, init, e, from);
    var t := After(fold, s, init);
    var woken, lost := id in Woken(fold, s, init, from), id in Lost(fold, s, init, from);
    var abandoned := Abandon(id, cause) in Own(init, from);
    if e.own {
      FateOfOwn(fold, t, e.action, id, cause, woken, lost, abandoned);
    } else {
      FateOfOthers(fold, t, e.action, id, cause, woken, lost, abandoned);
    }
  }

  // An abandon of each id, in the order of the list.
  function AbandonEach(order: seq<string>, cause: Cause): (actions: seq<Action>)
    ensures |actions| == |order|
  {
    seq(|order|, k requires 0 <= k < |order| => Abandon(order[k], cause))
  }

  // `order` lists each of `ids` once.
  ghost predicate Lists(order: seq<string>, ids: set<string>) {
    && (forall id :: id in order <==> id in ids)
    && (forall i, j :: 0 <= i < j < |order| ==> order[i] != order[j])
  }

  // Only a turn with an own abandon is woken.
  lemma {:induction false} WokenAreAbandoned(fold: Fold, s: State, trace: seq<Entry>, from: nat, id: string,
      cause: Cause)
    requires from <= |trace| && OnlyAbandons(Own(trace, from), cause) && id in Woken(fold, s, trace, from)
    ensures Abandon(id, cause) in Own(trace, from)
    decreases |trace|
  {
    if |trace| == from {
    } else {
      var init, e := trace[..|trace| - 1], trace[|trace| - 1];
      assert init + [e] == trace;
      OnlyAbandonsBefore(init, e, from, cause);
      OneMoreEntry(fold, s, init, e, from);
      if id in Woken(fold, s, init, from) { WokenAreAbandoned(fold, s, init, from, id, cause); }
    }
  }

  // A call that abandons each of the waiting `ids` once wakes, with its cause,
  // exactly those whose waiting nobody else ended first.
  ghost predicate Account(fold: Fold, s: State, trace: seq<Entry>, from: nat, ids: set<string>, cause: Cause) {
    && Woken(fold, s, trace, from) == ids - Lost(fold, s, trace, from)
    && (forall id :: id in ids ==> SettledBy(fold, s, trace, from, id, cause))
  }

  ghost predicate SettledBy(fold: Fold, s: State, trace: seq<Entry>, from: nat, id: string, cause: Cause) {
    var t := After(fold, s, trace);
    && id in t.pendings && !Waits(t, id)
    && (id in Woken(fold, s, trace, from) ==> t.pendings[id].history == [Signal.Failure(cause)])
  }

  lemma ListedFate(fold: Fold, s: State, trace: seq<Entry>, from: nat, order: seq<string>, id: string, cause: Cause)
    requires Inv(s) && Runs(fold, s, trace) && from <= |trace| && Own(trace, from) == AbandonEach(order, cause)
    requires id in order && Waits(After(fold, s, trace[..from]), id)
    ensures SettledBy(fold, s, trace, from, id, cause)
    ensures id in Woken(fold, s, trace, from) <==> id !in Lost(fold, s, trace, from)
  {
    var k :| 0 <= k < |order| && order[k] == id;
    assert Own(trace, from)[k] == Abandon(id, cause);
    EveryFate(fold, s, trace, from, id, cause);
  }

  lemma WokenAreListed(fold: Fold, s: State, trace: seq<Entry>, from: nat, order: seq<string>, id: string,
      cause: Cause)
    requires from <= |trace| && Own(trace, from) == AbandonEach(order, cause) && id in Woken(fold, s, trace, from)
    ensures id in order
  {
    WokenAreAbandoned(fold, s, trace, from, id, cause);
    var k :| 0 <= k < |order| && Own(trace, from)[k] == Abandon(id, cause);
    assert order[k] == id;
  }

  lemma CallAccount(fold: Fold, s: State, trace: seq<Entry>, from: nat, order: seq<string>, ids: set<string>,
      cause: Cause)
    requires Inv(s) && Runs(fold, s, trace) && from <= |trace|
    requires Lists(order, ids) && Own(trace, from) == AbandonEach(order, cause)
    requires forall id :: id in ids ==> Waits(After(fold, s, trace[..from]), id)
    ensures Account(fold, s, trace, from, ids, cause)
    ensures |Woken(fold, s, trace, from)| == |ids| <==> ids !! Lost(fold, s, trace, from)
  {
    var woken, lost := Woken(fold, s, trace, from), Lost(fold, s, trace, from);
    forall id | id in ids
      ensures SettledBy(fold, s, trace, from, id, cause) && (id in woken <==> id !in lost)
    {
      ListedFate(fold, s, trace, from, order, id, cause);
    }
    forall id | id in woken
      ensures id in ids
    {
      WokenAreListed(fold, s, trace, from, order, id, cause);
    }
    WokenAndLost(ids, woken, lost);
  }

  lemma WokenAndLost(ids: set<string>, woken: set<string>, lost: set<string>)
    requires woken <= ids && forall id :: id in ids ==> (id in woken <==> id !in lost)
    ensures woken == ids - lost && (|woken| == |ids| <==> ids !! lost)
  {
    assert ids == woken + (ids * lost);
  }

  // A submission that succeeds ends the waiting of its turn and of no other.
  lemma SubmissionEnds(fold: Fold, s: State, a: Action)
    requires Inv(s) && a.Submit?
    requires Verdict(fold, s, a.id, a.party, a.session, a.role, a.now).Success?
    ensures Inv(Step(fold, s, a)) && Step(fold, s, a).pendings[TrimSpace(a.id)].done
    ensures Ended(s, Step(fold, s, a)) == {TrimSpace(a.id)}
  {
    var t := Step(fold, s, a);
    assert forall id :: id in s.open && id != TrimSpace(a.id) ==> t.pendings[id] == s.pendings[id];
  }

  // How many turns a call lists only bounds how many it wakes: a submission
  // between its two phases leaves it one to count and none to wake.
  lemma CountIsOnlyABound(fold: Fold, s: State, session: string, cause: Cause, submit: Action)
    requires Inv(s) && submit.Submit? && Unconsumed(fold, s, session) == {TrimSpace(submit.id)}
    requires Verdict(fold, s, submit.id, submit.party, submit.session, submit.role, submit.now).Success?
    ensures var id := TrimSpace(submit.id);
            var trace := [Entry(false, submit), Entry(true, Abandon(id, cause))];
            && Runs(fold, s, trace) && |Unconsumed(fold, s, session)| == 1
            && Own(trace, 0) == AbandonEach([id], cause)
            && Woken(fold, s, trace, 0) == {} && Lost(fold, s, trace, 0) == {id}
            && After(fold, s, trace) == Step(fold, s, submit)
  {
    var id := TrimSpace(submit.id);
    var t := Step(fold, s, submit);
    var first, second := Entry(false, submit), Entry(true, Abandon(id, cause));
    SubmissionEnds(fold, s, submit);
    TwoEntries(fold, s, t, first, second);
    assert Own([first, second], 0) == [Abandon(id, cause)];
  }

  // An entry of another goroutine, then an own one that wakes nobody.
  lemma TwoEntries(fold: Fold, s: State, t: State, first: Entry, second: Entry)
    requires !first.own && second.own && Enabled(s, first.action) && Enabled(t, second.action)
    requires t == Step(fold, s, first.action) && !Wakes(t, second.action)
    ensures var trace := [first, second];
            && Runs(fold, s, trace) && After(fold, s, trace) == Step(fold, t, second.action)
            && Own(trace, 0) == [second.action] && Woken(fold, s, trace, 0) == {}
            && Lost(fold, s, trace, 0) == Ended(s, t)
  {
    assert [] + [first] == [first] && [first] + [second] == [first, second];
    OneMore(fold, s, [], first);
    OneMore(fold, s, [first], second);
    OneMoreEntry(fold, s, [], first, 0);
    OneMoreEntry(fold, s, [first], second, 0);
  }

  // `trace` is every critical section of the registry so far. Only the methods
  // of the registry write it, one entry each.
  class Registry {
    const fold: Fold
    var pendings: map<string, Pending>
    var open: set<string>
    var answered: map<string, Time>
    ghost const start: State
    ghost var trace: seq<Entry>

    ghost function S(): State
      reads this
    {
      State(pendings, open, answered)
    }

    ghost predicate Valid()
      reads this
    {
      Inv(start) && Runs(fold, start, trace) && S() == After(fold, start, trace) && Inv(S())
    }

    constructor (fold: Fold)
      ensures this.fold == fold && start == S() == State(map[], {}, map[]) && trace == [] && Valid()
    {
      this.fold := fold;
      pendings, open, answered := map[], {}, map[];
      start, trace := State(map[], {}, map[]), [];
    }

    // The end of a critical section of this goroutine.
    ghost method Record(a: Action, before: State)
      requires Inv(start) && Runs(fold, start, trace) && before == After(fold, start, trace) && Inv(before)
      requires Enabled(before, a) && S() == Step(fold, before, a)
      modifies this`trace
      ensures trace == old(trace) + [Entry(true, a)] && Valid()
    {
      StepKeepsInv(fold, before, a);
      OneMore(fold, start, trace, Entry(true, a));
      trace := trace + [Entry(true, a)];
    }

    method OpenTurn(turn: Turn, ttl: nat, now: Time)
      requires Valid() && Enabled(S(), Open(turn, ttl, now))
      modifies this
      ensures Valid() && S() == Step(fold, old(S()), Open(turn, ttl, now))
      ensures trace == old(trace) + [Entry(true, Open(turn, ttl, now))]
      ensures AnswerableUntil(fold, S(), turn, now + ttl)
    {
      ghost var before := S();
      var t := turn.(createdAt := now, expiresAt := now + ttl);
      pendings := pendings[t.id := Pending(t, [], [], false, [])];
      open := open + {t.id};
      Record(Open(turn, ttl, now), before);
    }

    method CloseTurn(id: string, now: Time)
      requires Valid()
      modifies this
      ensures Valid() && S() == Step(fold, old(S()), Close(id, now))
      ensures trace == old(trace) + [Entry(true, Close(id, now))]
      ensures open == old(open) - {id} && pendings == old(pendings)
      ensures forall k :: k in answered <==>
                (k == id && k in old(open) && old(pendings)[k].done)
                || (k in old(answered) && now - old(answered)[k] <= 600)
      ensures forall k :: k in answered ==>
                answered[k] == if k == id && k in old(open) && old(pendings)[k].done then now else old(answered)[k]
    {
      ghost var before := S();
      if id in open && pendings[id].done { answered := answered[id := now]; }
      open := open - {id};
      Forget(now);
      Record(Close(id, now), before);
    }

    // The stale memories, in any order of the map.
    method Forget(now: Time)
      modifies this`answered
      ensures answered == map k | k in old(answered) && now - old(answered)[k] <= ANSWERED_MEMORY :: old(answered)[k]
    {
      ghost var before := answered;
      var todo := answered.Keys;
      while todo != {}
        invariant todo <= before.Keys
        invariant answered == map k | k in before && (k in todo || now - before[k] <= ANSWERED_MEMORY) :: before[k]
        decreases todo
      {
        var k :| k in todo;
        if now - answered[k] > ANSWERED_MEMORY { answered := answered - {k}; }
        todo := todo - {k};
      }
    }

    // A send on a channel of one slot.
    method Send(id: string, payload: Payload)
      requires id in pendings && |pendings[id].answer| < 1
      modifies this`pendings
      ensures var p := old(pendings)[id];
              pendings == old(pendings)[id := p.(answer := p.answer + [payload],
                  history := p.history + [Answer(payload)])]
    {
      var p := pendings[id];
      pendings := pendings[id := p.(answer := p.answer + [payload], history := p.history + [Answer(payload)])];
    }

    // Consumed before the answer is handed over, under the lock that found it.
    method Consume(key: string, payload: Payload)
      requires key in pendings && |pendings[key].answer| < 1
      modifies this`pendings
      ensures pendings == old(pendings)[key := Consumed(old(pendings)[key], payload)]
    {
      pendings := pendings[key := pendings[key].(done := true)];
      Send(key, payload);
    }

    method SubmitAnswer(id: string, party: string, session: string, role: string, payload: Payload, now: Time)
      returns (r: Result<Turn, Refusal>)
      requires Valid()
      modifies this
      ensures r == Verdict(fold, old(S()), id, party, session, role, now)
      ensures Valid() && S() == Step(fold, old(S()), Submit(id, party, session, role, payload, now))
      ensures trace == old(trace) + [Entry(true, Submit(id, party, session, role, payload, now))]
    {
      ghost var before, a := S(), Submit(id, party, session, role, payload, now);
      var key := TrimSpace(id);
      if key !in open {
        r := Result.Failure(if key in answered then TurnConsumed else NoSuchTurn);
      } else if pendings[key].done {
        r := Result.Failure(TurnConsumed);
      } else if !(now < pendings[key].turn.expiresAt) {
        r := Result.Failure(TurnExpired);
      } else if pendings[key].turn.principal != party || !fold(pendings[key].turn.session, TrimSpace(session)) {
        r := Result.Failure(TurnNotYours);
      } else if pendings[key].turn.role != role {
        r := Result.Failure(TurnNotYours);
      } else {
        r := Success(pendings[key].turn);
        Consume(key, payload);
      }
      Record(a, before);
    }

    method AbandonTurn(id: string, cause: Cause)
      requires Valid()
      modifies this
      ensures Valid() && S() == Step(fold, old(S()), Abandon(id, cause))
      ensures trace == old(trace) + [Entry(true, Abandon(id, cause))]
    {
      ghost var before := S();
      if id in open && !pendings[id].done {
        var p := pendings[id].(done := true);
        if |p.failed| < 1 { p := p.(failed := p.failed + [cause], history := p.history + [Signal.Failure(cause)]); }
        pendings := pendings[id := p];
      }
      Record(Abandon(id, cause), before);
    }

    // Any number of critical sections of other goroutines, in any order.
    method Others() returns (ghost theirs: seq<Entry>)
      requires Valid()
      modifies this
      ensures Valid() && trace == old(trace) + theirs && forall k :: 0 <= k < |theirs| ==> !theirs[k].own
    {
      theirs := [];
    }

    // The first phase, under the lock, lists the turns; the second takes the
    // lock again for each. Whatever others do in between, all the call does is
    // abandon each listed turn once, with this cause. It wakes exactly those
    // whose waiting nobody else ended first, so the count it returns is the
    // number of turns woken exactly when nobody did.
    method AbandonSession(session: string, cause: Cause) returns (n: nat, ghost order: seq<string>)
      requires Valid()
      modifies this
      ensures Valid() && old(trace) <= trace
      ensures Lists(order, old(Unconsumed(fold, S(), session)))
      ensures forall id :: id in order <==>
                id in old(open) && !old(pendings)[id].done && fold(old(pendings)[id].turn.session, session)
      ensures Own(trace, |old(trace)|) == AbandonEach(order, cause)
      ensures Account(fold, start, trace, |old(trace)|, old(Unconsumed(fold, S(), session)), cause)
      ensures n == |old(Unconsumed(fold, S(), session))|
      ensures n == |Woken(fold, start, trace, |old(trace)|)| <==>
                old(Unconsumed(fold, S(), session)) !! Lost(fold, start, trace, |old(trace)|)
    {
      var ids := set id | id in open && !pendings[id].done && fold(pendings[id].turn.session, session);
      assert ids == Unconsumed(fold, S(), session);
      n := |ids|;
      order := AbandonAll(ids, cause);
      assert trace[..|old(trace)|] == old(trace);
      CallAccount(fold, start, trace, |old(trace)|, order, ids, cause);
    }

    method AbandonAll(ids: set<string>, cause: Cause) returns (ghost order: seq<string>)
      requires Valid()
      modifies this
      ensures Valid() && old(trace) <= trace
      ensures Lists(order, ids) && Own(trace, |old(trace)|) == AbandonEach(order, cause)
    {
      ghost var from := |trace|;
      var todo := ids;
      order := [];
      while todo != {}
        invariant todo <= ids && Valid() && old(trace) <= trace
        invariant Lists(order, ids - todo) && Own(trace, from) == AbandonEach(order, cause)
        decreases todo
      {
        var id :| id in todo;
        AbandonOne(id, cause, from);
        order := order + [id];
        todo := todo - {id};
      }
    }

    method AbandonOne(id: string, cause: Cause, ghost from: nat)
      requires Valid() && from <= |trace|
      modifies this
      ensures Valid() && old(trace) <= trace
      ensures Own(trace, from) == Own(old(trace), from) + [Abandon(id, cause)]
    {
      ghost var before := trace;
      ghost var theirs := Others();
      OthersAreNotOwn(before, theirs, from);
      ghost var mid := trace;
      AbandonTurn(id, cause);
      assert trace[..|mid|] == mid;
    }

    // What get_work reports: a read that advances nothing.
    method Waiting(task: string, now: Time) returns (out: set<Turn>)
      requires Valid()
      ensures forall t :: t in out <==>
                exists id :: id in open && pendings[id].turn == t && !pendings[id].done && now < t.expiresAt
                             && (task != "" ==> t.task == task)
    {
      out := {};
      var todo := open;
      while todo != {}
        invariant todo <= open
        invariant forall t :: t in out <==>
                    exists id :: id in open - todo && pendings[id].turn == t && !pendings[id].done && now < t.expiresAt
                                 && (task != "" ==> t.task == task)
        decreases todo
      {
        var id :| id in todo;
        var p := pendings[id];
        todo := todo - {id};
        if p.done || !(now < p.turn.expiresAt) { continue; }
        if task != "" && p.turn.task != task { continue; }
        out := out + {p.turn};
      }
    }
  }
}
