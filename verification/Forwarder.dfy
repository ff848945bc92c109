/** The goroutine that forwards a subscription until an invocation settles
    (untilInvocationSettles in cmd/sensei-code/run.go). Each step is one select
    of the forwarder or one act of its surroundings; where Go may choose among
    several ready cases, so may the steps. */
module Forwarder {
  import opened Events

  datatype Cause = SourceClosed | Halted | Stopped | Drained

  datatype Phase =
    | Waiting
    | Holding(ev: Event, draining: bool)
    | Draining
    | Exited(cause: Cause)

  // `waiting` is what the subscription holds, `arrived` all it ever held,
  // `others` what somebody else took from it. `taken` and `forwarded` are this
  // forwarder's; `atEnd` and `atExit` count arrivals when the invocation ended
  // and when the forwarder left.
  datatype State = State(
    phase: Phase, waiting: seq<Event>, closed: bool, halted: bool, ended: bool, done: bool,
    arrived: seq<Event>, taken: seq<Event>, forwarded: seq<Event>, others: seq<Event>, atEnd: nat, atExit: nat)

  datatype Step =
    // the surroundings
    | Arrive(e: Event)
    | CloseSource
    | Halt
    | EndInvocation
    | Stop               // the returned function closes done, then waits for the exit
    | OtherTakes         // the caller reads the subscription again, after stop returned
    | Read               // the consumer receives on the stream
    // the forwarder
    | Take
    | SeeClosed
    | SeeHalted
    | SeeDone
    | SeeEnded
    | GiveUp             // halted or done wins over the hand-over
    | FindNothing        // the drain's default

  predicate Enabled(s: State, a: Step) {
    match a
    case Arrive(_) => !s.closed
    case CloseSource => !s.closed
    case Halt => true
    case EndInvocation => !s.ended
    case Stop => true
    case OtherTakes => s.done && s.phase.Exited? && s.waiting != []
    case Read => s.phase.Holding?
    case Take => (s.phase.Waiting? || s.phase.Draining?) && s.waiting != []
    case SeeClosed => (s.phase.Waiting? || s.phase.Draining?) && s.waiting == [] && s.closed
    case SeeHalted => s.phase.Waiting? && s.halted
    case SeeDone => s.phase.Waiting? && s.done
    case SeeEnded => s.phase.Waiting? && s.ended
    case GiveUp => s.phase.Holding? && (s.halted || s.done)
    case FindNothing => s.phase.Draining? && s.waiting == [] && !s.closed
  }

  predicate ByForwarder(a: Step) {
    a.Take? || a.SeeClosed? || a.SeeHalted? || a.SeeDone? || a.SeeEnded? || a.GiveUp? || a.FindNothing?
  }

  function Leave(s: State, cause: Cause): State {
    s.(phase := Exited(cause), atExit := |s.arrived|)
  }

  function Next(s: State, a: Step): State
    requires Enabled(s, a)
  {
    match a
    case Arrive(e) => s.(waiting := s.waiting + [e], arrived := s.arrived + [e])
    case CloseSource => s.(closed := true)
    case Halt => s.(halted := true)
    case EndInvocation => s.(ended := true, atEnd := |s.arrived|)
    case Stop => s.(done := true)
    case OtherTakes => s.(waiting := s.waiting[1..], others := s.others + [s.waiting[0]])
    case Read =>
      s.(phase := if s.phase.draining then Draining else Waiting, forwarded := s.forwarded + [s.phase.ev])
    case Take =>
      s.(phase := Holding(s.waiting[0], s.phase.Draining?), waiting := s.waiting[1..],
          taken := s.taken + [s.waiting[0]])
    case SeeClosed => Leave(s, SourceClosed)
    case SeeHalted => Leave(s, Halted)
    case SeeDone => Leave(s, Stopped)
    case SeeEnded => s.(phase := Draining)
    case GiveUp => Leave(s, if s.halted then Halted else Stopped)
    case FindNothing => Leave(s, Drained)
  }

  function Start(waiting: seq<Event>): State {
    State(Waiting, waiting, false, false, false, false, waiting, [], [], [], 0, 0)
  }

  // Where the forwarder is.
  ghost predicate Placed(s: State) {
    match s.phase
    case Holding(ev, draining) => s.taken == s.forwarded + [ev] && (draining ==> s.ended)
    case Waiting => s.taken == s.forwarded
    case Draining => s.taken == s.forwarded && s.ended
    case Exited(_) => s.forwarded <= s.taken && |s.taken| <= |s.forwarded| + 1
  }

  // Why it left.
  ghost predicate Excused(s: State) {
    s.phase.Exited? ==>
      match s.phase.cause
      case Halted => s.halted
      case Stopped => s.done
      case SourceClosed => s.closed && s.taken == s.forwarded && |s.taken| == s.atExit == |s.arrived|
      case Drained => s.ended && s.taken == s.forwarded && |s.taken| == s.atExit && s.atEnd <= s.atExit
  }

  // Nothing taken by anybody is lost or seen twice.
  ghost predicate Accounted(s: State) {
    && s.arrived == s.taken + (s.others + s.waiting)
    && (!s.phase.Exited? ==> s.others == [])
    && (s.ended ==> s.atEnd <= |s.arrived|)
  }

  ghost predicate Inv(s: State) {
    Placed(s) && Excused(s) && Accounted(s)
  }

  lemma NextKeepsPlaced(s: State, a: Step)
    requires Placed(s) && Enabled(s, a)
    ensures Placed(Next(s, a))
  {
  }

  lemma Regroup(a: seq<Event>, b: seq<Event>, w: seq<Event>, e: Event)
    ensures a + (b + (w + [e])) == a + (b + w) + [e]
    ensures w != [] ==> b + [w[0]] + w[1..] == b + w
    ensures w != [] ==> a + [w[0]] + ([] + w[1..]) == a + ([] + w)
  {
  }

  lemma ArrivingKeepsAccounted(s: State, a: Step)
    requires Accounted(s) && Enabled(s, a) && a.Arrive?
    ensures Accounted(Next(s, a))
  {
    Regroup(s.taken, s.others, s.waiting, a.e);
  }

  lemma TakingKeepsAccounted(s: State, a: Step)
    requires Accounted(s) && Enabled(s, a) && (a.Take? || a.OtherTakes?)
    ensures Accounted(Next(s, a))
  {
    Regroup(s.taken, s.others, s.waiting, s.waiting[0]);
  }

  lemma NextKeepsAccounted(s: State, a: Step)
    requires Accounted(s) && Enabled(s, a)
    ensures Accounted(Next(s, a))
  {
    match a
    case Arrive(_) => ArrivingKeepsAccounted(s, a);
    case Take => TakingKeepsAccounted(s, a);
    case OtherTakes => TakingKeepsAccounted(s, a);
    case _ =>
  }

  lemma NextKeepsExcused(s: State, a: Step)
    requires Inv(s) && Enabled(s, a)
    ensures Excused(Next(s, a))
  {
  }

  lemma NextKeepsInv(s: State, a: Step)
    requires Inv(s) && Enabled(s, a)
    ensures Inv(Next(s, a))
  {
    NextKeepsPlaced(s, a);
    NextKeepsAccounted(s, a);
    NextKeepsExcused(s, a);
  }

  // ----- Every interleaving -----

  ghost predicate IsRun(s: State, steps: seq<Step>)
    decreases |steps|
  {
    steps == [] || (Enabled(s, steps[0]) && IsRun(Next(s, steps[0]), steps[1..]))
  }

  ghost function End(s: State, steps: seq<Step>): State
    requires IsRun(s, steps)
    decreases |steps|
  {
    if steps == [] then s else End(Next(s, steps[0]), steps[1..])
  }

  lemma {:induction false} RunKeepsInv(s: State, steps: seq<Step>)
    requires Inv(s) && IsRun(s, steps)
    ensures Inv(End(s, steps))
    decreases |steps|
  {
    if steps == [] {
    } else {
      NextKeepsInv(s, steps[0]);
      RunKeepsInv(Next(s, steps[0]), steps[1..]);
    }
  }

  ghost predicate Reachable(s: State) {
    exists waiting, steps :: IsRun(Start(waiting), steps) && s == End(Start(waiting), steps)
  }

  lemma ReachableInv(s: State)
    requires Reachable(s)
    ensures Inv(s)
  {
    var waiting, steps :| IsRun(Start(waiting), steps) && s == End(Start(waiting), steps);
    RunKeepsInv(Start(waiting), steps);
  }

  lemma {:induction false} OneMoreStep(s: State, steps: seq<Step>, a: Step)
    requires IsRun(s, steps) && Enabled(End(s, steps), a)
    ensures IsRun(s, steps + [a]) && End(s, steps + [a]) == Next(End(s, steps), a)
    decreases |steps|
  {
    if steps == [] {
      assert ([] + [a])[1..] == [];
    } else {
      OneMoreStep(Next(s, steps[0]), steps[1..], a);
      assert (steps + [a])[1..] == steps[1..] + [a];
    }
  }

  lemma ReachableNext(s: State, a: Step)
    requires Reachable(s) && Enabled(s, a)
    ensures Reachable(Next(s, a))
  {
    var waiting, steps :| IsRun(Start(waiting), steps) && s == End(Start(waiting), steps);
    OneMoreStep(Start(waiting), steps, a);
  }

  // What the forwarder took is what it forwarded, in order, and at most one
  // event more; it is the front of what arrived, and nobody else saw it.
  lemma TakenIsForwarded(s: State)
    requires Reachable(s)
    ensures s.taken == s.forwarded || (|s.taken| == |s.forwarded| + 1 && s.taken[..|s.forwarded|] == s.forwarded)
    ensures s.arrived == s.taken + s.others + s.waiting
  {
    ReachableInv(s);
    assert s.taken + (s.others + s.waiting) == s.taken + s.others + s.waiting;
  }

  // With no halt and no stop, a stream that closed carried everything that was
  // there when the invocation ended, and everything there when it closed.
  lemma EndedStreamIsWhole(s: State)
    requires Reachable(s) && s.phase.Exited? && !s.halted && !s.done
    ensures s.ended || s.closed
    ensures s.atExit <= |s.arrived| && s.forwarded == s.arrived[..s.atExit]
    ensures s.ended ==> s.atEnd <= s.atExit
    ensures s.phase.cause == SourceClosed ==> s.forwarded == s.arrived
  {
    ReachableInv(s);
  }

  // Once it has exited, which stop waits for, it takes and forwards nothing.
  lemma {:induction false} StoppedTakesNothing(s: State, steps: seq<Step>)
    requires s.phase.Exited? && IsRun(s, steps)
    ensures End(s, steps).phase == s.phase
    ensures End(s, steps).taken == s.taken && End(s, steps).forwarded == s.forwarded
    decreases |steps|
  {
    if steps == [] {
    } else {
      StoppedTakesNothing(Next(s, steps[0]), steps[1..]);
    }
  }

  // How many steps a stopped forwarder has left when nobody reads the stream.
  function Left(s: State): nat {
    match s.phase
    case Exited(_) => 0
    case Holding(_, _) => 1
    case Draining => 2
    case Waiting => 3
  }

  // stop never hangs: once done is closed the forwarder always has a step, and
  // each one it takes brings the exit closer.
  lemma StopReturns(s: State, a: Step)
    requires s.done && !s.phase.Exited?
    ensures exists b :: ByForwarder(b) && Enabled(s, b)
    ensures Enabled(s, a) && ByForwarder(a) ==> Left(Next(s, a)) < Left(s)
    ensures Enabled(s, a) && !ByForwarder(a) && !a.Read? ==> Left(Next(s, a)) == Left(s) && Next(s, a).done
  {
    if s.phase.Waiting? {
      assert Enabled(s, SeeDone) && ByForwarder(SeeDone);
    } else if s.phase.Holding? {
      assert Enabled(s, GiveUp) && ByForwarder(GiveUp);
    } else if s.waiting != [] {
      assert Enabled(s, Take) && ByForwarder(Take);
    } else if s.closed {
      assert Enabled(s, SeeClosed) && ByForwarder(SeeClosed);
    } else {
      assert Enabled(s, FindNothing) && ByForwarder(FindNothing);
    }
  }
}
