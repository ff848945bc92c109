/** How a headless invocation reads its events until they settle
    (streamUntilSettled and drainUntilTerminal in cmd/sensei-code/run.go, the
    spent-once answer in cmd/sensei-code/resume.go). The engine is any function
    of the calls made to it so far. */
module SettleLoop {
  import opened Wrappers
  import opened Events

  const EXIT_COMPLETED: int := 0
  const EXIT_FAILED: int := 1
  const EXIT_AWAITING_AUTHORITY: int := 3
  const EXIT_STOPPED: int := 4
  const EXIT_TIMEOUT: int := 5
  const EXIT_OBSERVED: int := 6
  const EXIT_AWAITING_REVIEW: int := 7
  const EXIT_BLOCKED_EXTERNAL: int := 8
  const EXIT_NOT_CONVERGED: int := 9
  const EXIT_RESTORATION_REFUSED: int := 10
  const EXIT_WORKSPACE_QUARANTINED: int := 11

  datatype Call = Resolve(option: string) | Defer | TimeOut

  // What the engine answers to the last of these calls.
  type Engine = seq<Call> -> bool

  // `answer` is the option a person chose, None for an invocation that carries none.
  datatype Setup = Setup(task: string, answer: Option<string>, engine: Engine)

  predicate Mine(task: string, ev: Event) {
    ev.task == "" || ev.task == task
  }

  function Own(task: string, events: seq<Event>): seq<Event> {
    if events == [] then []
    else if Mine(task, events[0]) then [events[0]] + Own(task, events[1..])
    else Own(task, events[1..])
  }

  function ExitFor(k: Kind, deferred: bool): Option<int> {
    match k
    case WorkflowCompleted => Some(EXIT_COMPLETED)
    case WorkflowObserved => Some(EXIT_OBSERVED)
    case WorkflowFailed => Some(EXIT_FAILED)
    case WorkflowTimedOut => Some(EXIT_TIMEOUT)
    case WorkflowStopped => Some(if deferred then EXIT_AWAITING_AUTHORITY else EXIT_STOPPED)
    case WorkflowAwaitingAuthority => Some(EXIT_AWAITING_AUTHORITY)
    case WorkflowAwaitingReview => Some(EXIT_AWAITING_REVIEW)
    case WorkflowBlockedExternal => Some(EXIT_BLOCKED_EXTERNAL)
    case WorkflowNotConverged => Some(EXIT_NOT_CONVERGED)
    case WorkflowRestorationRefused => Some(EXIT_RESTORATION_REFUSED)
    case WorkflowWorkspaceQuarantined => Some(EXIT_WORKSPACE_QUARANTINED)
    case AuthorityRequired => None
    case Other(_) => None
  }

  predicate Offers(ev: Event, option: string) {
    ev.options.Some? && option in ev.options.value
  }

  // ----- The loop as a fold -----

  datatype Memory = Memory(calls: seq<Call>, deferred: bool, spent: bool)

  const NOTHING_YET: Memory := Memory([], false, false)

  predicate Answerable(x: Setup, ev: Event, m: Memory) {
    x.answer.Some? && !m.spent && Offers(ev, x.answer.value)
  }

  // A question is offered the answer first; deferral is the fallback.
  function Asked(x: Setup, ev: Event, m: Memory): Memory {
    var resolved := m.calls + if Answerable(x, ev, m) then [Resolve(x.answer.value)] else [];
    if Answerable(x, ev, m) && x.engine(resolved) then m.(calls := resolved, spent := true)
    else m.(calls := resolved + [Defer], deferred := m.deferred || x.engine(resolved + [Defer]))
  }

  function Settle(x: Setup, events: seq<Event>, m: Memory): (Memory, Option<int>) {
    if events == [] then (m, None)
    else if !Mine(x.task, events[0]) then Settle(x, events[1..], m)
    else if events[0].kind.AuthorityRequired? then Settle(x, events[1..], Asked(x, events[0], m))
    else if ExitFor(events[0].kind, m.deferred).Some? then (m, ExitFor(events[0].kind, m.deferred))
    else Settle(x, events[1..], m)
  }

  function Drain(x: Setup, events: seq<Event>, deferred: bool): int {
    if events == [] then EXIT_TIMEOUT
    else if Mine(x.task, events[0]) && ExitFor(events[0].kind, deferred).Some? then
        ExitFor(events[0].kind, deferred).value
    else Drain(x, events[1..], deferred)
  }

  // `before` is read until the deadline is noticed, `after` from then until the
  // stream closes or the grace is over; with no deadline the stream closes.
  function Outcome(x: Setup, before: seq<Event>, after: Option<seq<Event>>): (seq<Call>, int) {
    var (m, code) := Settle(x, before, NOTHING_YET);
    if code.Some? then (m.calls, code.value)
    else if after.None? then (m.calls, EXIT_FAILED)
    else (m.calls + [TimeOut], Drain(x, after.value, m.deferred))
  }

  // ----- Other tasks' events -----

  lemma {:induction false} SettleIgnoresOthers(x: Setup, events: seq<Event>, m: Memory)
    ensures Settle(x, events, m) == Settle(x, Own(x.task, events), m)
  {
    if events == [] {
    } else {
      var rest := Own(x.task, events[1..]);
      assert Mine(x.task, events[0]) ==> ([events[0]] + rest)[1..] == rest;
      SettleIgnoresOthers(x, events[1..], m);
      SettleIgnoresOthers(x, events[1..], Asked(x, events[0], m));
    }
  }

  lemma {:induction false} DrainIgnoresOthers(x: Setup, events: seq<Event>, deferred: bool)
    ensures Drain(x, events, deferred) == Drain(x, Own(x.task, events), deferred)
  {
    if events == [] {
    } else {
      var rest := Own(x.task, events[1..]);
      assert Mine(x.task, events[0]) ==> ([events[0]] + rest)[1..] == rest;
      DrainIgnoresOthers(x, events[1..], deferred);
    }
  }

  // The exit code and every call to the engine are those of the stream with
  // other tasks' events removed, whenever the deadline comes.
  lemma OutcomeIgnoresOthers(x: Setup, before: seq<Event>, after: Option<seq<Event>>)
    ensures Outcome(x, before, after) ==
            Outcome(x, Own(x.task, before), if after.None? then None else Some(Own(x.task, after.value)))
  {
    SettleIgnoresOthers(x, before, NOTHING_YET);
    if after.Some? { DrainIgnoresOthers(x, after.value, Settle(x, before, NOTHING_YET).0.deferred); }
  }

  // ----- Questions -----

  function Delivered(engine: Engine, calls: seq<Call>): nat {
    if calls == [] then 0
    else Delivered(engine, calls[..|calls| - 1]) + if calls[|calls| - 1].Resolve? && engine(calls) then 1 else 0
  }

  function Deferrals(calls: seq<Call>): nat {
    if calls == [] then 0 else Deferrals(calls[..|calls| - 1]) + if calls[|calls| - 1].Defer? then 1 else 0
  }

  // Some deferral among these calls was accepted.
  ghost predicate Preserved(engine: Engine, calls: seq<Call>) {
    exists k :: 0 <= k < |calls| && calls[k].Defer? && engine(calls[..k + 1])
  }

  // The invocation's own questions before its ending, and that ending.
  function Questions(task: string, events: seq<Event>): nat {
    if events == [] then 0
    else if !Mine(task, events[0]) then Questions(task, events[1..])
    else if events[0].kind.AuthorityRequired? then 1 + Questions(task, events[1..])
    else if ExitFor(events[0].kind, false).Some? then 0
    else Questions(task, events[1..])
  }

  function EndingOf(task: string, events: seq<Event>): Option<Kind> {
    if events == [] then None
    else if Mine(task, events[0]) && ExitFor(events[0].kind, false).Some? then Some(events[0].kind)
    else EndingOf(task, events[1..])
  }

  ghost predicate Sound(x: Setup, m: Memory) {
    && Delivered(x.engine, m.calls) == (if m.spent then 1 else 0)
    && (m.deferred <==> Preserved(x.engine, m.calls))
    && (forall k :: 0 <= k < |m.calls| && m.calls[k].Resolve? ==> x.answer == Some(m.calls[k].option))
  }

  lemma CallCounts(engine: Engine, calls: seq<Call>, c: Call)
    ensures Delivered(engine, calls + [c]) == Delivered(engine, calls)
                                                  + if c.Resolve? && engine(calls + [c]) then 1 else 0
    ensures Deferrals(calls + [c]) == Deferrals(calls) + if c.Defer? then 1 else 0
  {
    assert (calls + [c])[..|calls|] == calls;
  }

  lemma CallPreserves(engine: Engine, calls: seq<Call>, c: Call)
    ensures Preserved(engine, calls + [c]) <==> Preserved(engine, calls) || (c.Defer? && engine(calls + [c]))
  {
    var d := calls + [c];
    assert d[..|calls| + 1] == d && d[|calls|] == c;
    if Preserved(engine, calls) {
      var k :| 0 <= k < |calls| && calls[k].Defer? && engine(calls[..k + 1]);
      assert d[k] == calls[k] && d[..k + 1] == calls[..k + 1];
    }
    if Preserved(engine, d) {
      var k :| 0 <= k < |d| && d[k].Defer? && engine(d[..k + 1]);
      if k < |calls| { assert d[k] == calls[k] && d[..k + 1] == calls[..k + 1]; }
    }
  }

  lemma CallKeepsSound(x: Setup, m: Memory, c: Call)
    requires Sound(x, m) && (c.Resolve? ==> x.answer == Some(c.option) && !m.spent)
    ensures Sound(x, Memory(m.calls + [c], m.deferred || (c.Defer? && x.engine(m.calls + [c])),
                            m.spent || (c.Resolve? && x.engine(m.calls + [c]))))
  {
    CallCounts(x.engine, m.calls, c);
    CallPreserves(x.engine, m.calls, c);
  }

  // What the call of an answer leaves, whatever the engine says to it.
  ghost function Resolved(x: Setup, m: Memory): Memory
    requires x.answer.Some?
  {
    var calls := m.calls + [Resolve(x.answer.value)];
    m.(calls := calls, spent := m.spent || x.engine(calls))
  }

  ghost function Deferred(x: Setup, m: Memory): Memory {
    var calls := m.calls + [Defer];
    m.(calls := calls, deferred := m.deferred || x.engine(calls))
  }

  lemma AskedIs(x: Setup, ev: Event, m: Memory)
    ensures Asked(x, ev, m) ==
            if !Answerable(x, ev, m) then Deferred(x, m)
            else if Resolved(x, m).spent then Resolved(x, m)
            else Deferred(x, Resolved(x, m))
  {
    assert m.calls + [] == m.calls;
  }

  lemma ResolvedKeepsSound(x: Setup, m: Memory)
    requires Sound(x, m) && x.answer.Some? && !m.spent
    ensures Sound(x, Resolved(x, m)) && Deferrals(Resolved(x, m).calls) == Deferrals(m.calls)
  {
    CallKeepsSound(x, m, Resolve(x.answer.value));
    CallCounts(x.engine, m.calls, Resolve(x.answer.value));
  }

  lemma DeferredKeepsSound(x: Setup, m: Memory)
    requires Sound(x, m)
    ensures Sound(x, Deferred(x, m)) && Deferrals(Deferred(x, m).calls) == Deferrals(m.calls) + 1
    ensures Delivered(x.engine, Deferred(x, m).calls) == Delivered(x.engine, m.calls)
  {
    CallKeepsSound(x, m, Defer);
    CallCounts(x.engine, m.calls, Defer);
  }

  // A question is answered or offered for deferral, never both and never neither.
  lemma AskedKeepsSound(x: Setup, ev: Event, m: Memory)
    requires Sound(x, m)
    ensures Sound(x, Asked(x, ev, m))
    ensures Delivered(x.engine, Asked(x, ev, m).calls) + Deferrals(Asked(x, ev, m).calls)
              == Delivered(x.engine, m.calls) + Deferrals(m.calls) + 1
  {
    AskedIs(x, ev, m);
    if !Answerable(x, ev, m) {
      DeferredKeepsSound(x, m);
    } else {
      ResolvedKeepsSound(x, m);
      if !Resolved(x, m).spent { DeferredKeepsSound(x, Resolved(x, m)); }
    }
  }

  lemma {:induction false} SettleKeepsSound(x: Setup, events: seq<Event>, m: Memory)
    requires Sound(x, m)
    ensures var n := Settle(x, events, m).0;
            && Sound(x, n)
            && Delivered(x.engine, n.calls) + Deferrals(n.calls)
                 == Delivered(x.engine, m.calls) + Deferrals(m.calls) + Questions(x.task, events)
  {
    if events == [] {
    } else {
      if Mine(x.task, events[0]) && events[0].kind.AuthorityRequired? {
        AskedKeepsSound(x, events[0], m);
        SettleKeepsSound(x, events[1..], Asked(x, events[0], m));
      } else if !Mine(x.task, events[0]) || ExitFor(events[0].kind, m.deferred).None? {
        SettleKeepsSound(x, events[1..], m);
      }
    }
  }

  // At most one answer is ever delivered, and it is the person's; every other
  // question before the ending was offered for deferral, exactly once.
  lemma EveryQuestionIsAccountedFor(x: Setup, before: seq<Event>, after: Option<seq<Event>>)
    ensures var calls := Outcome(x, before, after).0;
            && Delivered(x.engine, calls) <= 1
            && Delivered(x.engine, calls) + Deferrals(calls) == Questions(x.task, before)
            && (forall k :: 0 <= k < |calls| && calls[k].Resolve? ==> x.answer == Some(calls[k].option))
  {
    SettleKeepsSound(x, before, NOTHING_YET);
    var m := Settle(x, before, NOTHING_YET).0;
    CallCounts(x.engine, m.calls, TimeOut);
    CallPreserves(x.engine, m.calls, TimeOut);
  }

  // An answer reaches the engine only through a question that offers it.
  lemma {:induction false} UnofferedAnswerIsNeverGiven(x: Setup, events: seq<Event>, m: Memory)
    requires forall k :: 0 <= k < |events| && Mine(x.task, events[k]) && x.answer.Some? ==>
        !Offers(events[k], x.answer.value)
    requires forall k :: 0 <= k < |m.calls| ==> !m.calls[k].Resolve?
    ensures forall k :: 0 <= k < |Settle(x, events, m).0.calls| ==> !Settle(x, events, m).0.calls[k].Resolve?
  {
    if events == [] {
    } else {
      assert forall k :: 0 <= k < |events| - 1 ==> events[1..][k] == events[k + 1];
      UnofferedAnswerIsNeverGiven(x, events[1..], m);
      if Mine(x.task, events[0]) { UnofferedAnswerIsNeverGiven(x, events[1..], Asked(x, events[0], m)); }
    }
  }

  // ----- Endings -----

  // The code of an ending, or `otherwise` when there is none.
  function CodeOf(ending: Option<Kind>, deferred: bool, otherwise: int): int {
    if ending.Some? && ExitFor(ending.value, deferred).Some? then ExitFor(ending.value, deferred).value else otherwise
  }

  lemma {:induction false} SettleEnds(x: Setup, events: seq<Event>, m: Memory)
    ensures var (n, code) := Settle(x, events, m);
            && (code.Some? <==> EndingOf(x.task, events).Some?)
            && (code.Some? ==> code == ExitFor(EndingOf(x.task, events).value, n.deferred))
  {
    if events == [] {
    } else {
      if Mine(x.task, events[0]) && events[0].kind.AuthorityRequired? {
        SettleEnds(x, events[1..], Asked(x, events[0], m));
      } else if !Mine(x.task, events[0]) || ExitFor(events[0].kind, m.deferred).None? {
        SettleEnds(x, events[1..], m);
      }
    }
  }

  lemma {:induction false} DrainEnds(x: Setup, events: seq<Event>, deferred: bool)
    ensures Drain(x, events, deferred) == CodeOf(EndingOf(x.task, events), deferred, EXIT_TIMEOUT)
  {
    if events == [] {
    } else {
      DrainEnds(x, events[1..], deferred);
    }
  }

  lemma {:induction false} EndingOfBoth(task: string, a: seq<Event>, b: seq<Event>)
    ensures EndingOf(task, a + b) == if EndingOf(task, a).Some? then EndingOf(task, a) else EndingOf(task, b)
  {
    if a == [] {
      assert a + b == b;
    } else {
      assert (a + b)[1..] == a[1..] + b;
      EndingOfBoth(task, a[1..], b);
    }
  }

  // The engine's first ending of this task alone decides the exit code,
  // whenever the deadline is noticed. A stop reads as awaiting authority
  // exactly when an earlier deferral was accepted. With no ending, a stream
  // that closes has failed and a deadline that passes has timed out.
  lemma TheEngineDecidesTheEnding(x: Setup, before: seq<Event>, after: Option<seq<Event>>)
    ensures var (calls, code) := Outcome(x, before, after);
            var all := before + if after.None? then [] else after.value;
            code == CodeOf(EndingOf(x.task, all), Preserved(x.engine, calls),
                           if after.None? then EXIT_FAILED else EXIT_TIMEOUT)
  {
    SettleEnds(x, before, NOTHING_YET);
    SettleKeepsSound(x, before, NOTHING_YET);
    var m := Settle(x, before, NOTHING_YET).0;
    CallCounts(x.engine, m.calls, TimeOut);
    CallPreserves(x.engine, m.calls, TimeOut);
    assert before + [] == before;
    if after.Some? {
      EndingOfBoth(x.task, before, after.value);
      DrainEnds(x, after.value, m.deferred);
    }
  }

  // An event of this invocation that ends it.
  predicate IsOwnEnding(task: string, ev: Event) {
    (ev.task == "" || ev.task == task) && !ev.kind.AuthorityRequired? && !ev.kind.Other?
  }

  ghost predicate FirstEndingAt(task: string, events: seq<Event>, k: nat) {
    k < |events| && IsOwnEnding(task, events[k]) && forall j :: 0 <= j < k ==> !IsOwnEnding(task, events[j])
  }

  lemma {:induction false} FirstEndingIs(task: string, events: seq<Event>, k: nat)
    requires FirstEndingAt(task, events, k)
    ensures EndingOf(task, events) == Some(events[k].kind)
    decreases k
  {
    if k == 0 {
    } else {
      assert !IsOwnEnding(task, events[0]);
      assert forall j :: 0 <= j < k - 1 ==> events[1..][j] == events[j + 1];
      FirstEndingIs(task, events[1..], k - 1);
    }
  }

  lemma {:induction false} NoEnding(task: string, events: seq<Event>)
    requires forall j :: 0 <= j < |events| ==> !IsOwnEnding(task, events[j])
    ensures EndingOf(task, events).None?
  {
    if events == [] {
    } else {
      assert !IsOwnEnding(task, events[0]);
      assert forall j :: 0 <= j < |events| - 1 ==> events[1..][j] == events[j + 1];
      NoEnding(task, events[1..]);
    }
  }

  // Everything the invocation reads, before its deadline and after.
  function Stream(before: seq<Event>, after: Option<seq<Event>>): seq<Event> {
    before + if after.None? then [] else after.value
  }

  // The first ending alone decides the code: each has its own, whatever was
  // deferred, but a stop, which reads as awaiting authority exactly when a
  // deferral was accepted.
  lemma EachEndingHasItsCode(x: Setup, before: seq<Event>, after: Option<seq<Event>>, k: nat)
    requires FirstEndingAt(x.task, Stream(before, after), k)
    ensures var (calls, code) := Outcome(x, before, after);
            match Stream(before, after)[k].kind
            case WorkflowStopped =>
              code == if Preserved(x.engine, calls) then EXIT_AWAITING_AUTHORITY else EXIT_STOPPED
            case WorkflowCompleted => code == EXIT_COMPLETED
            case WorkflowObserved => code == EXIT_OBSERVED
            case WorkflowFailed => code == EXIT_FAILED
            case WorkflowTimedOut => code == EXIT_TIMEOUT
            case WorkflowAwaitingAuthority => code == EXIT_AWAITING_AUTHORITY
            case WorkflowAwaitingReview => code == EXIT_AWAITING_REVIEW
            case WorkflowBlockedExternal => code == EXIT_BLOCKED_EXTERNAL
            case WorkflowNotConverged => code == EXIT_NOT_CONVERGED
            case WorkflowRestorationRefused => code == EXIT_RESTORATION_REFUSED
            case WorkflowWorkspaceQuarantined => code == EXIT_WORKSPACE_QUARANTINED
            case _ => false
  {
    FirstEndingIs(x.task, Stream(before, after), k);
    TheEngineDecidesTheEnding(x, before, after);
  }

  // Without an ending, a stream that closes has failed and a deadline has timed out.
  lemma NoEndingNoSuccess(x: Setup, before: seq<Event>, after: Option<seq<Event>>)
    requires forall j :: 0 <= j < |Stream(before, after)| ==> !IsOwnEnding(x.task, Stream(before, after)[j])
    ensures Outcome(x, before, after).1 == if after.None? then EXIT_FAILED else EXIT_TIMEOUT
  {
    NoEnding(x.task, Stream(before, after));
    TheEngineDecidesTheEnding(x, before, after);
  }

  lemma {:induction false} SomeFirstEnding(task: string, events: seq<Event>)
    ensures (exists k: nat :: FirstEndingAt(task, events, k))
            || forall j :: 0 <= j < |events| ==> !IsOwnEnding(task, events[j])
  {
    if events == [] {
    } else if IsOwnEnding(task, events[0]) {
      assert FirstEndingAt(task, events, 0);
    } else {
      var rest := events[1..];
      SomeFirstEnding(task, rest);
      assert forall j :: 0 <= j < |rest| ==> rest[j] == events[j + 1];
      if k: nat :| FirstEndingAt(task, rest, k) {
        assert forall j :: 1 <= j <= k ==> events[j] == rest[j - 1];
        assert FirstEndingAt(task, events, k + 1);
      } else {
        assert forall j :: 1 <= j < |events| ==> events[j] == rest[j - 1];
      }
    }
  }

  // The shell reads 0 exactly when the first ending is a completion.
  lemma ZeroMeansCompleted(x: Setup, before: seq<Event>, after: Option<seq<Event>>)
    ensures Outcome(x, before, after).1 == 0 <==>
              exists k: nat :: FirstEndingAt(x.task, Stream(before, after), k)
                               && Stream(before, after)[k].kind.WorkflowCompleted?
  {
    var all := Stream(before, after);
    SomeFirstEnding(x.task, all);
    if k: nat :| FirstEndingAt(x.task, all, k) {
      EachEndingHasItsCode(x, before, after, k);
      forall j: nat | FirstEndingAt(x.task, all, j) ensures j == k { assert IsOwnEnding(x.task, all[j]); }
    } else {
      NoEndingNoSuccess(x, before, after);
    }
  }

  // Of two invocations that read endings of different kinds and yet exit
  // alike, one was stopped and the other left awaiting authority.
  lemma OnlyAStopSharesItsCode(x: Setup, before: seq<Event>, after: Option<seq<Event>>, k: nat,
      y: Setup, before': seq<Event>, after': Option<seq<Event>>, k': nat)
    requires FirstEndingAt(x.task, Stream(before, after), k) && FirstEndingAt(y.task, Stream(before', after'), k')
    requires Outcome(x, before, after).1 == Outcome(y, before', after').1
    ensures var a, b := Stream(before, after)[k].kind, Stream(before', after')[k'].kind;
            a == b || (a.WorkflowStopped? && b.WorkflowAwaitingAuthority?)
            || (a.WorkflowAwaitingAuthority? && b.WorkflowStopped?)
  {
    EachEndingHasItsCode(x, before, after, k);
    EachEndingHasItsCode(y, before', after', k');
  }

  // An own question before any own ending, that offers this option.
  ghost predicate OfferAt(task: string, option: string, events: seq<Event>, k: nat) {
    && k < |events| && (events[k].task == "" || events[k].task == task) && events[k].kind.AuthorityRequired?
    && events[k].options.Some? && option in events[k].options.value
    && forall j :: 0 <= j < k ==> !IsOwnEnding(task, events[j])
  }

  lemma {:induction false} CallsGrow(x: Setup, events: seq<Event>, m: Memory)
    ensures m.calls <= Settle(x, events, m).0.calls
  {
    if events == [] {
    } else {
      CallsGrow(x, events[1..], m);
      AskedIs(x, events[0], m);
      CallsGrow(x, events[1..], Asked(x, events[0], m));
    }
  }

  // The person's answer is put to the engine as soon as a question offers it:
  // whenever one does before the ending, a call of the engine carries it.
  lemma {:induction false} OfferedAnswerIsGiven(x: Setup, events: seq<Event>, m: Memory, k: nat)
    requires x.answer.Some? && !m.spent && OfferAt(x.task, x.answer.value, events, k)
    ensures Resolve(x.answer.value) in Settle(x, events, m).0.calls
    decreases k
  {
    var ev, rest := events[0], events[1..];
    if k > 0 {
      assert rest[k - 1] == events[k] && !IsOwnEnding(x.task, ev);
      assert forall j :: 0 <= j < k - 1 ==> rest[j] == events[j + 1];
    }
    if Mine(x.task, ev) && ev.kind.AuthorityRequired? {
      AskedIs(x, ev, m);
      if Answerable(x, ev, m) {
        CallsGrow(x, rest, Asked(x, ev, m));
        assert Asked(x, ev, m).calls[|m.calls|] == Resolve(x.answer.value);
      } else {
        OfferedAnswerIsGiven(x, rest, Asked(x, ev, m), k - 1);
      }
    } else {
      OfferedAnswerIsGiven(x, rest, m, k - 1);
    }
  }

  // ----- The loop's own code -----

  class Control {
    const engine: Engine
    var calls: seq<Call>

    constructor (engine: Engine)
      ensures this.engine == engine && calls == []
    {
      this.engine, calls := engine, [];
    }

    method Invoke(c: Call) returns (ok: bool)
      modifies this
      ensures calls == old(calls) + [c] && ok == engine(calls)
    {
      calls := calls + [c];
      ok := engine(calls);
    }
  }

  class HumanAnswer {
    const option: string
    const control: Control
    var spent: bool

    constructor (option: string, control: Control)
      ensures this.option == option && this.control == control && !spent
    {
      this.option, this.control, spent := option, control, false;
    }

    // Delivered to the question it was given for, once.
    method AnswerAuthority(ev: Event) returns (answered: bool)
      modifies this, control
      ensures answered ==> !old(spent) && Offers(ev, option) && spent
      ensures !answered ==> spent == old(spent)
      ensures control.calls == old(control.calls) + if !old(spent) && Offers(ev, option) then [Resolve(option)] else []
      ensures answered <==> !old(spent) && Offers(ev, option) && control.engine(control.calls)
    {
      if spent { return false; }
      var offered := LiveQuestionOffers(ev);
      if !offered { return false; }
      var resolved := control.Invoke(Resolve(option));
      if !resolved { return false; }
      spent := true;
      answered := true;
    }

    method LiveQuestionOffers(ev: Event) returns (offered: bool)
      ensures offered == Offers(ev, option)
    {
      if ev.options.None? { return false; }
      for i := 0 to |ev.options.value|
        invariant option !in ev.options.value[..i]
      {
        if ev.options.value[i] == option { return true; }
      }
      assert ev.options.value[..|ev.options.value|] == ev.options.value;
      offered := false;
    }
  }

  ghost function SetupOf(task: string, control: Control, answerer: HumanAnswer?): Setup {
    Setup(task, if answerer == null then None else Some(answerer.option), control.engine)
  }

  method DrainUntilTerminal(x: Setup, events: seq<Event>, deferred: bool) returns (code: int)
    ensures code == Drain(x, events, deferred)
  {
    for i := 0 to |events|
      invariant Drain(x, events, deferred) == Drain(x, events[i..], deferred)
    {
      if events[i].task != "" && events[i].task != x.task { continue; }
      var exit := ExitFor(events[i].kind, deferred);
      if exit.Some? { return exit.value; }
    }
    code := EXIT_TIMEOUT;
  }

  method StreamUntilSettled(task: string, control: Control, answerer: HumanAnswer?, before: seq<Event>,
      after: Option<seq<Event>>)
    returns (code: int)
    requires control.calls == [] && (answerer != null ==> answerer.control == control && !answerer.spent)
    modifies control, answerer
    ensures (control.calls, code) == Outcome(SetupOf(task, control, answerer), before, after)
  {
    ghost var x := SetupOf(task, control, answerer);
    var deferred := false;
    ghost var m := NOTHING_YET;
    for i := 0 to |before|
      invariant m.calls == control.calls && m.deferred == deferred && (answerer != null ==> m.spent == answerer.spent)
      invariant Settle(x, before, NOTHING_YET) == Settle(x, before[i..], m)
    {
      var ev := before[i];
      if ev.task != "" && ev.task != task { continue; }
      if ev.kind.AuthorityRequired? {
        m := Asked(x, ev, m);
        var answered := false;
        if answerer != null { answered := answerer.AnswerAuthority(ev); }
        if answered { continue; }
        var ok := control.Invoke(Defer);
        if ok { deferred := true; }
        continue;
      }
      var exit := ExitFor(ev.kind, deferred);
      if exit.Some? { return exit.value; }
    }
    assert before[|before|..] == [];
    if after.None? { return EXIT_FAILED; }
    var timedOut := control.Invoke(TimeOut);
    code := DrainUntilTerminal(Setup(task, None, control.engine), after.value, deferred);
    DrainIgnoresTheAnswer(x, Setup(task, None, control.engine), after.value, deferred);
  }

  lemma {:induction false} DrainIgnoresTheAnswer(x: Setup, y: Setup, events: seq<Event>, deferred: bool)
    requires x.task == y.task
    ensures Drain(x, events, deferred) == Drain(y, events, deferred)
  {
    if events == [] {
    } else {
      DrainIgnoresTheAnswer(x, y, events[1..], deferred);
    }
  }
}
