/** Waiting for one invocation: the settle loop reads what the forwarder
    forwards of what the bus delivered (settleInvocation in
    cmd/sensei-code/run.go over internal/event/bus.go). */
module Settlement {
  import opened Wrappers
  import opened Events
  import Bus
  import Forwarder
  import opened SettleLoop

  // A stream that closes with no halt and no stop before an ending was read
  // carried none of what had entered the subscription when the invocation ended.
  lemma UnsettledStreamHadNoEnding(x: Setup, s: Forwarder.State)
    requires Forwarder.Reachable(s) && s.phase.Exited? && !s.halted && !s.done && s.ended
    ensures s.atEnd <= |s.arrived|
    ensures EndingOf(x.task, s.forwarded).None? ==>
              EndingOf(x.task, s.arrived[..s.atEnd]).None? && Outcome(x, s.forwarded, None).1 == EXIT_FAILED
  {
    Forwarder.EndedStreamIsWhole(s);
    var seen := s.arrived[..s.atEnd];
    assert s.forwarded == seen + s.forwarded[s.atEnd..];
    EndingOfBoth(x.task, seen, s.forwarded[s.atEnd..]);
    SettleEnds(x, s.forwarded, NOTHING_YET);
  }

  // Whatever has been forwarded when the consumer settles, its code is the
  // one it would have read from everything that ever arrived.
  lemma ForwardingKeepsTheEnding(x: Setup, s: Forwarder.State)
    requires Forwarder.Reachable(s) && EndingOf(x.task, s.forwarded).Some?
    ensures EndingOf(x.task, s.arrived) == EndingOf(x.task, s.forwarded)
    ensures Outcome(x, s.forwarded, None) == Outcome(x, s.arrived, None)
  {
    Forwarder.TakenIsForwarded(s);
    var rest := s.arrived[|s.forwarded|..];
    assert s.arrived[..|s.forwarded|] == s.taken[..|s.forwarded|] == s.forwarded;
    assert s.arrived == s.forwarded + rest;
    EndingOfBoth(x.task, s.forwarded, rest);
    SettleStopsAtTheEnding(x, s.forwarded, rest, NOTHING_YET);
  }

  lemma {:induction false} SettleStopsAtTheEnding(x: Setup, a: seq<Event>, b: seq<Event>, m: Memory)
    requires EndingOf(x.task, a).Some?
    ensures Settle(x, a + b, m) == Settle(x, a, m) && Settle(x, a, m).1.Some?
  {
    assert (a + b)[1..] == a[1..] + b;
    if Mine(x.task, a[0]) && a[0].kind.AuthorityRequired? {
      SettleStopsAtTheEnding(x, a[1..], b, Asked(x, a[0], m));
    } else if !Mine(x.task, a[0]) || ExitFor(a[0].kind, m.deferred).None? {
      SettleStopsAtTheEnding(x, a[1..], b, m);
    }
  }

  // ----- From publishing to the exit code -----

  lemma {:induction false} EndingIsFound(task: string, events: seq<Event>)
    ensures EndingOf(task, events).Some? <==> exists k :: 0 <= k < |events| && IsOwnEnding(task, events[k])
  {
    if events == [] {
    } else {
      EndingIsFound(task, events[1..]);
      if EndingOf(task, events[1..]).Some? {
        var k :| 0 <= k < |events| - 1 && IsOwnEnding(task, events[1..][k]);
        assert IsOwnEnding(task, events[k + 1]);
      }
      assert forall k :: 1 <= k < |events| ==> events[1..][k - 1] == events[k];
    }
  }

  // The events that entered a subscription, in order.
  ghost function Entered(b: Bus.State, id: nat): seq<Event>
    requires Bus.Inv(b) && id < |b.chans|
  {
    var got := Bus.Got(b.chans[id]);
    seq(|got|, k requires 0 <= k < |got| => Delivered(b, id, k))
  }

  ghost function Delivered(b: Bus.State, id: nat, k: nat): Event
    requires Bus.Inv(b) && id < |b.chans| && k < |Bus.Got(b.chans[id])|
  {
    var i := Bus.Got(b.chans[id])[k];
    assert Bus.Placed(b, id) && i in Bus.Got(b.chans[id]);
    b.published[i]
  }

  // Some ending of the task was published while the subscription stood, and
  // one of those was not missed.
  ghost predicate EndingDue(task: string, b: Bus.State, id: nat, i: nat)
    requires id < |b.chans|
  {
    b.chans[id].since <= i < Bus.Until(b, id) && i < |b.published| && IsOwnEnding(task, b.published[i])
  }

  // What entered the subscription holds an ending exactly when one of the
  // endings published while it stood was not dropped.
  lemma EndingEntersUnlessMissed(task: string, b: Bus.State, id: nat)
    requires Bus.Reachable(b) && Bus.Inv(b) && b.readers == {} && id < |b.chans|
    ensures EndingOf(task, Entered(b, id)).Some? <==>
              exists i: nat :: EndingDue(task, b, id, i) && i !in b.chans[id].missed
  {
    var got, events := Bus.Got(b.chans[id]), Entered(b, id);
    EndingIsFound(task, events);
    assert Bus.Placed(b, id);
    if EndingOf(task, events).Some? {
      var k :| 0 <= k < |events| && IsOwnEnding(task, events[k]);
      assert got[k] in got && EndingDue(task, b, id, got[k]);
    }
    if i: nat :| EndingDue(task, b, id, i) && i !in b.chans[id].missed {
      assert !Bus.Owes(b, i, id);
      var k :| 0 <= k < |got| && got[k] == i;
      assert events[k] == b.published[i];
    }
  }

  // Some ending published while the subscription stood was not dropped.
  ghost predicate EndingKept(task: string, b: Bus.State, id: nat)
    requires id < |b.chans|
  {
    exists i: nat :: EndingDue(task, b, id, i) && i !in b.chans[id].missed
  }

  // With no halt and no stop, the consumer reads the ending the invocation
  // published if and only if one published while the subscription stood was
  // not dropped for want of room; otherwise all it may still read is an ending
  // that came after. `b` is the bus when the invocation ended. If Dropped had
  // not grown since subscribing, every published ending is read.
  lemma PublishedEndingIsRead(x: Setup, b: Bus.State, id: nat, s: Forwarder.State)
    requires Bus.Reachable(b) && Bus.Inv(b) && b.readers == {} && id < |b.chans|
    requires Forwarder.Reachable(s) && s.phase.Exited? && !s.halted && !s.done && s.ended
    requires s.atEnd <= |s.arrived| && s.arrived[..s.atEnd] == Entered(b, id)
    ensures s.atEnd <= |s.forwarded|
    ensures EndingKept(x.task, b, id) ==>
              EndingOf(x.task, s.forwarded).Some? && EndingOf(x.task, s.forwarded) == EndingOf(x.task, Entered(b, id))
    ensures !EndingKept(x.task, b, id) ==>
              EndingOf(x.task, s.forwarded) == EndingOf(x.task, s.forwarded[s.atEnd..])
    ensures b.dropped == b.chans[id].base ==>
              (EndingKept(x.task, b, id) <==> exists i: nat :: EndingDue(x.task, b, id, i))
  {
    EndingEntersUnlessMissed(x.task, b, id);
    Forwarder.EndedStreamIsWhole(s);
    assert s.forwarded == Entered(b, id) + s.forwarded[s.atEnd..];
    EndingOfBoth(x.task, Entered(b, id), s.forwarded[s.atEnd..]);
    if b.dropped == b.chans[id].base { Bus.UngrownCountMissesNothing(b, id); }
  }

  // ----- Without room the ending is lost -----

  // One subscription, of `cap` slots, that nobody has read from yet.
  ghost predicate Unread(b: Bus.State, cap: nat, events: seq<Event>) {
    && Bus.Reachable(b) && b.readers == {} && b.subs == {0} && |b.chans| == 1 && b.published == events
    && var c := b.chans[0];
       && c.cap == cap && c.received == [] && c.since == 0
       && (forall k :: 0 <= k < |c.buffer| ==> c.buffer[k] == k)
       && |c.buffer| == (if |events| < cap then |events| else cap)
       && forall i: nat :: i in c.missed <==> cap <= i < |events|
  }

  lemma Subscribed(cap: nat)
    requires cap > 0
    ensures exists b :: Unread(b, cap, [])
  {
    var s := Bus.Start();
    assert Bus.IsRun(s, []) && s == Bus.End(s, []);
    Bus.ReachableNext(s, Bus.Step.Subscribe(cap));
    var b := Bus.Next(s, Bus.Step.Subscribe(cap));
    assert b.subs == {0};
    assert Unread(b, cap, []);
  }

  // One publish while nobody reads.
  lemma OnePublish(b: Bus.State, cap: nat, events: seq<Event>, e: Event)
    requires Unread(b, cap, events)
    ensures exists t :: Unread(t, cap, events + [e])
  {
    var i := |b.published|;
    Bus.ReachableInv(b);
    Bus.ReachableNext(b, Bus.BeginPublish(e));
    var c := Bus.Next(b, Bus.BeginPublish(e));
    assert c.readers == {i} && c.owing[i] == {0} && |c.owing| == i + 1;
    Bus.ReachableNext(c, Bus.Visit(i, 0));
    var d := Bus.Next(c, Bus.Visit(i, 0));
    assert d.owing[i] == {};
    Bus.ReachableNext(d, Bus.EndPublish(i));
    var t := Bus.Next(d, Bus.EndPublish(i));
    assert t.readers == {};
    assert t.chans[0] == Bus.Sent(b.chans[0], i);
    assert Unread(t, cap, events + [e]);
  }

  lemma {:induction false} PublishedUnread(cap: nat, events: seq<Event>)
    requires cap > 0
    ensures exists b :: Unread(b, cap, events)
    decreases |events|
  {
    if events == [] {
      Subscribed(cap);
    } else {
      var init := events[..|events| - 1];
      PublishedUnread(cap, init);
      var b :| Unread(b, cap, init);
      OnePublish(b, cap, init, events[|events| - 1]);
      assert init + [events[|events| - 1]] == events;
    }
  }

  // The forwarder has drained what waited.
  ghost predicate Drained(arrived: seq<Event>, s: Forwarder.State) {
    && Forwarder.Reachable(s) && s.phase == Forwarder.Exited(Forwarder.Drained)
    && s.ended && !s.halted && !s.done && s.arrived == s.forwarded == arrived && s.atEnd == |arrived|
  }

  // The invocation has ended and `waiting` is still to be drained.
  ghost predicate Draining(arrived: seq<Event>, waiting: seq<Event>, s: Forwarder.State) {
    && Forwarder.Reachable(s) && s.phase == Forwarder.Waiting && s.ended && !s.halted && !s.done && !s.closed
    && s.arrived == arrived && s.atEnd == |arrived| && s.waiting == waiting && s.forwarded + waiting == arrived
  }

  lemma {:induction false} StreamDrains(arrived: seq<Event>, waiting: seq<Event>, s: Forwarder.State)
    requires Draining(arrived, waiting, s)
    ensures exists t :: Drained(arrived, t)
    decreases |waiting|
  {
    if waiting == [] {
      Forwarder.ReachableNext(s, Forwarder.SeeEnded);
      var t := Forwarder.Next(s, Forwarder.SeeEnded);
      Forwarder.ReachableNext(t, Forwarder.FindNothing);
      assert s.forwarded == arrived;
      assert Drained(arrived, Forwarder.Next(t, Forwarder.FindNothing));
    } else {
      Forwarder.ReachableNext(s, Forwarder.Take);
      var t := Forwarder.Next(s, Forwarder.Take);
      Forwarder.ReachableNext(t, Forwarder.Read);
      var u := Forwarder.Next(t, Forwarder.Read);
      assert u.forwarded + waiting[1..] == s.forwarded + waiting;
      StreamDrains(arrived, waiting[1..], u);
    }
  }

  lemma StreamOf(arrived: seq<Event>)
    ensures exists s :: Drained(arrived, s)
  {
    var s := Forwarder.Start(arrived);
    assert Forwarder.IsRun(s, []) && s == Forwarder.End(s, []);
    Forwarder.ReachableNext(s, Forwarder.EndInvocation);
    StreamDrains(arrived, arrived, Forwarder.Next(s, Forwarder.EndInvocation));
  }

  // The ending was published while the subscription of `cap` slots stood, the
  // invocation ended, nothing was halted or stopped, every event that entered
  // the subscription was read, and the exit code is "failed".
  ghost predicate Loses(x: Setup, cap: nat, events: seq<Event>, ending: Event, b: Bus.State, s: Forwarder.State) {
    && Unread(b, cap, events + [ending]) && EndingDue(x.task, b, 0, |events|) && Bus.Inv(b)
    && Forwarder.Reachable(s) && s.phase.Exited? && !s.halted && !s.done && s.ended
    && s.atEnd == |s.arrived| && s.forwarded == s.arrived == Entered(b, 0)
    && Outcome(x, s.forwarded, None).1 == EXIT_FAILED
  }

  lemma UnreadLosesTheEnding(task: string, cap: nat, events: seq<Event>, ending: Event, b: Bus.State)
    requires 0 < cap <= |events| && IsOwnEnding(task, ending) && Unread(b, cap, events + [ending])
    ensures Bus.Inv(b) && EndingDue(task, b, 0, |events|) && Entered(b, 0) == events[..cap]
  {
    Bus.ReachableInv(b);
    assert Bus.Got(b.chans[0]) == b.chans[0].buffer;
  }

  // Whatever the capacity, as many events that are no ending of the task fill
  // it, and an ending published after them is dropped.
  lemma FullBufferLosesTheEnding(x: Setup, cap: nat, events: seq<Event>, ending: Event)
    requires 0 < cap <= |events| && IsOwnEnding(x.task, ending)
    requires forall k :: 0 <= k < |events| ==> !IsOwnEnding(x.task, events[k])
    ensures exists b, s :: Loses(x, cap, events, ending, b, s)
  {
    PublishedUnread(cap, events + [ending]);
    var b :| Unread(b, cap, events + [ending]);
    UnreadLosesTheEnding(x.task, cap, events, ending, b);
    StreamOf(events[..cap]);
    var s :| Drained(events[..cap], s);
    NoEnding(x.task, s.forwarded);
    SettleEnds(x, s.forwarded, NOTHING_YET);
    assert Loses(x, cap, events, ending, b, s);
  }
}
