/** The event bus (internal/event/bus.go). Publishers share a read lock, so any
    number of publishes are under way at once, each visiting the subscribers
    one by one; subscribing and cancelling take the write lock. */
module Bus {
  import opened Events

  // A subscriber's channel carries publishes by their number. Everything but
  // `cap`, `buffer` and `closed` is history: what the reader has taken, what
  // was skipped, which publishes were due and what the bus had dropped when
  // the subscription began.
  datatype Chan = Chan(
    cap: nat, buffer: seq<nat>, closed: bool,
    received: seq<nat>, missed: set<nat>, since: nat, until: nat, base: nat)

  // `subs` are the ids still registered; an id is its channel's index.
  // `owing[i]` are the subscribers publish i has yet to visit and `readers`
  // the publishes that hold the read lock. `owed` counts the subscribers each
  // publish found, and `overlapped` tells whether two publishes ever ran at once.
  datatype State = State(
    chans: seq<Chan>, subs: set<nat>, dropped: nat,
    published: seq<Event>, owing: seq<set<nat>>, readers: set<nat>,
    owed: nat, overlapped: bool)

  datatype Step =
    | Subscribe(buffer: int)
    | Cancel(id: nat)
    | BeginPublish(e: Event)
    | Visit(publish: nat, id: nat)
    | EndPublish(publish: nat)
    | Receive(id: nat)

  predicate Enabled(s: State, a: Step) {
    match a
    case Subscribe(_) => s.readers == {}
    case Cancel(id) => s.readers == {} && id < |s.chans|
    case BeginPublish(_) => true
    case Visit(i, id) => i in s.readers && i < |s.owing| && id in s.owing[i] && id < |s.chans|
    case EndPublish(i) => i in s.readers && i < |s.owing| && s.owing[i] == {}
    case Receive(id) => id < |s.chans| && s.chans[id].buffer != []
  }

  function Opened(buffer: int, published: nat, dropped: nat): Chan {
    Chan(if buffer < 1 then 1 else buffer, [], false, [], {}, published, published, dropped)
  }

  // A send that never waits.
  function Sent(c: Chan, i: nat): Chan {
    if |c.buffer| < c.cap then c.(buffer := c.buffer + [i]) else c.(missed := c.missed + {i})
  }

  function Next(s: State, a: Step): State
    requires Enabled(s, a)
  {
    match a
    case Subscribe(buffer) =>
      s.(chans := s.chans + [Opened(buffer, |s.published|, s.dropped)], subs := s.subs + {|s.chans|})
    case Cancel(id) =>
      if id !in s.subs then s
      else s.(subs := s.subs - {id}, chans := s.chans[id := s.chans[id].(closed := true, until := |s.published|)])
    case BeginPublish(e) =>
      s.(published := s.published + [e], owing := s.owing + [s.subs], readers := s.readers + {|s.published|},
         owed := s.owed + |s.subs|, overlapped := s.overlapped || s.readers != {})
    case Visit(i, id) =>
      var c := s.chans[id];
      s.(chans := s.chans[id := Sent(c, i)], owing := s.owing[i := s.owing[i] - {id}],
         dropped := if |c.buffer| < c.cap then s.dropped else s.dropped + 1)
    case EndPublish(i) => s.(readers := s.readers - {i})
    case Receive(id) =>
      var c := s.chans[id];
      s.(chans := s.chans[id := c.(buffer := c.buffer[1..], received := c.received + [c.buffer[0]])])
  }

  function Start(): State { State([], {}, 0, [], [], {}, 0, false) }

  // Everything that entered the channel, in order.
  function Got(c: Chan): seq<nat> { c.received + c.buffer }

  ghost predicate Owes(s: State, i: nat, id: nat) {
    i < |s.owing| && id in s.owing[i]
  }

  // The publishes due to a subscriber end where it cancelled, if it did.
  ghost function Until(s: State, id: nat): nat
    requires id < |s.chans|
  {
    if id in s.subs then |s.published| else s.chans[id].until
  }

  // ----- The locks -----

  ghost predicate Locked(s: State) {
    && |s.owing| == |s.published|
    && (forall i :: i in s.readers ==> i < |s.published|)
    && (forall i: nat, id: nat :: Owes(s, i, id) ==> id in s.subs && i in s.readers)
    && (forall id :: id in s.subs ==> id < |s.chans|)
    && (forall id :: 0 <= id < |s.chans| ==> (s.chans[id].closed <==> id !in s.subs))
    && (forall id :: 0 <= id < |s.chans| ==> s.chans[id].until <= |s.published|)
  }

  lemma LifetimeKeepsLocked(s: State, a: Step)
    requires Locked(s) && Enabled(s, a) && (a.Subscribe? || a.Cancel?)
    ensures Locked(Next(s, a))
  {
    assert forall i: nat, id: nat :: Owes(Next(s, a), i, id) <==> Owes(s, i, id);
  }

  lemma BeginPublishKeepsLocked(s: State, a: Step)
    requires Locked(s) && Enabled(s, a) && a.BeginPublish?
    ensures Locked(Next(s, a))
  {
    assert forall i: nat, id: nat ::
        Owes(Next(s, a), i, id) <==> Owes(s, i, id) || (i == |s.published| && id in s.subs);
  }

  lemma VisitingKeepsLocked(s: State, a: Step)
    requires Locked(s) && Enabled(s, a) && (a.Visit? || a.EndPublish? || a.Receive?)
    ensures Locked(Next(s, a))
  {
    assert forall i: nat, id: nat :: Owes(Next(s, a), i, id) ==> Owes(s, i, id);
    if a.EndPublish? { assert forall id: nat :: !Owes(s, a.publish, id); }
  }

  // No send reaches a closed channel, and none is closed twice.
  lemma SendsAndClosesAreSafe(s: State, a: Step)
    requires Locked(s) && Enabled(s, a)
    ensures a.Visit? ==> !s.chans[a.id].closed
    ensures a.Cancel? && Next(s, a) != s ==> !s.chans[a.id].closed
  {
    if a.Visit? { assert Owes(s, a.publish, a.id); }
  }

  // ----- What each subscriber gets -----

  // Each publish due to the subscriber is in exactly one place.
  ghost predicate Placed(s: State, id: nat)
    requires id < |s.chans|
  {
    var c := s.chans[id];
    && c.since <= Until(s, id)
    && (forall i: nat :: (i in Got(c) || i in c.missed || Owes(s, i, id)) <==> c.since <= i < Until(s, id))
    && (forall i: nat :: i in Got(c) ==> i !in c.missed && !Owes(s, i, id))
    && (forall i: nat :: i in c.missed ==> !Owes(s, i, id))
    && (forall j, k :: 0 <= j < k < |Got(c)| ==> Got(c)[j] != Got(c)[k])
    && c.base + |c.missed| <= s.dropped
  }

  ghost predicate Delivering(s: State) {
    Locked(s) && forall id :: 0 <= id < |s.chans| ==> Placed(s, id)
  }

  lemma BeginKeepsPlaced(s: State, a: Step, id: nat)
    requires Delivering(s) && Enabled(s, a) && a.BeginPublish? && id < |s.chans|
    ensures Placed(Next(s, a), id)
  {
    var t := Next(s, a);
    assert Placed(s, id) && Got(t.chans[id]) == Got(s.chans[id]);
    assert forall i: nat :: i < |s.owing| ==> t.owing[i] == s.owing[i];
    assert forall i: nat :: Owes(t, i, id) <==> Owes(s, i, id) || (i == |s.published| && id in s.subs);
  }

  lemma VisitKeepsPlaced(s: State, a: Step, id: nat)
    requires Delivering(s) && Enabled(s, a) && a.Visit? && id < |s.chans|
    ensures Placed(Next(s, a), id)
  {
    var t := Next(s, a);
    assert Placed(s, id);
    assert forall i: nat :: Owes(t, i, id) <==> Owes(s, i, id) && (i != a.publish || id != a.id);
    assert Owes(s, a.publish, a.id);
    if id == a.id && |s.chans[id].buffer| < s.chans[id].cap {
      assert Got(t.chans[id]) == Got(s.chans[id]) + [a.publish];
    }
  }

  lemma ReceiveKeepsPlaced(s: State, a: Step, id: nat)
    requires Delivering(s) && Enabled(s, a) && a.Receive? && id < |s.chans|
    ensures Placed(Next(s, a), id)
  {
    var t := Next(s, a);
    assert Placed(s, id) && Got(t.chans[id]) == Got(s.chans[id]);
    assert forall i: nat :: Owes(t, i, id) <==> Owes(s, i, id);
  }

  lemma LifetimeKeepsPlaced(s: State, a: Step, id: nat)
    requires Delivering(s) && Enabled(s, a) && (a.Subscribe? || a.Cancel? || a.EndPublish?) && id < |Next(s, a).chans|
    ensures Placed(Next(s, a), id)
  {
    var t := Next(s, a);
    if id < |s.chans| { assert Placed(s, id) && Got(t.chans[id]) == Got(s.chans[id]); }
    assert forall i: nat :: Owes(t, i, id) <==> Owes(s, i, id);
  }

  lemma NextKeepsDelivering(s: State, a: Step)
    requires Delivering(s) && Enabled(s, a)
    ensures Delivering(Next(s, a))
  {
    match a {
      case Visit(_, _) => VisitingKeepsLocked(s, a);
      case EndPublish(_) => VisitingKeepsLocked(s, a);
      case Receive(_) => VisitingKeepsLocked(s, a);
      case Subscribe(_) => LifetimeKeepsLocked(s, a);
      case Cancel(_) => LifetimeKeepsLocked(s, a);
      case BeginPublish(_) => BeginPublishKeepsLocked(s, a);
    }
    forall id: nat | id < |Next(s, a).chans|
      ensures Placed(Next(s, a), id)
    {
      match a
      case BeginPublish(_) => BeginKeepsPlaced(s, a, id);
      case Visit(_, _) => VisitKeepsPlaced(s, a, id);
      case Receive(_) => ReceiveKeepsPlaced(s, a, id);
      case _ => LifetimeKeepsPlaced(s, a, id);
    }
  }

  // ----- Nothing is lost without being counted -----

  function Delivered(chans: seq<Chan>): nat {
    if chans == [] then 0 else Delivered(chans[..|chans| - 1]) + |Got(chans[|chans| - 1])|
  }

  function Outstanding(owing: seq<set<nat>>): nat {
    if owing == [] then 0 else Outstanding(owing[..|owing| - 1]) + |owing[|owing| - 1]|
  }

  lemma {:induction false} DeliveredUpdate(chans: seq<Chan>, id: nat, c: Chan)
    requires id < |chans|
    ensures Delivered(chans[id := c]) == Delivered(chans) - |Got(chans[id])| + |Got(c)|
  {
    var n := |chans| - 1;
    if id < n {
      assert chans[id := c][..n] == chans[..n][id := c];
      DeliveredUpdate(chans[..n], id, c);
    } else {
      assert chans[id := c][..n] == chans[..n];
    }
  }

  lemma {:induction false} OutstandingUpdate(owing: seq<set<nat>>, i: nat, x: set<nat>)
    requires i < |owing|
    ensures Outstanding(owing[i := x]) == Outstanding(owing) - |owing[i]| + |x|
  {
    var n := |owing| - 1;
    if i < n {
      assert owing[i := x][..n] == owing[..n][i := x];
      OutstandingUpdate(owing[..n], i, x);
    } else {
      assert owing[i := x][..n] == owing[..n];
    }
  }

  lemma {:induction false} NoneOutstanding(owing: seq<set<nat>>)
    requires forall i :: 0 <= i < |owing| ==> owing[i] == {}
    ensures Outstanding(owing) == 0
  {
    if owing == [] {
    } else {
      NoneOutstanding(owing[..|owing| - 1]);
    }
  }

  ghost predicate Balanced(s: State) {
    Delivered(s.chans) + s.dropped + Outstanding(s.owing) == s.owed
  }

  lemma LifetimeKeepsBalanced(s: State, a: Step)
    requires Delivering(s) && Balanced(s) && Enabled(s, a) && (a.Subscribe? || a.Cancel?)
    ensures Balanced(Next(s, a))
  {
    var t := Next(s, a);
    match a
    case Subscribe(buffer) => assert t.chans[..|s.chans|] == s.chans;
    case Cancel(id) => if id in s.subs { DeliveredUpdate(s.chans, id, t.chans[id]); }
  }

  lemma VisitKeepsBalanced(s: State, a: Step)
    requires Delivering(s) && Balanced(s) && Enabled(s, a) && a.Visit?
    ensures Balanced(Next(s, a))
  {
    DeliveredUpdate(s.chans, a.id, Next(s, a).chans[a.id]);
    OutstandingUpdate(s.owing, a.publish, s.owing[a.publish] - {a.id});
  }

  lemma NextKeepsBalanced(s: State, a: Step)
    requires Delivering(s) && Balanced(s) && Enabled(s, a)
    ensures Balanced(Next(s, a))
  {
    var t := Next(s, a);
    match a
    case Subscribe(_) => LifetimeKeepsBalanced(s, a);
    case Cancel(_) => LifetimeKeepsBalanced(s, a);
    case BeginPublish(_) => assert t.owing[..|s.owing|] == s.owing;
    case Visit(_, _) => VisitKeepsBalanced(s, a);
    case EndPublish(_) =>
    case Receive(id) => DeliveredUpdate(s.chans, id, t.chans[id]);
  }

  // ----- Order -----

  ghost predicate Ascending(s: seq<nat>) {
    forall j, k :: 0 <= j < k < |s| ==> s[j] < s[k]
  }

  lemma AscendingAppend(s: seq<nat>, i: nat)
    requires Ascending(s) && forall x: nat :: x in s ==> x < i
    ensures Ascending(s + [i])
  {
    forall j, k | 0 <= j < k < |s| + 1
      ensures (s + [i])[j] < (s + [i])[k]
    {
      assert s[j] in s;
    }
  }

  // A publish under way is the last one.
  ghost predicate LastReader(s: State) {
    forall i :: i in s.readers ==> i == |s.published| - 1
  }

  ghost predicate ChannelsAscend(s: State) {
    forall id :: 0 <= id < |s.chans| ==> Ascending(Got(s.chans[id]))
  }

  ghost predicate InOrder(s: State) {
    !s.overlapped ==> LastReader(s) && ChannelsAscend(s)
  }

  lemma VisitKeepsAscending(s: State, a: Step, id: nat)
    requires Delivering(s) && InOrder(s) && !s.overlapped && Enabled(s, a) && a.Visit? && id < |s.chans|
    ensures Ascending(Got(Next(s, a).chans[id]))
  {
    var was, now := Got(s.chans[id]), Got(Next(s, a).chans[id]);
    assert Placed(s, id);
    if id == a.id && |s.chans[id].buffer| < s.chans[id].cap {
      assert now == was + [a.publish];
      assert Owes(s, a.publish, id) && a.publish == |s.published| - 1;
      assert forall i: nat :: i in was ==> i < a.publish;
      AscendingAppend(was, a.publish);
    } else {
      assert now == was;
    }
  }

  lemma NextKeepsLastReader(s: State, a: Step)
    requires LastReader(s) && Enabled(s, a) && !Next(s, a).overlapped
    ensures LastReader(Next(s, a))
  {
  }

  // Only a visit puts anything into a channel.
  lemma OthersKeepGot(s: State, a: Step, id: nat)
    requires Enabled(s, a) && !a.Visit? && id < |Next(s, a).chans|
    ensures Got(Next(s, a).chans[id]) == if id < |s.chans| then Got(s.chans[id]) else []
  {
    if a.Receive? && a.id == id {
      var c := s.chans[id];
      assert c.buffer == [c.buffer[0]] + c.buffer[1..];
    }
  }

  lemma NextKeepsInOrder(s: State, a: Step)
    requires Delivering(s) && InOrder(s) && Enabled(s, a)
    ensures InOrder(Next(s, a))
  {
    var t := Next(s, a);
    if !t.overlapped {
      NextKeepsLastReader(s, a);
      forall id: nat | id < |t.chans|
        ensures Ascending(Got(t.chans[id]))
      {
        if a.Visit? { VisitKeepsAscending(s, a, id); } else { OthersKeepGot(s, a, id); }
      }
    }
  }

  // ----- Every run -----

  ghost predicate Inv(s: State) {
    Delivering(s) && Balanced(s) && InOrder(s)
  }

  lemma NextKeepsInv(s: State, a: Step)
    requires Inv(s) && Enabled(s, a)
    ensures Inv(Next(s, a))
  {
    NextKeepsDelivering(s, a);
    NextKeepsBalanced(s, a);
    NextKeepsInOrder(s, a);
  }

  ghost predicate IsRun(s: State, steps: seq<Step>)
    decreases |steps|
  {
    steps == [] || (Enabled(s, steps[0]) && IsRun(Next(s, steps[0]), steps[1..]))
  }

  ghost function End(s: State, steps: seq<Step>): State
    requires IsRun(s, steps)
    decreases |steps|
  {
    if steps == [] then s else End(Next(s, steps[0]), steps[1..])
  }

  lemma {:induction false} RunKeepsInv(s: State, steps: seq<Step>)
    requires Inv(s) && IsRun(s, steps)
    ensures Inv(End(s, steps))
    decreases |steps|
  {
    if steps == [] {
    } else {
      NextKeepsInv(s, steps[0]);
      RunKeepsInv(Next(s, steps[0]), steps[1..]);
    }
  }

  ghost predicate Reachable(s: State) {
    exists steps: seq<Step> :: IsRun(Start(), steps) && s == End(Start(), steps)
  }

  lemma StartInv()
    ensures Inv(Start())
  {
  }

  lemma ReachableInv(s: State)
    requires Reachable(s)
    ensures Inv(s)
  {
    var steps: seq<Step> :| IsRun(Start(), steps) && s == End(Start(), steps);
    StartInv();
    RunKeepsInv(Start(), steps);
  }

  lemma {:induction false} OneMoreStep(s: State, steps: seq<Step>, a: Step)
    requires IsRun(s, steps) && Enabled(End(s, steps), a)
    ensures IsRun(s, steps + [a]) && End(s, steps + [a]) == Next(End(s, steps), a)
    decreases |steps|
  {
    if steps == [] {
      assert ([] + [a])[1..] == [];
    } else {
      OneMoreStep(Next(s, steps[0]), steps[1..], a);
      assert (steps + [a])[1..] == steps[1..] + [a];
    }
  }

  lemma ReachableNext(s: State, a: Step)
    requires Reachable(s) && Enabled(s, a)
    ensures Reachable(Next(s, a))
  {
    var steps: seq<Step> :| IsRun(Start(), steps) && s == End(Start(), steps);
    OneMoreStep(Start(), steps, a);
  }

  // No interleaving sends on a closed channel or closes one twice.
  lemma RunsAreSafe(s: State, a: Step)
    requires Reachable(s) && Enabled(s, a)
    ensures a.Visit? ==> !s.chans[a.id].closed
    ensures a.Cancel? && Next(s, a) != s ==> !s.chans[a.id].closed
  {
    ReachableInv(s);
    SendsAndClosesAreSafe(s, a);
  }

  // Deliveries and drops add up to what every publish owed, as soon as no
  // publish is under way.
  lemma DeliveriesAndDropsAddUp(s: State)
    requires Reachable(s) && s.readers == {}
    ensures Delivered(s.chans) + s.dropped == s.owed
  {
    ReachableInv(s);
    forall i | 0 <= i < |s.owing|
      ensures s.owing[i] == {}
    {
      assert forall id :: id in s.owing[i] ==> Owes(s, i, id);
    }
    NoneOutstanding(s.owing);
  }

  lemma {:induction false} AscendingRange(s: seq<nat>, lo: nat, hi: nat)
    requires lo <= hi && Ascending(s) && forall i: nat :: i in s <==> lo <= i < hi
    ensures s == seq(hi - lo, k requires 0 <= k < hi - lo => lo + k)
    decreases hi - lo
  {
    if s == [] {
      assert lo < hi ==> lo in s;
    } else {
      var n := |s| - 1;
      assert s[n] in s && hi - 1 in s;
      assert s[n] in s && s[n] == hi - 1 && s == s[..n] + [s[n]];
      assert forall i: nat :: i in s[..n] ==> i in s && i != hi - 1;
      forall i: nat | lo <= i < hi - 1
        ensures i in s[..n]
      {
        assert i in s;
        var k :| 0 <= k < |s| && s[k] == i;
        assert k < n && s[..n][k] == i;
      }
      AscendingRange(s[..n], lo, hi - 1);
    }
  }

  lemma UngrownCountMissesNothing(s: State, id: nat)
    requires Reachable(s) && id < |s.chans| && s.dropped == s.chans[id].base
    ensures s.chans[id].missed == {}
  {
    ReachableInv(s);
    assert Placed(s, id);
    assert |s.chans[id].missed| == 0;
  }

  // If the count did not grow since the subscription, nothing was missed:
  // received and buffered events are all that were published since, each once,
  // and in order when publishes did not overlap.
  lemma UngrownCountMeansComplete(s: State, id: nat)
    requires Reachable(s) && s.readers == {} && id < |s.chans| && s.dropped == s.chans[id].base
    ensures var c := s.chans[id];
            && c.since <= Until(s, id) <= |s.published|
            && (forall i: nat :: i in Got(c) <==> c.since <= i < Until(s, id))
            && (forall j, k :: 0 <= j < k < |Got(c)| ==> Got(c)[j] != Got(c)[k])
            && (!s.overlapped ==>
                Got(c) == seq(Until(s, id) - c.since, k requires 0 <= k < Until(s, id) - c.since => c.since + k))
  {
    ReachableInv(s);
    var c := s.chans[id];
    assert Placed(s, id);
    UngrownCountMissesNothing(s, id);
    assert forall i: nat :: !Owes(s, i, id);
    if !s.overlapped { AscendingRange(Got(c), c.since, Until(s, id)); }
  }

  lemma ChanStays(s: State, a: Step, id: nat)
    requires Enabled(s, a) && id < |s.chans|
    ensures var t := Next(s, a);
            && |s.chans| <= |t.chans|
            && t.chans[id].since == s.chans[id].since && t.chans[id].base == s.chans[id].base
            && t.chans[id].cap == s.chans[id].cap
  {
  }

  lemma {:induction false} RunStays(s: State, steps: seq<Step>, id: nat)
    requires Reachable(s) && IsRun(s, steps) && id < |s.chans|
    ensures var t := End(s, steps);
            && Reachable(t) && |s.chans| <= |t.chans|
            && t.chans[id].since == s.chans[id].since && t.chans[id].base == s.chans[id].base
            && t.chans[id].cap == s.chans[id].cap
    decreases |steps|
  {
    if steps == [] {
    } else {
      ReachableNext(s, steps[0]);
      ChanStays(s, steps[0], id);
      RunStays(Next(s, steps[0]), steps[1..], id);
    }
  }

  // The same of a subscription and whatever runs after it: with a count that
  // is what it was before subscribing, the subscriber has, received or waiting,
  // every event published since, each once, and in order when no two publishes
  // overlapped. Its capacity is what it asked for, and one at least.
  lemma UngrownSinceSubscribing(s: State, buffer: int, steps: seq<Step>)
    requires Reachable(s) && Enabled(s, Step.Subscribe(buffer)) && IsRun(Next(s, Step.Subscribe(buffer)), steps)
    ensures var t, id := End(Next(s, Step.Subscribe(buffer)), steps), |s.chans|;
            && id < |t.chans| && t.chans[id].cap == (if buffer < 1 then 1 else buffer)
            && (t.readers == {} && t.dropped == s.dropped && id in t.subs ==>
                  && |s.published| <= |t.published|
                  && (forall i: nat :: i in Got(t.chans[id]) <==> |s.published| <= i < |t.published|)
                  && (forall j, k :: 0 <= j < k < |Got(t.chans[id])| ==> Got(t.chans[id])[j] != Got(t.chans[id])[k])
                  && (!t.overlapped ==> Ascending(Got(t.chans[id]))))
  {
    var s1, id := Next(s, Step.Subscribe(buffer)), |s.chans|;
    ReachableNext(s, Step.Subscribe(buffer));
    RunStays(s1, steps, id);
    var t := End(s1, steps);
    ReachableInv(t);
    if t.readers == {} && t.dropped == s.dropped && id in t.subs { UngrownCountMeansComplete(t, id); }
  }

  // ----- One publish from start to end -----

  // The subscribers with no room for another event.
  ghost function Full(s: State): set<nat> {
    set id | id in s.subs && id < |s.chans| && |s.chans[id].buffer| >= s.chans[id].cap
  }

  // Publish number |s.published| of `s`, with `todo` yet to visit.
  ghost predicate Midway(s: State, e: Event, todo: set<nat>, t: State) {
    && t.subs == s.subs && t.published == s.published + [e] && t.owing == s.owing + [todo]
    && t.readers == {|s.published|} && t.owed == s.owed + |s.subs| && t.overlapped == s.overlapped
    && t.dropped == s.dropped + |Full(s) - todo|
    && |t.chans| == |s.chans|
    && forall id :: 0 <= id < |s.chans| ==>
         t.chans[id] == if id in s.subs && id !in todo then Sent(s.chans[id], |s.published|) else s.chans[id]
  }

  // After it: each subscriber with room has the event at its end, each without
  // is counted, and nothing else changed.
  ghost predicate Published(s: State, e: Event, t: State) {
    t.readers == {} && Midway(s, e, {}, t.(readers := {|s.published|}))
  }

  lemma PublishBegins(s: State, e: Event)
    requires Locked(s) && s.readers == {}
    ensures Midway(s, e, s.subs, Next(s, BeginPublish(e)))
  {
    assert Full(s) - s.subs == {};
  }

  // Any subscriber may be next.
  lemma PublishVisits(s: State, e: Event, todo: set<nat>, t: State, id: nat)
    requires Locked(s) && s.readers == {} && id in todo && todo <= s.subs && Midway(s, e, todo, t)
    ensures Enabled(t, Visit(|s.published|, id))
    ensures Midway(s, e, todo - {id}, Next(t, Visit(|s.published|, id)))
  {
    OneMoreMiss(Full(s), todo, id);
    assert t.owing[|s.published| := todo - {id}] == s.owing + [todo - {id}];
    assert t.chans[id] == s.chans[id];
  }

  lemma OneMoreMiss(full: set<nat>, todo: set<nat>, id: nat)
    requires id in todo
    ensures |full - (todo - {id})| == |full - todo| + if id in full then 1 else 0
  {
    if id in full {
      assert full - (todo - {id}) == (full - todo) + {id};
    } else {
      assert full - (todo - {id}) == full - todo;
    }
  }

  ghost predicate Under(s: State, e: Event, todo: set<nat>, t: State) {
    Inv(s) && s.readers == {} && Midway(s, e, todo, t) && Inv(t)
  }

  lemma UnderBegins(s: State, e: Event, t: State)
    requires Inv(s) && s.readers == {}
    requires t == State(s.chans, s.subs, s.dropped, s.published + [e], s.owing + [s.subs], {|s.published|},
                        s.owed + |s.subs|, s.overlapped)
    ensures Under(s, e, s.subs, t)
  {
    NextKeepsInv(s, BeginPublish(e));
    PublishBegins(s, e);
    assert s.readers + {|s.published|} == {|s.published|};
    assert Next(s, BeginPublish(e)) == t;
  }

  lemma UnderVisits(s: State, e: Event, todo: set<nat>, t: State, id: nat)
    requires Under(s, e, todo, t) && id in todo && todo <= s.subs
    ensures Enabled(t, Visit(|s.published|, id)) && Under(s, e, todo - {id}, Next(t, Visit(|s.published|, id)))
  {
    PublishVisits(s, e, todo, t, id);
    NextKeepsInv(t, Visit(|s.published|, id));
  }

  lemma UnderEnds(s: State, e: Event, t: State, u: State)
    requires Under(s, e, {}, t) && u == t.(readers := {})
    ensures Published(s, e, u) && Inv(u)
  {
    NextKeepsInv(t, EndPublish(|s.published|));
    assert t.readers - {|s.published|} == {};
    assert Next(t, EndPublish(|s.published|)) == u;
  }

  // The bus as one goroutine at a time sees it: no read lock is held between calls.
  class EventBus {
    var chans: seq<Chan>
    var subs: set<nat>
    var dropped: nat
    var published: seq<Event>
    ghost var owing: seq<set<nat>>
    ghost var owed: nat

    ghost function S(): State
      reads this
    {
      State(chans, subs, dropped, published, owing, {}, owed, false)
    }

    constructor ()
      ensures S() == Start()
    {
      chans, subs, dropped := [], {}, 0;
      published, owing, owed := [], [], 0;
    }

    method SubscribeChannel(buffer: int) returns (id: nat)
      requires Inv(S())
      modifies this
      ensures S() == Next(old(S()), Step.Subscribe(buffer)) && Inv(S())
      ensures id == |old(chans)| && id in subs && chans[id].cap >= 1
    {
      NextKeepsInv(S(), Step.Subscribe(buffer));
      id := |chans|;
      chans := chans + [Opened(buffer, |published|, dropped)];
      subs := subs + {id};
    }

    // Any number of calls close the channel once.
    method CancelSubscription(id: nat)
      requires Inv(S()) && id < |chans|
      modifies this
      ensures S() == Next(old(S()), Step.Cancel(id)) && Inv(S())
    {
      NextKeepsInv(S(), Step.Cancel(id));
      if id in subs {
        subs := subs - {id};
        chans := chans[id := chans[id].(closed := true, until := |published|)];
      }
    }

    // The select of one visit: send, or count the miss.
    method TrySend(i: nat, id: nat)
      requires Enabled(S().(readers := {i}), Visit(i, id))
      modifies this
      ensures S().(readers := {i}) == Next(old(S()).(readers := {i}), Visit(i, id))
    {
      if |chans[id].buffer| < chans[id].cap {
        chans := chans[id := chans[id].(buffer := chans[id].buffer + [i])];
      } else {
        chans := chans[id := chans[id].(missed := chans[id].missed + {i})];
        dropped := dropped + 1;
      }
      owing := owing[i := owing[i] - {id}];
    }

    // In whatever order the subscribers are visited, each with room gets the
    // event at its end and each without is counted.
    method Publish(e: Event)
      requires Inv(S())
      modifies this
      ensures Published(old(S()), e, S()) && Inv(S())
    {
      ghost var was := S();
      var i := |published|;
      published, owing, owed := published + [e], owing + [subs], owed + |subs|;
      UnderBegins(was, e, S().(readers := {i}));
      var todo := subs;
      while todo != {}
        invariant todo <= was.subs && i == |was.published| && Under(was, e, todo, S().(readers := {i}))
        decreases todo
      {
        var id :| id in todo;
        UnderVisits(was, e, todo, S().(readers := {i}), id);
        TrySend(i, id);
        todo := todo - {id};
      }
      UnderEnds(was, e, S().(readers := {i}), S());
    }
  }
}
