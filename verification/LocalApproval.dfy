/** The code at the two ends of the objective channel, statement by statement:
    the server's handler (internal/control/local.go), the authorised connection
    and the approving command (cmd/sensei-code/proposal.go). What the kernel,
    the disk and the network answer are parameters. */
module LocalApproval {
  import opened Wrappers
  import opened Text
  import opened LocalObjective

  const PROTOCOL: int := 1

  // The server's moves on a connection that carries `up`.
  ghost function Served(self: nat, peer: Option<Peer>, up: seq<Message>, decodes: bool, id: string,
      provenance: string): Conn
  {
    var c := Fresh(Stranger, 0, PROTOCOL, peer).(up := up, said := up);
    Moved(self, Moved(self, Moved(self, c, Judge), ReadHello), ReadObjective(decodes, id, provenance))
  }

  function Replies(self: nat, peer: Option<Peer>, hello: Message, accepts: bool, id: string,
      provenance: string): seq<Reply>
  {
    if peer.None? || !MayOriginate(peer.value, self) then [Refusing()]
    else if !hello.Hello? || hello.protocol < PROTOCOL then [Refusing()]
    else [Readiness(PROTOCOL), if accepts then Acceptance(id, provenance) else Refusing()]
  }

  lemma HelloServed(self: nat, peer: Option<Peer>, hello: Message, m: Message, rest: seq<Message>)
    ensures var up := [hello, m] + rest;
            var c := Fresh(Stranger, 0, PROTOCOL, peer).(up := up, said := up);
            var d := Moved(self, Moved(self, c, Judge), ReadHello);
            if peer.Some? && MayOriginate(peer.value, self) && hello.Hello? && hello.protocol >= PROTOCOL
            then d == c.(server := ReadingObjective, up := [m] + rest, down := [Readiness(PROTOCOL)],
                log := [Judged, HelloChecked])
            else d.server == Finished && d.down == [Refusing()] && |d.log| <= 1
  {
    assert ([hello, m] + rest)[1..] == [m] + rest;
  }

  lemma ObjectiveServed(self: nat, c: Conn, m: Message, rest: seq<Message>, decodes: bool, id: string,
      provenance: string)
    requires c.server == ReadingObjective && c.up == [m] + rest
    ensures var d := Moved(self, c, ReadObjective(decodes, id, provenance));
            if decodes && m.Objective? && !MoreFollows(m.trailing, rest) && TrimSpace(m.task) != ""
            then d.down == c.down + [Acceptance(id, provenance)] && d.log == c.log + [Created(id, m.task)]
            else d.down == c.down + [Refusing()] && d.log == c.log
  {
    assert ([m] + rest)[1..] == rest;
  }

  lemma ServedIs(self: nat, peer: Option<Peer>, hello: Message, m: Message, rest: seq<Message>, decodes: bool,
      id: string, provenance: string)
    ensures var c := Served(self, peer, [hello, m] + rest, decodes, id, provenance);
            var accepts := Accepts(self, peer, Some(hello), Some(m), rest, decodes);
            && c.down == Replies(self, peer, hello, accepts, id, provenance)
            && if accepts then c.log == [Judged, HelloChecked, Created(id, m.task)] else |c.log| <= 2
  {
    HelloServed(self, peer, hello, m, rest);
    var up := [hello, m] + rest;
    var c := Fresh(Stranger, 0, PROTOCOL, peer).(up := up, said := up);
    var d := Moved(self, Moved(self, c, Judge), ReadHello);
    if d.server == ReadingObjective { ObjectiveServed(self, d, m, rest, decodes, id, provenance); }
  }

  // A second value follows the objective, or text that closes nothing.
  predicate Trails(trailing: string, rest: seq<Message>) {
    var t := TrimLeft(trailing);
    (t == "" && rest != []) || (t != "" && t[0] !in {'}', ']'})
  }

  // One connection from the server's side. The decoder yields `hello` and then
  // `submission`, or fails where one is missing; `decodes` tells whether the
  // submission is within bounds, `rest` what follows it, and `id` and
  // `provenance` what the engine records.
  method ServeLocalConn(self: nat, peer: Option<Peer>, hello: Option<Message>, submission: Option<Message>,
      rest: seq<Message>, decodes: bool, id: string, provenance: string)
    returns (replies: seq<Reply>, submitted: seq<string>)
    ensures hello.Some? && submission.Some? ==>
              var c := Served(self, peer, [hello.value, submission.value] + rest, decodes, id, provenance);
              replies == c.down && submitted == (if |c.log| == 3 && c.log[2].Created? then [c.log[2].objective] else [])
    ensures submitted == if Accepts(self, peer, hello, submission, rest, decodes) then [submission.value.task] else []
    ensures submitted == [] ==> forall r :: r in replies ==> r.task == ""
    ensures peer.None? || !MayOriginate(peer.value, self) ==> replies == [Refusing()]
    ensures peer.None? || peer.value.uid != self || peer.value.descendant || peer.value.terminal == 0 ==>
              submitted == [] && replies == [Refusing()]
    ensures !decodes || (submission.Some? && submission.value.Objective? && TrimSpace(submission.value.task) == "") ==>
              submitted == []
    ensures submission.Some? && submission.value.Objective? && Trails(submission.value.trailing, rest) ==>
              submitted == []
    ensures && peer.Some? && peer.value.uid == self && !peer.value.descendant && peer.value.terminal != 0
            && hello.Some? && hello.value.Hello? && hello.value.protocol >= 1
            && submission.Some? && submission.value.Objective? && submission.value.trailing == "" && rest == []
            && decodes && TrimSpace(submission.value.task) != "" ==>
              submitted == [submission.value.task] && replies == [Readiness(1), Acceptance(id, provenance)]
  {
    if hello.Some? && submission.Some? {
      ServedIs(self, peer, hello.value, submission.value, rest, decodes, id, provenance);
    }
    if peer.None? || !MayOriginate(peer.value, self) {
      return [Refusing()], [];
    }
    if hello.None? || !hello.value.Hello? || hello.value.protocol < PROTOCOL {
      return [Refusing()], [];
    }
    replies := [Readiness(PROTOCOL)];
    if submission.None? || !decodes || !submission.value.Objective? {
      return replies + [Refusing()], [];
    }
    if MoreFollows(submission.value.trailing, rest) || TrimSpace(submission.value.task) == "" {
      return replies + [Refusing()], [];
    }
    submitted := [submission.value.task];
    replies := replies + [Acceptance(id, provenance)];
  }

  ghost predicate Accepts(self: nat, peer: Option<Peer>, hello: Option<Message>, submission: Option<Message>,
      rest: seq<Message>, decodes: bool)
  {
    && peer.Some? && MayOriginate(peer.value, self)
    && hello.Some? && hello.value.Hello? && hello.value.protocol >= PROTOCOL
    && submission.Some? && submission.value.Objective? && decodes && TrimSpace(submission.value.task) != ""
    && !MoreFollows(submission.value.trailing, rest)
  }

  // The decoder's test for trailing content looks at one character only, so an
  // objective followed by whatever begins with a closing brace or bracket is
  // accepted like one that nothing follows.
  lemma ClosingBracketIsNotTrailing(self: nat, peer: Option<Peer>, hello: Message, task: string, tail: string,
      rest: seq<Message>, decodes: bool)
    ensures Accepts(self, peer, Some(hello), Some(Objective(task, "}" + tail)), rest, decodes)
         == Accepts(self, peer, Some(hello), Some(Objective(task, "]" + tail)), rest, decodes)
         == Accepts(self, peer, Some(hello), Some(Objective(task, "")), [], decodes)
  {
    assert TrimLeft("}" + tail) == "}" + tail && TrimLeft("]" + tail) == "]" + tail;
    assert TrimLeft("") == "";
  }

  // ----- The store's own code -----

  class ProposalStore {
    const digest: string -> string
    var proposals: map<int, Proposal>
    var receipts: map<int, Receipt>

    ghost function S(): Store
      reads this
    {
      Store(proposals, receipts)
    }

    constructor (digest: string -> string, proposals: map<int, Proposal>)
      ensures this.digest == digest && S() == Store(proposals, map[])
    {
      this.digest := digest;
      this.proposals, receipts := proposals, map[];
    }

    method Load(id: int) returns (r: Result<Proposal, StoreError>)
      ensures r.Success? <==> Loads(digest, S(), id)
      ensures r.Success? <==>
                && 0 < id && id in proposals
                && proposals[id].digest != "" && proposals[id].digest == digest(proposals[id].objective)
      ensures r.Success? ==> id in proposals && r.value == proposals[id]
    {
      if id <= 0 || id !in proposals { return Failure(NoProposal); }
      var p := proposals[id];
      if p.digest == "" || p.digest != digest(p.objective) { return Failure(NoProposal); }
      r := Success(p);
    }

    method BeginApproval(id: int, nonce: string, write: Write) returns (r: Result<Proposal, StoreError>)
      modifies this`receipts
      ensures (S(), r) == Begin(digest, old(S()), id, nonce, write)
      ensures r.Success? <==>
                TrimSpace(nonce) != "" && Loads(digest, old(S()), id) && id !in old(receipts) && write == Done
      ensures r.Success? ==> r.value == proposals[id] && IsAttempt(digest, S(), id, nonce)
      ensures TrimSpace(nonce) != "" && Loads(digest, old(S()), id) && write != NotWritten ==> id in receipts
      ensures receipts == old(receipts) || (id !in old(receipts) && receipts.Keys == old(receipts).Keys + {id})
      ensures forall k :: k in old(receipts) ==> k in receipts && receipts[k] == old(receipts)[k]
    {
      var n := TrimSpace(nonce);
      if n == "" { return Failure(NoNonce); }
      r := Load(id);
      if r.Failure? { return Failure(NoProposal); }
      if id in receipts { return Failure(AlreadyAttempted); }
      match write
      case NotWritten =>
        return Failure(WriteFailed);
      case Crashed =>
        receipts := receipts[id := Torn];
        return Failure(WriteFailed);
      case _ =>
        receipts := receipts[id := Attempting(r.value.digest, n)];
        if write.NoSync? { return Failure(WriteFailed); }
    }

    method CompleteApproval(id: int, nonce: string, task: string, provenance: string, write: Write)
      returns (r: Result<Receipt, StoreError>)
      modifies this`receipts
      ensures (S(), r) == Complete(digest, old(S()), id, nonce, task, provenance, write)
      ensures r.Success? ==>
                && id in old(receipts) && old(receipts)[id].Attempting? && old(receipts)[id].nonce == TrimSpace(nonce)
                && id in proposals && old(receipts)[id].digest == proposals[id].digest
                && r.value == Submitted(proposals[id].digest, TrimSpace(nonce), TrimSpace(task), TrimSpace(provenance))
                && receipts == old(receipts)[id := r.value]
      ensures r.Success? <==>
                && IsAttempt(digest, old(S()), id, nonce)
                && TrimSpace(task) != "" && TrimSpace(provenance) != "" && write == Done
      ensures !IsAttempt(digest, old(S()), id, nonce) ==> S() == old(S()) && r.Failure?
    {
      if id !in receipts || receipts[id].Torn? { return Failure(NotTheAttempt); }
      var a := receipts[id];
      var p := Load(id);
      if p.Failure? { return Failure(NoProposal); }
      if a.digest != p.value.digest || a.nonce != TrimSpace(nonce) { return Failure(NotTheAttempt); }
      if !a.Attempting? { return Failure(NotTheAttempt); }
      if TrimSpace(task) == "" || TrimSpace(provenance) == "" { return Failure(IncompleteAcceptance); }
      var done := Submitted(a.digest, a.nonce, TrimSpace(task), TrimSpace(provenance));
      if write.NotWritten? || write.Crashed? { return Failure(WriteFailed); }
      receipts := receipts[id := done];
      if write.NoSync? { return Failure(WriteFailed); }
      r := Success(done);
    }
  }

  // ----- The world a client runs in -----

  // An action of the client that holds connection i.
  predicate ByClient(a: Action, i: nat) {
    match a
    case At(k, m) =>
      k == i && (m.SayHello? || m.ReadReady? || m.Precheck? || m.SubmitObjective? || m.ReadAnswer? || m.Say? ||
          m.ClientStops?)
    case BeginApproval(k, _, _) => k == i
    case CompleteApproval(k, _) => k == i
    case _ => false
  }

  // What the protocol lets that client do next.
  predicate Ready(u: Setup, w: World, a: Action) {
    && Enabled(u, w, a)
    && match a
       case At(i, m) =>
         var c := w.conns[i];
         (match m
          case SayHello => c.phase == Dialling
          case ReadReady => c.phase == AwaitingReady && c.down != []
          case Precheck(_) => c.phase == Authorized
          case SubmitObjective(objective, _, _) =>
            c.phase == Granted && !c.used && objective == c.objective && TrimSpace(objective) != ""
          case ReadAnswer => c.phase == AwaitingAnswer && c.down != []
          case ClientStops => true
          case _ => false)
       case _ => true
  }

  // What only the client itself changes of its connection.
  ghost predicate SameClient(c: Conn, d: Conn) {
    && d.client == c.client && d.speaks == c.speaks && d.phase == c.phase && d.used == c.used
    && d.objective == c.objective && d.nonce == c.nonce && d.task == c.task && d.provenance == c.provenance
  }

  lemma ServerKeepsClient(self: nat, c: Conn, m: Move)
    requires m.Judge? || m.ReadHello? || m.ReadObjective? || m.Lose? || m.ServerStops?
    ensures SameClient(c, Moved(self, c, m))
  {
  }

  lemma StepKeepsOtherClients(u: Setup, w: World, a: Action, i: nat)
    requires Enabled(u, w, a) && !ByClient(a, i) && i < |w.conns|
    ensures |w.conns| <= |Step(u, w, a).conns| && SameClient(w.conns[i], Step(u, w, a).conns[i])
  {
    if a.At? && a.at == i { ServerKeepsClient(u.self, w.conns[i], a.move); }
  }

  // Whatever everybody else does in the meantime.
  lemma {:induction false} OthersKeepClient(u: Setup, w: World, actions: seq<Action>, i: nat)
    requires IsRun(u, w, actions) && i < |w.conns| && forall k :: 0 <= k < |actions| ==> !ByClient(actions[k], i)
    ensures |w.conns| <= |End(u, w, actions).conns| && SameClient(w.conns[i], End(u, w, actions).conns[i])
    decreases |actions|
  {
    if actions == [] {
    } else {
      StepKeepsOtherClients(u, w, actions[0], i);
      assert forall k :: 0 <= k < |actions| - 1 ==> actions[1..][k] == actions[k + 1];
      OthersKeepClient(u, Step(u, w, actions[0]), actions[1..], i);
    }
  }

  lemma {:induction false} RunAppend(u: Setup, w: World, a: seq<Action>, b: seq<Action>)
    requires IsRun(u, w, a) && IsRun(u, End(u, w, a), b)
    ensures IsRun(u, w, a + b) && End(u, w, a + b) == End(u, End(u, w, a), b)
    decreases |a|
  {
    if a == [] {
      assert a + b == b;
    } else {
      assert (a + b)[1..] == a[1..] + b;
      RunAppend(u, Step(u, w, a[0]), a[1..], b);
    }
  }

  // The actions marked as this process's own.
  ghost function Selected(trace: seq<Action>, own: seq<bool>): seq<Action>
    requires |own| == |trace|
  {
    if trace == [] then []
    else
      var n := |trace| - 1;
      Selected(trace[..n], own[..n]) + if own[n] then [trace[n]] else []
  }

  lemma SelectedOne(trace: seq<Action>, own: seq<bool>, a: Action, mine: bool)
    requires |own| == |trace|
    ensures Selected(trace + [a], own + [mine]) == Selected(trace, own) + if mine then [a] else []
  {
    assert (trace + [a])[..|trace|] == trace && (own + [mine])[..|trace|] == own;
  }

  // The state machine, run by this process and by everybody else. `trace` is
  // every action so far, `own` marks those of this process, `mine` lists them,
  // and `heard` is what its reads brought (None when the deadline passed
  // first). Only the methods below write them, one entry for each thing done.
  class Machine {
    const u: Setup
    var w: World
    ghost var trace: seq<Action>
    ghost var own: seq<bool>
    ghost var mine: seq<Action>
    ghost var heard: seq<Option<Reply>>
    ghost const start: World

    ghost predicate Valid()
      reads this
    {
      && start == Start(start.store.proposals) && IsRun(u, start, trace) && w == End(u, start, trace)
      && |own| == |trace| && mine == Selected(trace, own)
    }

    constructor (u: Setup, proposals: map<int, Proposal>)
      ensures this.u == u && w == Start(proposals) && start == w && trace == [] && mine == [] && heard == [] && Valid()
    {
      this.u, w, start := u, Start(proposals), Start(proposals);
      trace, own, mine, heard := [], [], [], [];
    }

    method Do(a: Action)
      requires Valid() && Ready(u, w, a)
      modifies this
      ensures Valid() && w == Step(u, old(w), a)
      ensures trace == old(trace) + [a] && mine == old(mine) + [a] && heard == old(heard)
    {
      RunAppend(u, start, trace, [a]);
      SelectedOne(trace, own, a, true);
      w := Step(u, w, a);
      trace, own, mine := trace + [a], own + [true], mine + [a];
    }

    // What this process and everybody else reach is a state of the world.
    lemma IsReached()
      requires Valid()
      ensures Reachable(u, w)
    {
      assert IsRun(u, Start(start.store.proposals), trace) && w == End(u, Start(start.store.proposals), trace);
    }

    // Any actions of anybody but the client of connection i.
    method Others(i: nat) returns (ghost actions: seq<Action>)
      requires Valid()
      modifies this`w, this`trace, this`own
      ensures Valid() && trace == old(trace) + actions
      ensures IsRun(u, old(w), actions) && w == End(u, old(w), actions)
      ensures forall k :: 0 <= k < |actions| ==> !ByClient(actions[k], i)
    {
      actions := [];
    }

    // The time between two steps of the client of connection i.
    method Pause(i: nat)
      requires Valid() && i < |w.conns|
      modifies this`w, this`trace, this`own
      ensures Valid() && old(trace) <= trace
      ensures i < |w.conns| && SameClient(old(w).conns[i], w.conns[i])
    {
      ghost var before := w;
      ghost var actions := Others(i);
      OthersKeepClient(u, before, actions, i);
    }

    // Read what came back on connection i, unless the deadline passes first.
    method Receive(i: nat) returns (reply: Option<Reply>)
      requires Valid() && i < |w.conns| && (w.conns[i].phase == AwaitingReady || w.conns[i].phase == AwaitingAnswer)
      modifies this
      ensures Valid() && heard == old(heard) + [reply] && old(trace) <= trace
      ensures reply.None? ==> w == old(w) && mine == old(mine)
      ensures reply.Some? ==>
                var a := At(i, if old(w).conns[i].phase == AwaitingReady then ReadReady else ReadAnswer);
                && old(w).conns[i].down != [] && reply.value == old(w).conns[i].down[0]
                && Enabled(u, old(w), a) && w == Step(u, old(w), a) && mine == old(mine) + [a]
    {
      var inTime: bool := *;
      var c := w.conns[i];
      if !inTime || c.down == [] {
        heard := heard + [None];
        return None;
      }
      Do(At(i, if c.phase == AwaitingReady then ReadReady else ReadAnswer));
      heard := heard + [Some(c.down[0])];
      reply := Some(c.down[0]);
    }
  }

  // ----- The client's own code -----

  datatype Rejection =
    | Unreachable | Refused | Unreadable | NotReady | OldServer | Used | Blank | NoTask | Dirty | NoRandomness
    | Stored(error: StoreError)

  datatype Accepted = LocalAccepted(task: string, provenance: string)

  // Neither a refusal nor silence nor an older server is permission.
  predicate Authorizes(reply: Reply) {
    TrimSpace(reply.error) == "" && reply.ready && reply.protocol >= PROTOCOL
  }

  predicate NamesATask(reply: Reply) {
    TrimSpace(reply.error) == "" && TrimSpace(reply.task) != ""
  }

  // What the outside decides for one approval: whether the socket answers,
  // who the kernel says connects, which protocol the server speaks, which
  // writes succeed, what the precheck finds and which nonce is drawn.
  datatype Circumstances = Circumstances(
    dials: bool, serves: int, peer: Option<Peer>, helloSent: bool,
    precheck: Option<bool>, nonce: Option<string>, begin: Write, whole: bool, objectiveSent: bool, complete: Write)

  // The client's state on its connection.
  ghost predicate Holding(w: World, at: nat, id: int, phase: ClientPhase) {
    at < |w.conns| && w.conns[at].client == Approver(id) && w.conns[at].speaks == PROTOCOL && w.conns[at].phase == phase
  }

  // Only an answer that names a task is a success.
  function Accepting(reply: Option<Reply>): (r: Result<Accepted, Rejection>)
    ensures r.Success? <==> reply.Some? && NamesATask(reply.value)
    ensures r.Success? <==> reply.Some? && TrimSpace(reply.value.error) == "" && TrimSpace(reply.value.task) != ""
    ensures r.Success? ==> r.value == LocalAccepted(reply.value.task, reply.value.provenance)
  {
    if reply.None? then Failure(Unreadable)
    else if TrimSpace(reply.value.error) != "" then Failure(Refused)
    else if TrimSpace(reply.value.task) == "" then Failure(NoTask)
    else Success(LocalAccepted(reply.value.task, reply.value.provenance))
  }

  class LocalConnection {
    const machine: Machine
    const at: nat
    var used: bool

    constructor (machine: Machine, at: nat)
      ensures this.machine == machine && this.at == at && !used
    {
      this.machine, this.at, used := machine, at, false;
    }

    // The objective is judged trimmed and sent as it is, once.
    method Submit(id: int, task: string, whole: bool, sent: bool) returns (r: Result<Accepted, Rejection>)
      requires machine.Valid() && Holding(machine.w, at, id, Granted)
      requires machine.w.conns[at].objective == task && (machine.w.conns[at].used ==> used)
      modifies this, machine
      ensures used && machine.Valid() && old(machine.trace) <= machine.trace && at < |machine.w.conns|
      ensures old(used) || TrimSpace(task) == "" ==>
                r == Failure(if old(used) then Used else Blank)
                && machine.mine == old(machine.mine) && machine.heard == old(machine.heard)
      ensures !old(used) && TrimSpace(task) != "" ==>
                Exchanged(machine.mine, machine.heard, old(machine.mine), old(machine.heard), at, task, whole, sent, r)
      ensures r.Success? ==>
                && Holding(machine.w, at, id, ClientPhase.Accepted)
                && machine.w.conns[at].task == r.value.task && machine.w.conns[at].provenance == r.value.provenance
                && machine.w.conns[at].nonce == old(machine.w.conns[at].nonce)
    {
      if used { return Failure(Used); }
      used := true;
      if TrimSpace(task) == "" { return Failure(Blank); }
      r := Exchange(id, task, whole, sent);
    }

    // The write and the read of the one submission.
    method Exchange(id: int, task: string, whole: bool, sent: bool) returns (r: Result<Accepted, Rejection>)
      requires machine.Valid() && Holding(machine.w, at, id, Granted) && TrimSpace(task) != ""
      requires machine.w.conns[at].objective == task && !machine.w.conns[at].used
      modifies machine
      ensures machine.Valid() && old(machine.trace) <= machine.trace && at < |machine.w.conns|
      ensures Exchanged(machine.mine, machine.heard, old(machine.mine), old(machine.heard), at, task, whole, sent, r)
      ensures r.Success? ==>
                && Holding(machine.w, at, id, ClientPhase.Accepted)
                && machine.w.conns[at].task == r.value.task && machine.w.conns[at].provenance == r.value.provenance
                && machine.w.conns[at].nonce == old(machine.w.conns[at].nonce)
    {
      machine.Do(At(at, SubmitObjective(task, whole, sent)));
      if !whole || !sent { return Failure(Unreadable); }
      machine.Pause(at);
      var reply := machine.Receive(at);
      r := Accepting(reply);
    }
  }

  // One submission: the objective goes out, an answer is read unless the
  // write failed, and only an answer that names a task is a success.
  ghost predicate Exchanged(mine: seq<Action>, heard: seq<Option<Reply>>, mine0: seq<Action>,
      heard0: seq<Option<Reply>>, at: nat, task: string, whole: bool, sent: bool, r: Result<Accepted, Rejection>)
  {
    var out := mine0 + [At(at, SubmitObjective(task, whole, sent))];
    if !whole || !sent then r.Failure? && mine == out && heard == heard0
    else
      && |heard| == |heard0| + 1 && heard0 <= heard
      && var reply := heard[|heard0|];
         && mine == (if reply.None? then out else out + [At(at, ReadAnswer)])
         && (r.Success? <==> reply.Some? && NamesATask(reply.value))
         && (r.Success? ==> r.value == LocalAccepted(reply.value.task, reply.value.provenance))
  }

  // ----- The one safe order, as the client's actions -----

  function Nonce(x: Circumstances): string {
    if x.nonce.Some? then x.nonce.value else ""
  }

  function Nth(k: nat, at: nat, id: int, x: Circumstances, objective: string): Action {
    match k
    case 0 => Connect(Approver(id), PROTOCOL, x.serves, x.peer)
    case 1 => At(at, SayHello)
    case 2 => At(at, ReadReady)
    case 3 => At(at, Precheck(x.precheck != Some(false)))
    case 4 => BeginApproval(at, Nonce(x), x.begin)
    case 5 => At(at, SubmitObjective(objective, x.whole, x.objectiveSent))
    case 6 => At(at, ReadAnswer)
    case _ => CompleteApproval(at, x.complete)
  }

  // The first n of them.
  ghost function Script(n: nat, at: nat, id: int, x: Circumstances, objective: string): seq<Action> {
    if n == 0 then [] else Script(n - 1, at, id, x, objective) + [Nth(n - 1, at, id, x, objective)]
  }

  lemma ScriptGrows(mine: seq<Action>, n: nat, at: nat, id: int, x: Circumstances, objective: string)
    ensures mine + Script(n, at, id, x, objective) + [Nth(n, at, id, x, objective)]
              == mine + Script(n + 1, at, id, x, objective)
  {
  }

  // What the objective is matters from the sixth action on.
  lemma {:induction false} ScriptBeforeSending(n: nat, at: nat, id: int, x: Circumstances, a: string, b: string)
    requires n <= 5
    ensures Script(n, at, id, x, a) == Script(n, at, id, x, b)
  {
    if n == 0 {
    } else {
      ScriptBeforeSending(n - 1, at, id, x, a, b);
    }
  }

  // How far dialling got, and what was heard.
  ghost predicate Dialled(n: nat, x: Circumstances, heard: seq<Option<Reply>>, success: bool) {
    match n
    case 0 => !success && !x.dials && heard == []
    case 1 => false
    case 2 => !success && x.dials && heard == if x.helloSent then [None] else []
    case 3 => x.dials && x.helloSent && |heard| == 1 && heard[0].Some? && (success <==> Authorizes(heard[0].value))
    case _ => false
  }

  // The judgement of the first reply.
  method HearReadiness(machine: Machine, at: nat, id: int) returns (r: Result<LocalConnection, Rejection>)
    requires machine.Valid() && Holding(machine.w, at, id, AwaitingReady) && !machine.w.conns[at].used
    modifies machine
    ensures machine.Valid() && old(machine.trace) <= machine.trace && at < |machine.w.conns|
    ensures |machine.heard| == |old(machine.heard)| + 1 && old(machine.heard) <= machine.heard
    ensures var reply := machine.heard[|old(machine.heard)|];
            && machine.mine == old(machine.mine) + (if reply.None? then [] else [At(at, ReadReady)])
            && (r.Success? <==> reply.Some? && Authorizes(reply.value))
            && (r.Success? <==>
                  reply.Some? && TrimSpace(reply.value.error) == "" && reply.value.ready && reply.value.protocol >= 1)
    ensures r.Success? ==>
              && fresh(r.value) && !r.value.used && r.value.machine == machine && r.value.at == at
              && Holding(machine.w, at, id, Authorized) && !machine.w.conns[at].used
  {
    machine.Pause(at);
    var reply := machine.Receive(at);
    if reply.None? { return Failure(Unreadable); }
    if TrimSpace(reply.value.error) != "" { return Failure(Refused); }
    if !reply.value.ready { return Failure(NotReady); }
    if reply.value.protocol < PROTOCOL { return Failure(OldServer); }
    var conn := new LocalConnection(machine, at);
    r := Success(conn);
  }

  method Greet(machine: Machine, id: int, x: Circumstances) returns (at: nat)
    requires machine.Valid() && Loads(machine.u.digest, machine.w.store, id)
    modifies machine
    ensures machine.Valid() && old(machine.trace) <= machine.trace && machine.heard == old(machine.heard)
    ensures at == |old(machine.w.conns)| && machine.mine == old(machine.mine) + Script(2, at, id, x, "")
    ensures Holding(machine.w, at, id, AwaitingReady) && !machine.w.conns[at].used
  {
    at := |machine.w.conns|;
    ghost var mine := machine.mine;
    machine.Do(Connect(Approver(id), PROTOCOL, x.serves, x.peer));
    ScriptGrows(mine, 0, at, id, x, "");
    machine.Do(At(at, SayHello));
    ScriptGrows(mine, 1, at, id, x, "");
  }

  // A connection is handed over exactly when the server said ready, in a
  // protocol this client speaks; otherwise it is closed.
  method DialLocalObjective(machine: Machine, id: int, x: Circumstances)
    returns (r: Result<LocalConnection, Rejection>, ghost n: nat)
    requires machine.Valid() && Loads(machine.u.digest, machine.w.store, id)
    modifies machine
    ensures machine.Valid() && old(machine.trace) <= machine.trace && old(machine.heard) <= machine.heard
    ensures var at := |old(machine.w.conns)|;
            machine.mine == old(machine.mine) + Script(n, at, id, x, "")
                              + if r.Success? || n == 0 then [] else [At(at, ClientStops)]
    ensures Dialled(n, x, machine.heard[|old(machine.heard)|..], r.Success?)
    ensures r.Success? ==>
              && fresh(r.value) && !r.value.used && r.value.machine == machine && r.value.at == |old(machine.w.conns)|
              && Holding(machine.w, r.value.at, id, Authorized) && !machine.w.conns[r.value.at].used
  {
    if !x.dials { return Failure(Unreachable), 0; }
    ghost var mine := machine.mine;
    var at := Greet(machine, id, x);
    n, r := 2, Failure(Unreadable);
    if x.helloSent {
      ghost var heard := machine.heard;
      r := HearReadiness(machine, at, id);
      ScriptGrows(mine, 2, at, id, x, "");
      n := if machine.heard[|heard|].None? then 2 else 3;
    }
    if r.Failure? { machine.Do(At(at, ClientStops)); }
  }

  // ----- The steps of an approval -----

  method CheckCanonical(machine: Machine, at: nat, id: int, clean: bool)
    requires machine.Valid() && Holding(machine.w, at, id, Authorized) && !machine.w.conns[at].used
    modifies machine
    ensures machine.Valid() && old(machine.trace) <= machine.trace && machine.heard == old(machine.heard)
    ensures machine.mine == old(machine.mine) + [At(at, Precheck(clean))] && at < |machine.w.conns|
    ensures clean ==> Holding(machine.w, at, id, Clean) && !machine.w.conns[at].used
  {
    machine.Pause(at);
    machine.Do(At(at, Precheck(clean)));
  }

  // The store grants what Begin says, on the store as it is by then.
  method SpendToken(machine: Machine, at: nat, id: int, nonce: string, write: Write)
    returns (r: Result<Proposal, StoreError>)
    requires machine.Valid() && Holding(machine.w, at, id, ClientPhase.Clean) && !machine.w.conns[at].used
    modifies machine
    ensures machine.Valid() && old(machine.trace) <= machine.trace && machine.heard == old(machine.heard)
    ensures machine.mine == old(machine.mine) + [BeginApproval(at, nonce, write)] && at < |machine.w.conns|
    ensures r.Success? ==>
              && id in machine.w.store.receipts && Loads(machine.u.digest, machine.w.store, id)
              && r.value == machine.w.store.proposals[id]
              && Holding(machine.w, at, id, Granted) && !machine.w.conns[at].used
              && machine.w.conns[at].objective == r.value.objective && machine.w.conns[at].nonce == nonce
    ensures r.Success? ==> write == Done && TrimSpace(nonce) != ""
    ensures r.Failure? ==>
              if TrimSpace(nonce) == "" then r.error == NoNonce
              else r.error == AlreadyAttempted || (r.error == WriteFailed && write != Done)
  {
    machine.Pause(at);
    machine.IsReached();
    ReachableInv(machine.u, machine.w);
    r := Begin(machine.u.digest, machine.w.store, id, nonce, write).1;
    machine.Do(BeginApproval(at, nonce, write));
  }

  // Whether the acceptance is recorded is decided by the write and by what the
  // server answered: the attempt on record is still this one.
  ghost predicate Recorded(x: Circumstances, reply: Reply, r: Result<Receipt, StoreError>) {
    if TrimSpace(reply.provenance) == "" then r == Failure(IncompleteAcceptance)
    else if x.complete != Done then r == Failure(WriteFailed)
    else
      && r.Success? && r.value.Submitted? && r.value.nonce == TrimSpace(Nonce(x))
      && r.value.task == TrimSpace(reply.task) && r.value.provenance == TrimSpace(reply.provenance)
  }

  method RecordAcceptance(machine: Machine, at: nat, id: int, x: Circumstances, accepted: Accepted)
    returns (r: Result<Receipt, StoreError>)
    requires machine.Valid() && Holding(machine.w, at, id, ClientPhase.Accepted)
    requires machine.w.conns[at].nonce == Nonce(x)
    requires machine.w.conns[at].task == accepted.task && machine.w.conns[at].provenance == accepted.provenance
    modifies machine
    ensures machine.Valid() && old(machine.trace) <= machine.trace && machine.heard == old(machine.heard)
    ensures machine.mine == old(machine.mine) + [CompleteApproval(at, x.complete)] && at < |machine.w.conns|
    ensures Recorded(x, Reply("", false, 0, accepted.task, accepted.provenance), r)
    ensures r.Success? ==> IsReceipt(machine.w.store, id, r.value)
  {
    machine.Pause(at);
    machine.IsReached();
    AcceptedCompletes(machine.u, machine.w, at);
    CompleteIsOfTheAttempt(machine.u.digest, machine.w.store, id, Nonce(x), accepted.task, accepted.provenance,
      x.complete);
    r := Complete(machine.u.digest, machine.w.store, id, Nonce(x), accepted.task, accepted.provenance, x.complete).1;
    machine.Do(CompleteApproval(at, x.complete));
  }

  // The store's receipt of a completed approval.
  predicate IsReceipt(s: Store, id: int, r: Receipt) {
    id in s.receipts && s.receipts[id] == r && r.Submitted?
  }

  // Why an approval stopped after its n-th action, given what it heard.
  ghost predicate Stopped(n: nat, x: Circumstances, heard: seq<Option<Reply>>, r: Result<Receipt, Rejection>) {
    match n
    case 0 => r.Failure? && heard == [] && (r.error == Stored(NoProposal) || !x.dials)
    case 1 => false
    case 2 => r.Failure? && heard == if x.helloSent then [None] else []
    case 3 => r.Failure? && |heard| == 1 && heard[0].Some? && !Authorizes(heard[0].value)
    case 4 => Readied(heard) && if x.precheck == Some(false) then r == Failure(Dirty)
        else x.nonce.None? && r == Failure(NoRandomness)
    case 5 => Cleared(x, heard) && |heard| == 1 && r.Failure? &&
        if Grantable(x) then r.error == Blank || r.error == Stored(AlreadyAttempted) else Ungranted(x, r.error)
    case 6 => Granting(x, heard) && r.Failure? &&
        (if x.whole && x.objectiveSent then |heard| == 2 && heard[1].None? else |heard| == 1)
    case 7 => Granting(x, heard) && r.Failure? && |heard| == 2 && heard[1].Some? && !NamesATask(heard[1].value)
    case 8 => Granting(x, heard) && |heard| == 2 && heard[1].Some? && NamesATask(heard[1].value) &&
        exists stored :: Recorded(x, heard[1].value, stored) && r == Reported(stored)
    case _ => false
  }

  ghost predicate Readied(heard: seq<Option<Reply>>) {
    |heard| >= 1 && heard[0].Some? && Authorizes(heard[0].value)
  }

  ghost predicate Cleared(x: Circumstances, heard: seq<Option<Reply>>) {
    Readied(heard) && x.precheck != Some(false) && x.nonce.Some?
  }

  // What this process brings to a grant.
  predicate Grantable(x: Circumstances) {
    TrimSpace(Nonce(x)) != "" && x.begin == Done
  }

  ghost predicate Granting(x: Circumstances, heard: seq<Option<Reply>>) {
    Cleared(x, heard) && Grantable(x)
  }

  // Why the store granted nothing; the proposal itself is never the reason.
  ghost predicate Ungranted(x: Circumstances, error: Rejection) {
    && error.Stored?
    && if TrimSpace(Nonce(x)) == "" then error.error == NoNonce
       else error.error == AlreadyAttempted || (error.error == WriteFailed && x.begin != Done)
  }

  function Reported(stored: Result<Receipt, StoreError>): Result<Receipt, Rejection> {
    if stored.Success? then Success(stored.value) else Failure(Stored(stored.error))
  }

  // From a spent token on: the stored objective goes out, and an acceptance
  // is recorded.
  method SubmitApproved(conn: LocalConnection, id: int, p: Proposal, x: Circumstances)
    returns (r: Result<Receipt, Rejection>, ghost n: nat)
    requires conn.machine.Valid() && Holding(conn.machine.w, conn.at, id, Granted) && !conn.used
    requires var c := conn.machine.w.conns[conn.at]; !c.used && c.objective == p.objective && c.nonce == Nonce(x)
    modifies conn, conn.machine
    ensures var machine := conn.machine;
            && machine.Valid() && old(machine.trace) <= machine.trace && old(machine.heard) <= machine.heard
            && machine.mine == old(machine.mine) + Rest(n, conn.at, id, x, p.objective)
            && Delivered(n, x, machine.heard[|old(machine.heard)|..], r)
            && conn.at < |machine.w.conns|
            && (r.Success? ==> IsReceipt(machine.w.store, id, r.value))
  {
    var machine := conn.machine;
    ghost var heard := machine.heard;
    RestIs(machine.mine, conn.at, id, x, p.objective);
    var accepted := conn.Submit(id, p.objective, x.whole, x.objectiveSent);
    n := if TrimSpace(p.objective) == "" then 0
         else if |machine.heard| > |heard| && machine.heard[|heard|].Some? then 2 else 1;
    if accepted.Failure? { return Failure(accepted.error), n; }
    var receipt := RecordAcceptance(machine, conn.at, id, x, accepted.value);
    n := 3;
    assert Recorded(x, machine.heard[|heard|].value, receipt);
    r := Reported(receipt);
  }

  // The actions after the token is spent.
  ghost function Rest(n: nat, at: nat, id: int, x: Circumstances, objective: string): seq<Action> {
    if n == 0 then [] else Rest(n - 1, at, id, x, objective) + [Nth(n + 4, at, id, x, objective)]
  }

  lemma RestIs(mine: seq<Action>, at: nat, id: int, x: Circumstances, objective: string)
    ensures mine + Rest(0, at, id, x, objective) == mine
    ensures mine + Rest(1, at, id, x, objective) == mine +
        [At(at, SubmitObjective(objective, x.whole, x.objectiveSent))]
    ensures mine + Rest(2, at, id, x, objective) == mine + Rest(1, at, id, x, objective) + [At(at, ReadAnswer)]
    ensures mine + Rest(3, at, id, x, objective) == mine + Rest(2, at, id, x, objective) +
        [CompleteApproval(at, x.complete)]
  {
    assert Nth(5, at, id, x, objective) == At(at, SubmitObjective(objective, x.whole, x.objectiveSent));
    assert Nth(6, at, id, x, objective) == At(at, ReadAnswer);
    assert Nth(7, at, id, x, objective) == CompleteApproval(at, x.complete);
    assert Rest(1, at, id, x, objective) == Rest(0, at, id, x, objective) + [Nth(5, at, id, x, objective)];
    assert Rest(2, at, id, x, objective) == Rest(1, at, id, x, objective) + [Nth(6, at, id, x, objective)];
    assert Rest(3, at, id, x, objective) == Rest(2, at, id, x, objective) + [Nth(7, at, id, x, objective)];
  }

  ghost predicate Delivered(n: nat, x: Circumstances, heard: seq<Option<Reply>>, r: Result<Receipt, Rejection>) {
    match n
    case 0 => r == Failure(Blank) && heard == []
    case 1 => r.Failure? && if x.whole && x.objectiveSent then heard == [None] else heard == []
    case 2 => r.Failure? && |heard| == 1 && heard[0].Some? && !NamesATask(heard[0].value)
    case 3 => |heard| == 1 && heard[0].Some? && NamesATask(heard[0].value) &&
        exists stored :: Recorded(x, heard[0].value, stored) && r == Reported(stored)
    case _ => false
  }

  lemma {:induction false} ScriptThenRest(n: nat, at: nat, id: int, x: Circumstances, objective: string)
    ensures Script(5, at, id, x, objective) + Rest(n, at, id, x, objective) == Script(5 + n, at, id, x, objective)
  {
    if n == 0 {
    } else {
      ScriptThenRest(n - 1, at, id, x, objective);
      assert Nth(5 + n - 1, at, id, x, objective) == Nth(n + 4, at, id, x, objective);
    }
  }

  // What was done up to the token and then after it is one beginning of the order.
  lemma WholeScript(k: nat, mine: seq<Action>, done: seq<Action>, at: nat, id: int, x: Circumstances, objective: string)
    requires done == mine + Script(5, at, id, x, "") + Rest(k, at, id, x, objective)
    ensures done == mine + Script(5 + k, at, id, x, objective)
  {
    ScriptBeforeSending(5, at, id, x, "", objective);
    ScriptThenRest(k, at, id, x, objective);
  }

  lemma DeliveredIsStopped(n: nat, x: Circumstances, heard: seq<Option<Reply>>, first: seq<Option<Reply>>,
      last: seq<Option<Reply>>, r: Result<Receipt, Rejection>)
    requires |first| == |heard| + 1 && heard <= first <= last
    requires Delivered(n, x, last[|first|..], r) && Granting(x, first[|heard|..])
    ensures heard <= last && Stopped(5 + n, x, last[|heard|..], r)
  {
    assert last[|heard|..] == first[|heard|..] + last[|first|..];
  }

  // Between the handshake and the objective: the precheck, the nonce and the
  // token, in this order. `mine` is what this process had done before it dialled.
  method ObtainGrant(conn: LocalConnection, id: int, x: Circumstances, ghost mine: seq<Action>)
    returns (r: Result<Proposal, Rejection>, ghost n: nat)
    requires conn.machine.Valid() && Holding(conn.machine.w, conn.at, id, Authorized)
    requires !conn.machine.w.conns[conn.at].used && conn.machine.mine == mine + Script(3, conn.at, id, x, "")
    modifies conn.machine
    ensures conn.machine.Valid() && old(conn.machine.trace) <= conn.machine.trace
    ensures conn.machine.heard == old(conn.machine.heard) && conn.at < |conn.machine.w.conns|
    ensures conn.machine.mine == mine + Script(n, conn.at, id, x, "")
    ensures if x.precheck == Some(false) then n == 4 && r == Failure(Dirty)
            else if x.nonce.None? then n == 4 && r == Failure(NoRandomness)
            else n == 5 && if r.Failure? then Ungranted(x, r.error) else Grantable(x)
    ensures r.Success? ==>
              && Holding(conn.machine.w, conn.at, id, Granted)
              && var c := conn.machine.w.conns[conn.at];
                 !c.used && c.objective == r.value.objective && c.nonce == Nonce(x)
  {
    n := 4;
    CheckCanonical(conn.machine, conn.at, id, x.precheck != Some(false));
    ScriptGrows(mine, 3, conn.at, id, x, "");
    if x.precheck == Some(false) { return Failure(Dirty), n; }
    if x.nonce.None? { return Failure(NoRandomness), n; }
    n := 5;
    var granted := SpendToken(conn.machine, conn.at, id, x.nonce.value, x.begin);
    ScriptGrows(mine, 4, conn.at, id, x, "");
    if granted.Failure? { return Failure(Stored(granted.error)), n; }
    r := Success(granted.value);
  }

  lemma UngrantedIsStopped(n: nat, x: Circumstances, heard: seq<Option<Reply>>, r: Result<Receipt, Rejection>)
    requires r.Failure? && |heard| == 1 && Readied(heard)
    requires if x.precheck == Some(false) then n == 4 && r.error == Dirty
             else if x.nonce.None? then n == 4 && r.error == NoRandomness
             else n == 5 && Ungranted(x, r.error)
    ensures Stopped(n, x, heard, r)
  {
  }

  // After the handshake. `heard` is what this process had heard before it dialled.
  method ApproveOn(conn: LocalConnection, id: int, x: Circumstances, ghost mine: seq<Action>,
      ghost heard: seq<Option<Reply>>)
    returns (r: Result<Receipt, Rejection>, ghost n: nat, ghost objective: string)
    requires conn.machine.Valid() && Holding(conn.machine.w, conn.at, id, Authorized)
    requires !conn.used && !conn.machine.w.conns[conn.at].used
    requires conn.machine.mine == mine + Script(3, conn.at, id, x, "")
    requires |conn.machine.heard| == |heard| + 1 && heard <= conn.machine.heard &&
        Readied(conn.machine.heard[|heard|..])
    modifies conn, conn.machine
    ensures conn.machine.Valid() && old(conn.machine.trace) <= conn.machine.trace && heard <= conn.machine.heard
    ensures conn.at < |conn.machine.w.conns|
    ensures n > 3 && conn.machine.mine == mine + Script(n, conn.at, id, x, objective)
    ensures Stopped(n, x, conn.machine.heard[|heard|..], r)
    ensures r.Success? ==> IsReceipt(conn.machine.w.store, id, r.value)
  {
    objective := "";
    var granted;
    granted, n := ObtainGrant(conn, id, x, mine);
    ghost var first := conn.machine.heard;
    if granted.Failure? {
      r := Failure(granted.error);
      UngrantedIsStopped(n, x, first[|heard|..], r);
    } else {
      objective := granted.value.objective;
      ghost var k;
      r, k := SubmitApproved(conn, id, granted.value, x);
      n := 5 + k;
      WholeScript(k, mine, conn.machine.mine, conn.at, id, x, objective);
      DeliveredIsStopped(k, x, heard, first, conn.machine.heard, r);
    }
  }

  // What this process does is a beginning of the one safe order on one
  // connection, which it then closes; it stops early only for a reason. In
  // between, anybody may do anything.
  method ApproveObjectiveProposal(machine: Machine, id: int, x: Circumstances)
    returns (r: Result<Receipt, Rejection>, ghost n: nat, ghost objective: string)
    requires machine.Valid()
    modifies machine
    ensures machine.Valid() && old(machine.trace) <= machine.trace && old(machine.heard) <= machine.heard
    ensures var at := |old(machine.w.conns)|;
            machine.mine == old(machine.mine) + Script(n, at, id, x, objective)
                              + if n == 0 then [] else [At(at, ClientStops)]
    ensures Stopped(n, x, machine.heard[|old(machine.heard)|..], r)
    ensures r.Success? ==> IsReceipt(machine.w.store, id, r.value)
  {
    n, objective := 0, "";
    if !Loads(machine.u.digest, machine.w.store, id) { return Failure(Stored(NoProposal)), n, objective; }
    ghost var mine, heard := machine.mine, machine.heard;
    var dialled;
    dialled, n := DialLocalObjective(machine, id, x);
    if dialled.Failure? { return Failure(dialled.error), n, objective; }
    r, n, objective := ApproveOn(dialled.value, id, x, mine, heard);
    machine.Do(At(dialled.value.at, ClientStops));
  }

  // What the machine reaches is a run of the world, so what holds of every
  // reachable world holds after any approvals.
  lemma MachineIsReachable(machine: Machine)
    requires machine.Valid()
    ensures Reachable(machine.u, machine.w)
  {
    machine.IsReached();
  }
}
