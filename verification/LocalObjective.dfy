/** How a stored proposal becomes governed work: the approving client
    (cmd/sensei-code/proposal.go), the local objective channel it speaks to
    (internal/control/local.go) and the store of approval receipts
    (internal/ghwebhook/proposal.go). Any number of connections run at once,
    and each end may stop, and lose what is in flight, after any step. */
module LocalObjective {
  import opened Wrappers
  import opened Text

  // ----- The store of proposals and receipts -----

  datatype Proposal = Proposal(objective: string, digest: string)

  // Torn is a receipt whose writer crashed: present, and readable by nobody.
  datatype Receipt =
    | Attempting(digest: string, nonce: string)
    | Submitted(digest: string, nonce: string, task: string, provenance: string)
    | Torn

  datatype Store = Store(proposals: map<int, Proposal>, receipts: map<int, Receipt>)

  // How a write to the store ends: NoSync has changed the file and reports an
  // error all the same.
  datatype Write = Done | NotWritten | NoSync | Crashed

  datatype StoreError = NoProposal | AlreadyAttempted | NoNonce | WriteFailed | NotTheAttempt | IncompleteAcceptance

  predicate Loads(digest: string -> string, s: Store, id: int) {
    && 0 < id && id in s.proposals
    && s.proposals[id].digest != "" && s.proposals[id].digest == digest(s.proposals[id].objective)
  }

  function Begin(digest: string -> string, s: Store, id: int, nonce: string, write: Write):
    (Store, Result<Proposal, StoreError>)
  {
    if TrimSpace(nonce) == "" then (s, Failure(NoNonce))
    else if !Loads(digest, s, id) then (s, Failure(NoProposal))
    else if id in s.receipts then (s, Failure(AlreadyAttempted))
    else
      var attempt := Attempting(s.proposals[id].digest, TrimSpace(nonce));
      match write
      case Done => (s.(receipts := s.receipts[id := attempt]), Success(s.proposals[id]))
      case NotWritten => (s, Failure(WriteFailed))
      case NoSync => (s.(receipts := s.receipts[id := attempt]), Failure(WriteFailed))
      case Crashed => (s.(receipts := s.receipts[id := Torn]), Failure(WriteFailed))
  }

  function Complete(digest: string -> string, s: Store, id: int, nonce: string, task: string, provenance: string,
      write: Write):
    (Store, Result<Receipt, StoreError>)
  {
    if id !in s.receipts || s.receipts[id].Torn? then (s, Failure(NotTheAttempt))
    else if !Loads(digest, s, id) then (s, Failure(NoProposal))
    else if s.receipts[id].digest != s.proposals[id].digest || s.receipts[id].nonce != TrimSpace(nonce) then
        (s, Failure(NotTheAttempt))
    else if !s.receipts[id].Attempting? then (s, Failure(NotTheAttempt))
    else if TrimSpace(task) == "" || TrimSpace(provenance) == "" then (s, Failure(IncompleteAcceptance))
    else
      var done := Submitted(s.receipts[id].digest, s.receipts[id].nonce, TrimSpace(task), TrimSpace(provenance));
      match write
      case Done => (s.(receipts := s.receipts[id := done]), Success(done))
      case NoSync => (s.(receipts := s.receipts[id := done]), Failure(WriteFailed))
      case _ => (s, Failure(WriteFailed))    // replaced by rename: the old receipt stands
  }

  // A grant: a nonce that is not blank, a proposal that checks out, no receipt
  // yet, and a write that is done. Whoever wrote the receipt, it stays; one
  // that is begun records the proposal's digest and the trimmed nonce, or
  // nothing readable when its writer crashed.
  lemma BeginGrants(digest: string -> string, s: Store, id: int, nonce: string, write: Write)
    ensures var (t, r) := Begin(digest, s, id, nonce, write);
            && (r.Success? <==>
                  TrimSpace(nonce) != "" && Loads(digest, s, id) && id !in s.receipts && write == Done)
            && (r.Success? ==> r.value == s.proposals[id] && id in t.receipts && !t.receipts[id].Torn?)
            && (TrimSpace(nonce) == "" || id in s.receipts || write == NotWritten ==> t == s)
            && (TrimSpace(nonce) == "" <==> r == Failure(NoNonce))
            && (r == Failure(AlreadyAttempted) ==> id in s.receipts)
            && (t != s ==>
                  && id !in s.receipts && id in t.receipts && t == s.(receipts := s.receipts[id := t.receipts[id]])
                  && (t.receipts[id] == Torn || IsAttempt(digest, t, id, nonce)))
            && (TrimSpace(nonce) != "" && Loads(digest, s, id) && id !in s.receipts ==>
                  (id !in t.receipts <==> write == NotWritten) && (write == Crashed ==> t.receipts[id] == Torn))
  {
  }

  // The receipt on record is the attempt with this nonce at this proposal.
  predicate IsAttempt(digest: string -> string, s: Store, id: int, nonce: string) {
    && Loads(digest, s, id) && id in s.receipts
    && s.receipts[id] == Attempting(s.proposals[id].digest, TrimSpace(nonce))
  }

  // A completion: of the attempt on record and no other, for an acceptance
  // that carries a task and a provenance, with a write that is done. It records
  // exactly these two, trimmed; anything else but a write whose last step
  // failed leaves the store as it was.
  lemma CompleteIsOfTheAttempt(digest: string -> string, s: Store, id: int, nonce: string, task: string,
      provenance: string, write: Write)
    ensures var (t, r) := Complete(digest, s, id, nonce, task, provenance, write);
            var whole := IsAttempt(digest, s, id, nonce) && TrimSpace(task) != "" && TrimSpace(provenance) != "";
            && (r.Success? <==> whole && write == Done)
            && (r.Success? ==> id in t.receipts && t.receipts[id] == r.value)
            && (if whole && (write == Done || write == NoSync)
                then id in s.proposals
                     && t == s.(receipts := s.receipts[id := Submitted(s.proposals[id].digest, TrimSpace(nonce),
                                                                       TrimSpace(task), TrimSpace(provenance))])
                else t == s)
  {
  }

  // ----- The channel -----

  datatype Peer = Peer(uid: nat, terminal: nat, descendant: bool)

  predicate MayOriginate(p: Peer, self: nat) {
    p.uid == self && !p.descendant && p.terminal != 0
  }

  // What a client puts on the wire. `trailing` is whatever text follows the
  // objective; Broken is a message cut short.
  datatype Message = Hello(protocol: int) | Objective(task: string, trailing: string) | Broken

  // One shape for every answer, absent fields being zero.
  datatype Reply = Reply(error: string, ready: bool, protocol: int, task: string, provenance: string)

  function Refusing(): Reply { Reply("refused", false, 0, "", "") }

  function Readiness(serves: int): Reply { Reply("", true, serves, "", "") }

  function Acceptance(task: string, provenance: string): Reply { Reply("", false, 0, task, provenance) }

  // json.Decoder.More: something follows that does not close an array or an object.
  predicate MoreFollows(trailing: string, rest: seq<Message>) {
    var t := TrimLeft(trailing);
    if t == "" then rest != [] else t[0] != ']' && t[0] != '}'
  }

  // Stranger is any other program at the socket; it may say anything.
  datatype Client = Approver(id: int) | Stranger

  datatype ClientPhase = Dialling | AwaitingReady | Authorized | Clean | Granted | AwaitingAnswer | Accepted | Gone

  datatype ServerPhase = Judging | ReadingHello | ReadingObjective | Finished

  // What happened on a connection, as a log. `Spent` is a receipt in the store.
  datatype Mark =
    | Judged           // the server authorised the peer
    | HelloChecked     // the server accepted the client's protocol
    | ReadyChecked     // the client accepted the server's protocol
    | Prechecked
    | Spent
    | Sent(objective: string)
    | Created(id: string, objective: string)
    | Answered(id: string)
    | Completed

  datatype Conn = Conn(
    client: Client, speaks: int, serves: int, peer: Option<Peer>,
    phase: ClientPhase, server: ServerPhase, used: bool,
    up: seq<Message>, down: seq<Reply>, said: seq<Message>,
    objective: string, nonce: string, task: string, provenance: string,
    log: seq<Mark>)

  function Fresh(client: Client, speaks: int, serves: int, peer: Option<Peer>): Conn {
    Conn(client, speaks, serves, peer, Dialling, Judging, false, [], [], [], "", "", "", "", [])
  }

  // What one end does with its connection, in a single step.
  datatype Move =
    | SayHello
    | ReadReady
    | Precheck(clean: bool)
    | SubmitObjective(objective: string, whole: bool, ok: bool)    // `ok`: the write reported success
    | ReadAnswer
    | Say(m: Message)                           // a stranger speaks
    | Judge
    | ReadHello
    | ReadObjective(decodes: bool, id: string, provenance: string)
    | Lose                                      // the network drops what is in flight
    | ClientStops
    | ServerStops

  function Finish(c: Conn, reply: Reply): Conn {
    c.(server := Finished, down := c.down + [reply])
  }

  function Moved(self: nat, c: Conn, m: Move): Conn {
    match m
    case SayHello =>
      if c.client.Approver? && c.phase == Dialling then
        c.(phase := AwaitingReady, up := c.up + [Hello(c.speaks)], said := c.said + [Hello(c.speaks)])
      else c
    case ReadReady =>
      if c.phase != AwaitingReady || c.down == [] then c
      else
        var r := c.down[0];
        var d := c.(down := c.down[1..]);
        if TrimSpace(r.error) != "" || !r.ready || r.protocol < c.speaks then d.(phase := Gone)
        else d.(phase := Authorized, log := c.log + [ReadyChecked])
    case Precheck(clean) =>
      if c.phase != Authorized then c
      else if clean then c.(phase := Clean, log := c.log + [Prechecked])
      else c.(phase := Gone)
    case SubmitObjective(objective, whole, ok) =>
      if c.phase != Granted || c.used || objective != c.objective then c
      else if TrimSpace(c.objective) == "" then c.(used := true, phase := Gone)
      else if !whole then c.(used := true, phase := Gone, up := c.up + [Broken], said := c.said + [Broken])
      else
        c.(used := true, phase := if ok then AwaitingAnswer else Gone,
           up := c.up + [Objective(c.objective, "")], said := c.said + [Objective(c.objective, "")],
           log := c.log + [Sent(c.objective)])
    case ReadAnswer =>
      if c.phase != AwaitingAnswer || c.down == [] then c
      else
        var r := c.down[0];
        var d := c.(down := c.down[1..]);
        if TrimSpace(r.error) != "" || TrimSpace(r.task) == "" then d.(phase := Gone)
        else d.(phase := Accepted, task := r.task, provenance := r.provenance, log := c.log + [Answered(r.task)])
    case Say(m) =>
      if c.client.Stranger? then c.(up := c.up + [m], said := c.said + [m]) else c
    case Judge =>
      if c.server != Judging then c
      else if c.peer.Some? && MayOriginate(c.peer.value, self) then c.(server := ReadingHello, log := c.log + [Judged])
      else Finish(c, Refusing())
    case ReadHello =>
      if c.server != ReadingHello || c.up == [] then c
      else
        var d := c.(up := c.up[1..]);
        if c.up[0].Hello? && c.up[0].protocol >= c.serves then
          d.(server := ReadingObjective, down := c.down + [Readiness(c.serves)], log := c.log + [HelloChecked])
        else Finish(d, Refusing())
    case ReadObjective(decodes, id, provenance) =>
      if c.server != ReadingObjective || c.up == [] then c
      else
        var d := c.(up := c.up[1..]);
        var m := c.up[0];
        if !decodes || !m.Objective? || MoreFollows(m.trailing, d.up) || TrimSpace(m.task) == "" then
            Finish(d, Refusing())
        else Finish(d.(log := c.log + [Created(id, m.task)]), Acceptance(id, provenance))
    case Lose => c.(up := [], down := [])
    case ClientStops => c.(phase := Gone)
    case ServerStops => c.(server := Finished)
  }

  // ----- The world -----

  // `spender` is history: the connection whose receipt the store holds.
  datatype World = World(store: Store, conns: seq<Conn>, spender: map<int, nat>)

  // The server's user, and the digest that names an objective.
  datatype Setup = Setup(self: nat, digest: string -> string)

  datatype Action =
    | Connect(client: Client, speaks: int, serves: int, peer: Option<Peer>)
    | At(at: nat, move: Move)
    | BeginApproval(at: nat, nonce: string, write: Write)
    | CompleteApproval(at: nat, write: Write)
    | Record(id: int, proposal: Proposal)

  predicate Enabled(u: Setup, w: World, a: Action) {
    match a
    case Connect(client, _, _, _) => client.Approver? ==> Loads(u.digest, w.store, client.id)
    case At(i, _) => i < |w.conns|
    case BeginApproval(i, _, _) => i < |w.conns| && w.conns[i].client.Approver? && w.conns[i].phase == Clean
    case CompleteApproval(i, _) => i < |w.conns| && w.conns[i].client.Approver? && w.conns[i].phase == Accepted
    case Record(id, _) => id !in w.store.proposals    // written exclusively
  }

  function Began(c: Conn, written: bool, r: Result<Proposal, StoreError>, nonce: string): Conn {
    var log := if written then c.log + [Spent] else c.log;
    match r
    case Success(p) => c.(phase := Granted, objective := p.objective, nonce := nonce, log := log)
    case Failure(_) => c.(phase := Gone, log := log)
  }

  predicate Marked(before: Store, after: Store, id: int) {
    && id in before.receipts && !before.receipts[id].Submitted?
    && id in after.receipts && after.receipts[id].Submitted?
  }

  function Closed(c: Conn, written: bool): Conn {
    c.(phase := Gone, log := if written then c.log + [Completed] else c.log)
  }

  function Step(u: Setup, w: World, a: Action): World
    requires Enabled(u, w, a)
  {
    match a
    case Connect(client, speaks, serves, peer) => w.(conns := w.conns + [Fresh(client, speaks, serves, peer)])
    case At(i, m) => w.(conns := w.conns[i := Moved(u.self, w.conns[i], m)])
    case BeginApproval(i, nonce, write) =>
      var c := w.conns[i];
      var (store, r) := Begin(u.digest, w.store, c.client.id, nonce, write);
      var written := c.client.id !in w.store.receipts && c.client.id in store.receipts;
      World(store, w.conns[i := Began(c, written, r, nonce)],
            if written then w.spender[c.client.id := i] else w.spender)
    case CompleteApproval(i, write) =>
      var c := w.conns[i];
      var (store, r) := Complete(u.digest, w.store, c.client.id, c.nonce, c.task, c.provenance, write);
      World(store, w.conns[i := Closed(c, Marked(w.store, store, c.client.id))], w.spender)
    case Record(id, proposal) => w.(store := w.store.(proposals := w.store.proposals[id := proposal]))
  }

  // ----- The one safe order -----

  function Rank(m: Mark): nat {
    match m
    case Judged => 0
    case HelloChecked => 1
    case ReadyChecked => 2
    case Prechecked => 3
    case Spent => 4
    case Sent(_) => 5
    case Created(_, _) => 6
    case Answered(_) => 7
    case Completed => 8
  }

  // An approver's log is always a beginning of the order above; a stranger's
  // holds what the server did for it.
  ghost predicate Ordered(c: Conn) {
    forall k :: 0 <= k < |c.log| ==> Rank(c.log[k]) == if c.client.Approver? || k < 2 then k else k + 4
  }

  function CreatedId(c: Conn): string {
    if |c.log| > 6 && c.log[6].Created? then c.log[6].id else ""
  }

  ghost predicate Said(c: Conn, mark: Mark) {
    exists m :: m in c.said && m.Objective? && mark.Created? && m.task == mark.objective
  }

  // What the log says about the connection.
  ghost predicate Told(self: nat, c: Conn) {
    && (|c.log| > 0 ==> c.peer.Some? && MayOriginate(c.peer.value, self))
    && (c.client.Approver? && |c.log| > 1 ==> c.speaks >= c.serves)
    && (|c.log| > 2 && c.client.Approver? ==> c.serves >= c.speaks)
    && (|c.log| > 5 ==> c.log[5] == Sent(c.objective))
    && (|c.log| > 6 ==> c.log[6] == Created(CreatedId(c), c.objective))
    && (|c.log| > 7 ==> c.log[7] == Answered(CreatedId(c)) && c.task == CreatedId(c) && TrimSpace(c.task) != "")
    && (c.client.Stranger? && |c.log| > 2 ==> |c.log| == 3 && Said(c, c.log[2]))
  }

  // Where each end is.
  ghost predicate Placed(c: Conn) {
    var n := |c.log|;
    && (c.client.Approver? ==>
      match c.phase
      case Dialling | AwaitingReady => n <= 2
      case Authorized => n == 3
      case Clean => n == 4
      case Granted => n == 5
      case AwaitingAnswer => n == 6 || n == 7
      case Accepted => n == 8
      case Gone => n <= 9)
    && (c.client.Stranger? ==> c.phase == Dialling || c.phase == Gone)
    && match c.server
      case Judging => n == 0
      case ReadingHello => n == 1
      case ReadingObjective => 2 <= n <= 6 && (c.client.Stranger? ==> n == 2)
      case Finished => true
  }

  // What is in flight.
  ghost predicate Carried(c: Conn) {
    && (c.client.Approver? && c.server in {Judging, ReadingHello} ==>
          c.down == [] && forall m :: m in c.up ==> m == Hello(c.speaks))
    && (c.client.Approver? && c.phase == Dialling ==> c.up == [])
    && (c.client.Approver? && c.server == ReadingObjective ==>
          forall m :: m in c.up && m.Objective? ==> |c.log| == 6 && m == Objective(c.objective, ""))
    && (forall r :: r in c.down && r.ready ==> r.protocol == c.serves && |c.log| >= 2)
    && (forall r :: r in c.down && TrimSpace(r.task) != "" ==>
          c.client.Stranger? || (|c.log| >= 7 && r.task == CreatedId(c)))
    && (forall m :: m in c.up ==> m in c.said)
    && (forall m :: m in c.said && m.Objective? && c.client.Approver? ==>
        |c.log| > 5 && m == Objective(c.objective, ""))
  }

  ghost predicate ConnInv(self: nat, c: Conn) {
    Ordered(c) && Told(self, c) && Placed(c) && Carried(c)
  }

  lemma SayHelloKeepsConnInv(self: nat, c: Conn, m: Move)
    requires ConnInv(self, c) && m.SayHello?
    ensures ConnInv(self, Moved(self, c, m))
  {
  }

  lemma ReadReadyKeepsConnInv(self: nat, c: Conn, m: Move)
    requires ConnInv(self, c) && m.ReadReady?
    ensures ConnInv(self, Moved(self, c, m))
  {
  }

  lemma PrecheckKeepsConnInv(self: nat, c: Conn, m: Move)
    requires ConnInv(self, c) && m.Precheck?
    ensures ConnInv(self, Moved(self, c, m))
  {
  }

  lemma SendingObjectiveKeepsConnInv(self: nat, c: Conn, phase: ClientPhase)
    requires ConnInv(self, c) && c.phase == Granted && (phase == AwaitingAnswer || phase == Gone)
    ensures var m := Objective(c.objective, "");
            ConnInv(self, c.(used := true, phase := phase, up := c.up + [m], said := c.said + [m],
                             log := c.log + [Sent(c.objective)]))
  {
  }

  lemma BreakingOffKeepsConnInv(self: nat, c: Conn)
    requires ConnInv(self, c) && c.phase == Granted
    ensures ConnInv(self, c.(used := true, phase := Gone))
    ensures ConnInv(self, c.(used := true, phase := Gone, up := c.up + [Broken], said := c.said + [Broken]))
  {
  }

  lemma SubmitObjectiveKeepsConnInv(self: nat, c: Conn, m: Move)
    requires ConnInv(self, c) && m.SubmitObjective?
    ensures ConnInv(self, Moved(self, c, m))
  {
    if c.phase == Granted {
      BreakingOffKeepsConnInv(self, c);
      SendingObjectiveKeepsConnInv(self, c, if m.ok then AwaitingAnswer else Gone);
    }
  }

  lemma AnswerKeepsConnInv(self: nat, c: Conn, rest: seq<Reply>, provenance: string)
    requires ConnInv(self, c) && c.client.Approver? && c.phase == AwaitingAnswer && |c.log| == 7
    requires TrimSpace(CreatedId(c)) != ""
    requires forall r :: r in rest ==> r in c.down
    ensures ConnInv(self,
        c.(down := rest, phase := Accepted, task := CreatedId(c), provenance := provenance,
        log := c.log + [Answered(CreatedId(c))]))
  {
  }

  lemma GivingUpKeepsConnInv(self: nat, c: Conn, rest: seq<Reply>)
    requires ConnInv(self, c) && c.down != [] && forall r :: r in rest ==> r in c.down
    ensures ConnInv(self, c.(down := rest, phase := Gone))
  {
    assert c.down[0] in c.down;
  }

  lemma ReadAnswerKeepsConnInv(self: nat, c: Conn, m: Move)
    requires ConnInv(self, c) && m.ReadAnswer?
    ensures ConnInv(self, Moved(self, c, m))
  {
    if c.phase == AwaitingAnswer && c.down != [] {
      var r, rest := c.down[0], c.down[1..];
      assert r in c.down && forall k :: k in rest ==> k in c.down;
      GivingUpKeepsConnInv(self, c, rest);
      if TrimSpace(r.task) != "" { AnswerKeepsConnInv(self, c, rest, r.provenance); }
    }
  }

  lemma SayKeepsConnInv(self: nat, c: Conn, m: Move)
    requires ConnInv(self, c) && m.Say?
    ensures ConnInv(self, Moved(self, c, m))
  {
  }

  lemma JudgeKeepsConnInv(self: nat, c: Conn, m: Move)
    requires ConnInv(self, c) && m.Judge?
    ensures ConnInv(self, Moved(self, c, m))
  {
  }

  lemma ReadHelloKeepsConnInv(self: nat, c: Conn, m: Move)
    requires ConnInv(self, c) && m.ReadHello?
    ensures ConnInv(self, Moved(self, c, m))
  {
    if c.server == ReadingHello && c.up != [] {
      assert c.up[0] in c.up && forall k :: k in c.up[1..] ==> k in c.up;
    }
  }

  lemma StrangerObjectiveKeepsConnInv(self: nat, c: Conn, m: Move)
    requires ConnInv(self, c) && m.ReadObjective? && c.client.Stranger?
    ensures ConnInv(self, Moved(self, c, m))
  {
    if c.server == ReadingObjective && c.up != [] {
      assert c.up[0] in c.up && forall k :: k in c.up[1..] ==> k in c.up;
    }
  }

  lemma RefusalKeepsConnInv(self: nat, c: Conn, rest: seq<Message>)
    requires ConnInv(self, c) && c.server == ReadingObjective && c.up != [] && forall m :: m in rest ==> m in c.up
    ensures ConnInv(self, Finish(c.(up := rest), Refusing()))
  {
  }

  lemma CreationKeepsConnInv(self: nat, c: Conn, rest: seq<Message>, id: string, provenance: string)
    requires ConnInv(self, c) && c.server == ReadingObjective && forall m :: m in rest ==> m in c.up
    requires c.client.Approver? && |c.log| == 6
    ensures ConnInv(self, Finish(c.(up := rest, log := c.log + [Created(id, c.objective)]), Acceptance(id, provenance)))
  {
  }

  lemma ApproverObjectiveKeepsConnInv(self: nat, c: Conn, m: Move)
    requires ConnInv(self, c) && m.ReadObjective? && c.client.Approver?
    ensures ConnInv(self, Moved(self, c, m))
  {
    if c.server == ReadingObjective && c.up != [] {
      var rest := c.up[1..];
      assert c.up[0] in c.up && forall k :: k in rest ==> k in c.up;
      RefusalKeepsConnInv(self, c, rest);
      if c.up[0].Objective? { CreationKeepsConnInv(self, c, rest, m.id, m.provenance); }
    }
  }

  lemma LoseKeepsConnInv(self: nat, c: Conn, m: Move)
    requires ConnInv(self, c) && m.Lose?
    ensures ConnInv(self, Moved(self, c, m))
  {
  }

  lemma ClientStopsKeepsConnInv(self: nat, c: Conn, m: Move)
    requires ConnInv(self, c) && m.ClientStops?
    ensures ConnInv(self, Moved(self, c, m))
  {
  }

  lemma ServerStopsKeepsConnInv(self: nat, c: Conn, m: Move)
    requires ConnInv(self, c) && m.ServerStops?
    ensures ConnInv(self, Moved(self, c, m))
  {
  }

  lemma MovedKeepsConnInv(self: nat, c: Conn, m: Move)
    requires ConnInv(self, c)
    ensures ConnInv(self, Moved(self, c, m))
  {
    match m
    case SayHello => SayHelloKeepsConnInv(self, c, m);
    case ReadReady => ReadReadyKeepsConnInv(self, c, m);
    case Precheck(_) => PrecheckKeepsConnInv(self, c, m);
    case SubmitObjective(_, _, _) => SubmitObjectiveKeepsConnInv(self, c, m);
    case ReadAnswer => ReadAnswerKeepsConnInv(self, c, m);
    case Say(_) => SayKeepsConnInv(self, c, m);
    case Judge => JudgeKeepsConnInv(self, c, m);
    case ReadHello => ReadHelloKeepsConnInv(self, c, m);
    case ReadObjective(_, _, _) =>
      if c.client.Stranger? {
        StrangerObjectiveKeepsConnInv(self, c, m);
      } else {
        ApproverObjectiveKeepsConnInv(self, c, m);
      }
    case Lose => LoseKeepsConnInv(self, c, m);
    case ClientStops => ClientStopsKeepsConnInv(self, c, m);
    case ServerStops => ServerStopsKeepsConnInv(self, c, m);
  }

  // ----- Every run of the world -----

  ghost predicate Spends(c: Conn, id: int) {
    c.client == Approver(id) && |c.log| > 4
  }

  // The receipt is about the objective this connection was granted.
  ghost predicate Backed(u: Setup, store: Store, c: Conn) {
    && c.client.Approver? && |c.log| > 4
    && c.client.id in store.receipts
    && var id := c.client.id;
       var r := store.receipts[id];
       && (c.phase == Granted || |c.log| > 5 ==>
             && id in store.proposals && c.objective == store.proposals[id].objective
             && !r.Torn? && r.digest == u.digest(c.objective) && r.nonce == TrimSpace(c.nonce))
       && (r.Submitted? ==> |c.log| == 9 && r.task == TrimSpace(c.task))
  }

  ghost predicate Conns(self: nat, conns: seq<Conn>) {
    forall i :: 0 <= i < |conns| ==> ConnInv(self, conns[i])
  }

  // Every receipt has its one spender, and every spender its receipt.
  ghost predicate Accounts(u: Setup, w: World) {
    && w.spender.Keys == w.store.receipts.Keys
    && (forall id :: id in w.spender ==> w.spender[id] < |w.conns| && Spends(w.conns[w.spender[id]], id))
    && (forall i :: 0 <= i < |w.conns| && w.conns[i].client.Approver? && |w.conns[i].log| > 4 ==>
          Backed(u, w.store, w.conns[i]) && w.spender[w.conns[i].client.id] == i)
  }

  // Every approver's proposal still checks out.
  ghost predicate Known(u: Setup, w: World) {
    forall i :: 0 <= i < |w.conns| && w.conns[i].client.Approver? ==> Loads(u.digest, w.store, w.conns[i].client.id)
  }

  ghost predicate Inv(u: Setup, w: World) {
    Conns(u.self, w.conns) && Accounts(u, w) && Known(u, w)
  }

  // A move of one end changes neither what was spent nor the store.
  ghost predicate KeepsBacking(u: Setup, store: Store, c: Conn, d: Conn) {
    && d.client == c.client
    && (c.client.Approver? ==> (|d.log| > 4 <==> |c.log| > 4))
    && (Backed(u, store, c) ==> Backed(u, store, d))
  }

  predicate ByServer(m: Move) { m.Judge? || m.ReadHello? || m.ReadObjective? || m.ServerStops? }

  lemma ServerKeepsBacking(u: Setup, store: Store, c: Conn, m: Move)
    requires ConnInv(u.self, c) && ByServer(m)
    ensures KeepsBacking(u, store, c, Moved(u.self, c, m))
  {
    assert c.up != [] ==> c.up[0] in c.up;
  }

  lemma SubmittingKeepsBacking(u: Setup, store: Store, c: Conn, m: Move)
    requires ConnInv(u.self, c) && m.SubmitObjective?
    ensures KeepsBacking(u, store, c, Moved(u.self, c, m))
  {
  }

  lemma AnsweredKeepsBacking(u: Setup, store: Store, c: Conn, d: Conn)
    requires |c.log| == 7 && |d.log| == 8 && d.client == c.client
    requires d.objective == c.objective && d.nonce == c.nonce
    ensures KeepsBacking(u, store, c, d)
  {
  }

  lemma HearingKeepsBacking(u: Setup, store: Store, c: Conn, m: Move)
    requires ConnInv(u.self, c) && m.ReadAnswer?
    ensures KeepsBacking(u, store, c, Moved(u.self, c, m))
  {
    var d := Moved(u.self, c, m);
    if d.phase == Accepted && c.phase == AwaitingAnswer {
      assert c.down[0] in c.down;
      AnsweredKeepsBacking(u, store, c, d);
    }
  }

  lemma ClientKeepsBacking(u: Setup, store: Store, c: Conn, m: Move)
    requires ConnInv(u.self, c) && !ByServer(m) && !m.SubmitObjective? && !m.ReadAnswer?
    ensures KeepsBacking(u, store, c, Moved(u.self, c, m))
  {
  }

  lemma MovedKeepsBacking(u: Setup, store: Store, c: Conn, m: Move)
    requires ConnInv(u.self, c)
    ensures KeepsBacking(u, store, c, Moved(u.self, c, m))
  {
    if ByServer(m) {
      ServerKeepsBacking(u, store, c, m);
    } else if m.SubmitObjective? {
      SubmittingKeepsBacking(u, store, c, m);
    } else if m.ReadAnswer? {
      HearingKeepsBacking(u, store, c, m);
    } else {
      ClientKeepsBacking(u, store, c, m);
    }
  }

  lemma AtKeepsAccounts(u: Setup, w: World, i: nat, c: Conn)
    requires Accounts(u, w) && i < |w.conns|
    requires c.client == w.conns[i].client
    requires c.client.Approver? ==> (|c.log| > 4 <==> |w.conns[i].log| > 4)
    requires Backed(u, w.store, w.conns[i]) ==> Backed(u, w.store, c)
    ensures Accounts(u, w.(conns := w.conns[i := c]))
  {
  }

  lemma SpendKeepsAccounts(u: Setup, w: World, i: nat, c: Conn, r: Receipt)
    requires Accounts(u, w) && i < |w.conns| && w.conns[i].client.Approver? && |w.conns[i].log| == 4
    requires c.client == w.conns[i].client && c.client.id !in w.store.receipts
    requires Backed(u, w.store.(receipts := w.store.receipts[c.client.id := r]), c)
    ensures Accounts(u, World(w.store.(receipts := w.store.receipts[c.client.id := r]), w.conns[i := c],
        w.spender[c.client.id := i]))
  {
  }

  lemma BeginIs(digest: string -> string, s: Store, id: int, nonce: string, write: Write)
    ensures var (t, r) := Begin(digest, s, id, nonce, write);
            || (t == s && r.Failure?)
            || (&& id !in s.receipts && id in t.receipts && t == s.(receipts := s.receipts[id := t.receipts[id]])
                && !t.receipts[id].Submitted?
                && (r.Success? ==> id in s.proposals && r.value == s.proposals[id] && !t.receipts[id].Torn?
                                   && t.receipts[id].digest == digest(r.value.objective)
                                   && t.receipts[id].nonce == TrimSpace(nonce)))
  {
  }

  lemma BeginKeepsAccounts(u: Setup, w: World, a: Action)
    requires Accounts(u, w) && Enabled(u, w, a) && a.BeginApproval? && |w.conns[a.at].log| == 4
    ensures Accounts(u, Step(u, w, a))
  {
    var c := w.conns[a.at];
    var id := c.client.id;
    var (store, r) := Begin(u.digest, w.store, id, a.nonce, a.write);
    BeginIs(u.digest, w.store, id, a.nonce, a.write);
    if id !in w.store.receipts && id in store.receipts {
      SpendKeepsAccounts(u, w, a.at, Began(c, true, r, a.nonce), store.receipts[id]);
    } else {
      AtKeepsAccounts(u, w, a.at, Began(c, false, r, a.nonce));
    }
  }

  lemma CompleteIs(digest: string -> string, s: Store, id: int, nonce: string, task: string, provenance: string,
      write: Write)
    ensures var (t, r) := Complete(digest, s, id, nonce, task, provenance, write);
            || (t == s && r.Failure?)
            || (&& id in s.receipts && s.receipts[id].Attempting?
                && t == s.(receipts := s.receipts[id := Submitted(s.receipts[id].digest, s.receipts[id].nonce,
                    TrimSpace(task), TrimSpace(provenance))]))
  {
  }

  lemma MarkKeepsAccounts(u: Setup, w: World, i: nat, c: Conn, r: Receipt)
    requires Accounts(u, w) && i < |w.conns| && w.conns[i].client.Approver? && |w.conns[i].log| > 4
    requires c.client == w.conns[i].client && |c.log| > 4
    requires Backed(u, w.store.(receipts := w.store.receipts[c.client.id := r]), c)
    ensures Accounts(u, World(w.store.(receipts := w.store.receipts[c.client.id := r]), w.conns[i := c], w.spender))
  {
  }

  lemma CompleteKeepsAccounts(u: Setup, w: World, a: Action)
    requires Accounts(u, w) && Enabled(u, w, a) && a.CompleteApproval? && |w.conns[a.at].log| == 8
    ensures Accounts(u, Step(u, w, a))
  {
    var c := w.conns[a.at];
    var id := c.client.id;
    var (store, r) := Complete(u.digest, w.store, id, c.nonce, c.task, c.provenance, a.write);
    CompleteIs(u.digest, w.store, id, c.nonce, c.task, c.provenance, a.write);
    if Marked(w.store, store, id) {
      MarkKeepsAccounts(u, w, a.at, Closed(c, true), store.receipts[id]);
    } else {
      AtKeepsAccounts(u, w, a.at, Closed(c, false));
    }
  }

  lemma BeganKeepsConnInv(self: nat, c: Conn, written: bool, r: Result<Proposal, StoreError>, nonce: string)
    requires ConnInv(self, c) && c.client.Approver? && c.phase == Clean && (r.Success? ==> written)
    ensures ConnInv(self, Began(c, written, r, nonce))
  {
  }

  lemma ClosedKeepsConnInv(self: nat, c: Conn, written: bool)
    requires ConnInv(self, c) && c.client.Approver? && c.phase == Accepted
    ensures ConnInv(self, Closed(c, written))
  {
  }

  lemma StepKeepsConns(u: Setup, w: World, a: Action)
    requires Conns(u.self, w.conns) && Enabled(u, w, a)
    ensures Conns(u.self, Step(u, w, a).conns)
  {
    match a
    case Connect(client, speaks, serves, peer) => assert ConnInv(u.self, Fresh(client, speaks, serves, peer));
    case At(i, m) => MovedKeepsConnInv(u.self, w.conns[i], m);
    case BeginApproval(i, nonce, write) =>
      var id := w.conns[i].client.id;
      var (store, r) := Begin(u.digest, w.store, id, nonce, write);
      BeginIs(u.digest, w.store, id, nonce, write);
      BeganKeepsConnInv(u.self, w.conns[i], id !in w.store.receipts && id in store.receipts, r, nonce);
    case CompleteApproval(i, write) =>
      ClosedKeepsConnInv(u.self, w.conns[i], Marked(w.store, Step(u, w, a).store, w.conns[i].client.id));
    case Record(_, _) =>
  }

  lemma PhaseTells(self: nat, c: Conn)
    requires ConnInv(self, c) && c.client.Approver?
    ensures c.phase == Clean ==> |c.log| == 4
    ensures c.phase == Accepted ==> |c.log| == 8
  {
  }

  lemma ConnectKeepsAccounts(u: Setup, w: World, a: Action)
    requires Accounts(u, w) && Enabled(u, w, a) && (a.Connect? || a.Record?)
    ensures Accounts(u, Step(u, w, a))
  {
  }

  lemma StepKeepsAccounts(u: Setup, w: World, a: Action)
    requires Accounts(u, w) && Enabled(u, w, a) && (a.Connect? || a.Record? || ConnInv(u.self, w.conns[a.at]))
    ensures Accounts(u, Step(u, w, a))
  {
    match a
    case Connect(_, _, _, _) => ConnectKeepsAccounts(u, w, a);
    case Record(_, _) => ConnectKeepsAccounts(u, w, a);
    case At(i, m) =>
      MovedKeepsBacking(u, w.store, w.conns[i], m);
      AtKeepsAccounts(u, w, i, Moved(u.self, w.conns[i], m));
    case BeginApproval(i, _, _) =>
      PhaseTells(u.self, w.conns[i]);
      BeginKeepsAccounts(u, w, a);
    case CompleteApproval(i, _) =>
      PhaseTells(u.self, w.conns[i]);
      CompleteKeepsAccounts(u, w, a);
  }

  // No step alters or drops a stored proposal.
  lemma ProposalsStay(u: Setup, w: World, a: Action, id: int)
    requires Enabled(u, w, a) && id in w.store.proposals
    ensures var v := Step(u, w, a).store; id in v.proposals && v.proposals[id] == w.store.proposals[id]
  {
  }

  // Nor who is at a connection; an approver comes with a proposal that checks out.
  lemma ClientsStay(u: Setup, w: World, a: Action, i: nat)
    requires Enabled(u, w, a) && i < |Step(u, w, a).conns|
    ensures var client := Step(u, w, a).conns[i].client;
            if i < |w.conns| then client == w.conns[i].client
            else client.Approver? ==> Loads(u.digest, w.store, client.id)
  {
  }

  lemma StepKeepsKnown(u: Setup, w: World, a: Action)
    requires Known(u, w) && Enabled(u, w, a)
    ensures Known(u, Step(u, w, a))
  {
    var v := Step(u, w, a);
    forall i | 0 <= i < |v.conns| && v.conns[i].client.Approver?
      ensures Loads(u.digest, v.store, v.conns[i].client.id)
    {
      ClientsStay(u, w, a, i);
      ProposalsStay(u, w, a, v.conns[i].client.id);
    }
  }

  lemma StepKeepsInv(u: Setup, w: World, a: Action)
    requires Inv(u, w) && Enabled(u, w, a)
    ensures Inv(u, Step(u, w, a))
  {
    StepKeepsKnown(u, w, a);
    StepKeepsConns(u, w, a);
    StepKeepsAccounts(u, w, a);
  }

  // ----- What every run gives -----

  ghost predicate IsRun(u: Setup, w: World, actions: seq<Action>)
    decreases |actions|
  {
    actions == [] || (Enabled(u, w, actions[0]) && IsRun(u, Step(u, w, actions[0]), actions[1..]))
  }

  ghost function End(u: Setup, w: World, actions: seq<Action>): World
    requires IsRun(u, w, actions)
    decreases |actions|
  {
    if actions == [] then w else End(u, Step(u, w, actions[0]), actions[1..])
  }

  function Start(proposals: map<int, Proposal>): World {
    World(Store(proposals, map[]), [], map[])
  }

  lemma {:induction false} RunKeepsInv(u: Setup, w: World, actions: seq<Action>)
    requires Inv(u, w) && IsRun(u, w, actions)
    ensures Inv(u, End(u, w, actions))
    decreases |actions|
  {
    if actions == [] {
    } else {
      StepKeepsInv(u, w, actions[0]);
      RunKeepsInv(u, Step(u, w, actions[0]), actions[1..]);
    }
  }

  ghost predicate Reachable(u: Setup, w: World) {
    exists proposals, actions :: IsRun(u, Start(proposals), actions) && w == End(u, Start(proposals), actions)
  }

  lemma ReachableInv(u: Setup, w: World)
    requires Reachable(u, w)
    ensures Inv(u, w)
  {
    var proposals, actions :| IsRun(u, Start(proposals), actions) && w == End(u, Start(proposals), actions);
    RunKeepsInv(u, Start(proposals), actions);
  }

  // A token is spent only by one connection, and only after that connection's
  // own peer was authorised, each end accepted the other's protocol (so both
  // speak the same one) and the precheck passed, in this order.
  lemma TokenSpentLast(u: Setup, w: World, id: int)
    requires Reachable(u, w) && id in w.store.receipts
    ensures exists i :: 0 <= i < |w.conns| && SpentBy(u, w.conns[i], id)
                        && forall j :: 0 <= j < |w.conns| && SpentOn(w.conns[j], id) ==> j == i
  {
    ReachableInv(u, w);
    var i := w.spender[id];
    var c := w.conns[i];
    assert ConnInv(u.self, c) && Spends(c, id);
    assert forall k :: 0 <= k < 5 ==> Rank(c.log[k]) == k;
    assert c.log[..5] == [Judged, HelloChecked, ReadyChecked, Prechecked, Spent];
    forall j | 0 <= j < |w.conns| && SpentOn(w.conns[j], id)
      ensures j == i
    {
      var k :| 0 <= k < |w.conns[j].log| && w.conns[j].log[k] == Spent;
      assert ConnInv(u.self, w.conns[j]);
    }
  }

  ghost predicate SpentOn(c: Conn, id: int) {
    c.client == Approver(id) && Spent in c.log
  }

  ghost predicate SpentBy(u: Setup, c: Conn, id: int) {
    && c.client == Approver(id)
    && |c.log| >= 5 && c.log[..5] == [Judged, HelloChecked, ReadyChecked, Prechecked, Spent]
    && c.peer.Some? && MayOriginate(c.peer.value, u.self)
    && c.speaks == c.serves
  }

  // A connection that stopped before the token leaves no receipt behind.
  lemma RefusedBeforeTheTokenSpendsNothing(u: Setup, w: World, id: int)
    requires Reachable(u, w)
    requires forall i :: 0 <= i < |w.conns| && w.conns[i].client == Approver(id) ==> |w.conns[i].log| < 5
    ensures id !in w.store.receipts
  {
    ReachableInv(u, w);
  }

  // Each connection creates at most one task, whose objective is exactly what
  // was said on it: for an approver, the bytes the store holds.
  lemma OneTaskPerConnection(u: Setup, w: World, i: nat, a: nat, b: nat)
    requires Reachable(u, w) && i < |w.conns| && a < |w.conns[i].log| && b < |w.conns[i].log|
    requires w.conns[i].log[a].Created? && w.conns[i].log[b].Created?
    ensures a == b && w.conns[i].peer.Some? && MayOriginate(w.conns[i].peer.value, u.self)
    ensures w.conns[i].client.Stranger? ==> Said(w.conns[i], w.conns[i].log[a])
    ensures w.conns[i].client.Approver? ==>
              var id := w.conns[i].client.id;
              && id in w.store.proposals && w.conns[i].log[a].objective == w.store.proposals[id].objective
              && Sent(w.conns[i].log[a].objective) in w.conns[i].log[..a]
              && id in w.store.receipts && !w.store.receipts[id].Torn?
              && w.store.receipts[id].digest == u.digest(w.conns[i].log[a].objective)
  {
    ReachableInv(u, w);
    var c := w.conns[i];
    assert ConnInv(u.self, c);
    assert Rank(c.log[a]) == 6 && Rank(c.log[b]) == 6;
    if c.client.Approver? {
      assert Backed(u, w.store, c);
      assert c.log[..a][5] == Sent(c.objective);
    }
  }

  // Over the whole history an approved proposal is sent at most once.
  lemma SentAtMostOnce(u: Setup, w: World, i: nat, j: nat, a: nat, b: nat)
    requires Reachable(u, w) && i < |w.conns| && j < |w.conns| && w.conns[i].client == w.conns[j].client
    requires a < |w.conns[i].log| && b < |w.conns[j].log| && w.conns[i].log[a].Sent? && w.conns[j].log[b].Sent?
    ensures i == j && a == b
  {
    ReachableInv(u, w);
    assert ConnInv(u.self, w.conns[i]) && ConnInv(u.self, w.conns[j]);
    assert Rank(w.conns[i].log[a]) == 5 && Rank(w.conns[j].log[b]) == 5;
  }

  // Whatever objective an approving client put on the wire is the stored one,
  // and its token was spent before.
  lemma SendingSpends(u: Setup, w: World, i: nat, m: Message)
    requires Reachable(u, w) && i < |w.conns| && w.conns[i].client.Approver?
    requires m in w.conns[i].said && m.Objective?
    ensures var id := w.conns[i].client.id;
            && id in w.store.proposals && m == Objective(w.store.proposals[id].objective, "")
            && id in w.store.receipts && Sent(m.task) in w.conns[i].log && SpentBy(u, w.conns[i], id)
  {
    ReachableInv(u, w);
    var c := w.conns[i];
    assert ConnInv(u.self, c) && Backed(u, w.store, c);
    assert c.log[5] == Sent(c.objective);
    assert forall k :: 0 <= k < 5 ==> Rank(c.log[k]) == k;
    assert c.log[..5] == [Judged, HelloChecked, ReadyChecked, Prechecked, Spent];
  }

  // A spent proposal is refused: nothing is written, and nothing can be sent
  // on that connection any more.
  lemma SpentIsRefused(u: Setup, w: World, a: Action)
    requires Enabled(u, w, a) && a.BeginApproval? && w.conns[a.at].client.id in w.store.receipts
    ensures var v := Step(u, w, a);
            v.store == w.store && v.conns[a.at] == w.conns[a.at].(phase := Gone)
  {
  }

  // An approver that was told of a task holds the attempt on record: nobody
  // else's action has touched its receipt. With a provenance beside the task
  // and a write that is done its completion succeeds, and records exactly the
  // task, the provenance and the nonce it holds.
  lemma AcceptedCompletes(u: Setup, w: World, i: nat)
    requires Reachable(u, w) && i < |w.conns| && w.conns[i].client.Approver? && w.conns[i].phase == Accepted
    ensures IsAttempt(u.digest, w.store, w.conns[i].client.id, w.conns[i].nonce) && TrimSpace(w.conns[i].task) != ""
    ensures var c := w.conns[i];
            var id := c.client.id;
            TrimSpace(c.provenance) != "" ==>
              var v := Step(u, w, CompleteApproval(i, Done));
              && id in v.store.receipts
              && v.store.receipts[id] == Submitted(w.store.proposals[id].digest, TrimSpace(c.nonce),
                                                   TrimSpace(c.task), TrimSpace(c.provenance))
              && v.conns[i].log == c.log + [Completed]
  {
    ReachableInv(u, w);
    var c := w.conns[i];
    assert ConnInv(u.self, c) && Loads(u.digest, w.store, c.client.id);
    PhaseTells(u.self, c);
    assert Backed(u, w.store, c);
    CompleteIsOfTheAttempt(u.digest, w.store, c.client.id, c.nonce, c.task, c.provenance, Done);
  }

  // A completed receipt names the task the server created for that proposal.
  lemma ReceiptNamesTheTask(u: Setup, w: World, id: int)
    requires Reachable(u, w) && id in w.store.receipts && w.store.receipts[id].Submitted?
    ensures exists i ::
              && 0 <= i < |w.conns| && w.conns[i].client == Approver(id)
              && NamesTask(w.conns[i], w.store.receipts[id])
  {
    ReachableInv(u, w);
    var c := w.conns[w.spender[id]];
    assert ConnInv(u.self, c) && Backed(u, w.store, c);
  }

  ghost predicate NamesTask(c: Conn, r: Receipt) {
    && r.Submitted? && |c.log| > 6 && c.log[6].Created? && r.task == TrimSpace(c.log[6].id)
  }

  // Ends that speak different protocols part before the client is authorised.
  lemma DifferentProtocolsSpendNothing(u: Setup, w: World, i: nat)
    requires Reachable(u, w) && i < |w.conns| && w.conns[i].client.Approver? && w.conns[i].speaks != w.conns[i].serves
    ensures |w.conns[i].log| <= 2
  {
    ReachableInv(u, w);
    assert ConnInv(u.self, w.conns[i]);
  }
}
