/** One conversation and what one listing of it says about every request on it
    (internal/answerer/mailbox.go, and recognise in internal/answerer/answerer.go).
    The bridge's parsers, renderers and answer predicates are any functions. */
module Mailbox {
  import opened Wrappers
  import opened Text

  datatype Kind = Architecture | Review

  datatype Comment = Comment(id: int, body: string, authorId: int)

  datatype CanonicalRequest = CanonicalRequest(id: string, taskId: string, mailbox: string)

  datatype Bridge = Bridge(
    architectureRequest: string -> Option<CanonicalRequest>,
    reviewRequest: string -> Option<CanonicalRequest>,
    architectureReply: (string, string) -> Option<string>,
    reviewReply: (string, string) -> Option<string>,
    architectureAnswers: (string, string) -> bool,
    reviewAnswers: (string, string) -> bool,
    withdrawal: string -> Option<string>)

  datatype Config = Config(responder: int, requester: int, mailbox: string, bridge: Bridge)

  datatype Request = Request(kind: Kind, id: string, taskId: string, mailbox: string, comment: Comment)

  // A body both parsers claim is not one request.
  function Recognise(b: Bridge, c: Comment): Option<Request> {
    var arch, review := b.architectureRequest(c.body), b.reviewRequest(c.body);
    if arch.Some? == review.Some? then None
    else
      var (kind, q) := if arch.Some? then (Architecture, arch.value) else (Review, review.value);
      if Blank(q.id) || Blank(q.taskId) then None else Some(Request(kind, q.id, q.taskId, q.mailbox, c))
  }

  predicate Answers(b: Bridge, r: Request, reply: string) {
    if r.kind.Review? then b.reviewAnswers(r.comment.body, reply) else b.architectureAnswers(r.comment.body, reply)
  }

  // ----- What a listing says -----

  // A request of the requester, addressed here.
  function Standing(cfg: Config, c: Comment): Option<Request> {
    if c.authorId != cfg.requester || cfg.bridge.withdrawal(c.body).Some? then None
    else
      match Recognise(cfg.bridge, c)
      case None => None
      case Some(r) => if r.mailbox == cfg.mailbox then Some(r) else None
  }

  predicate Misrouted(cfg: Config, c: Comment) {
    && c.authorId == cfg.requester && cfg.bridge.withdrawal(c.body).None?
    && Recognise(cfg.bridge, c).Some? && Recognise(cfg.bridge, c).value.mailbox != cfg.mailbox
  }

  ghost predicate Present(cfg: Config, comments: seq<Comment>, r: Request) {
    exists c :: c in comments && Standing(cfg, c).Some? && c.id == r.comment.id && c.body == r.comment.body
                && Standing(cfg, c).value.id == r.id && Standing(cfg, c).value.kind == r.kind
  }

  ghost predicate Answered(cfg: Config, comments: seq<Comment>, r: Request) {
    exists c :: c in comments && c.authorId == cfg.responder && Answers(cfg.bridge, r, c.body)
  }

  ghost predicate Withdrawn(cfg: Config, comments: seq<Comment>, id: string) {
    exists c :: c in comments && c.authorId == cfg.requester && cfg.bridge.withdrawal(c.body) == Some(id)
  }

  // The last request posted for the task is the one named `id`.
  ghost predicate LastForTask(cfg: Config, comments: seq<Comment>, task: string, id: string) {
    exists i :: 0 <= i < |comments| && IsRequestFor(cfg, comments[i], task) && Standing(cfg, comments[i]).value.id == id
                && forall j :: i < j < |comments| ==> !IsRequestFor(cfg, comments[j], task)
  }

  predicate IsRequestFor(cfg: Config, c: Comment, task: string) {
    Standing(cfg, c).Some? && Standing(cfg, c).value.taskId == task
  }

  // Still owed an answer.
  ghost predicate Live(cfg: Config, comments: seq<Comment>, r: Request) {
    && Present(cfg, comments, r)
    && !Answered(cfg, comments, r)
    && !Withdrawn(cfg, comments, r.id)
    && LastForTask(cfg, comments, r.taskId, r.id)
  }

  // ----- The same, of the comments themselves -----

  // The requester asks `q`, for the one role whose parser accepts the body.
  ghost predicate Asks(cfg: Config, c: Comment, kind: Kind, q: CanonicalRequest) {
    var arch, review := cfg.bridge.architectureRequest(c.body), cfg.bridge.reviewRequest(c.body);
    && c.authorId == cfg.requester && cfg.bridge.withdrawal(c.body) == None
    && TrimSpace(q.id) != "" && TrimSpace(q.taskId) != ""
    && match kind
       case Architecture => arch == Some(q) && review == None
       case Review => review == Some(q) && arch == None
  }

  ghost predicate AsksHere(cfg: Config, c: Comment, task: string, id: string) {
    exists kind, q :: Asks(cfg, c, kind, q) && q.mailbox == cfg.mailbox && q.taskId == task && q.id == id
  }

  ghost predicate AsksFor(cfg: Config, c: Comment, task: string) {
    exists id :: AsksHere(cfg, c, task, id)
  }

  lemma StandingAsks(cfg: Config, c: Comment, kind: Kind, q: CanonicalRequest)
    ensures Asks(cfg, c, kind, q) && q.mailbox == cfg.mailbox <==>
              Standing(cfg, c) == Some(Request(kind, q.id, q.taskId, q.mailbox, c))
  {
  }

  lemma StandingAsksSome(cfg: Config, c: Comment)
    requires Standing(cfg, c).Some?
    ensures var r := Standing(cfg, c).value;
            && r.comment == c && r.mailbox == cfg.mailbox
            && Asks(cfg, c, r.kind, CanonicalRequest(r.id, r.taskId, r.mailbox))
  {
  }

  // A comment is reported as misrouted exactly when it asks for another mailbox.
  lemma MisroutedIs(cfg: Config, c: Comment)
    ensures Misrouted(cfg, c) <==> exists kind, q :: Asks(cfg, c, kind, q) && q.mailbox != cfg.mailbox
  {
    if Misrouted(cfg, c) {
      var r := Recognise(cfg.bridge, c).value;
      assert Asks(cfg, c, r.kind, CanonicalRequest(r.id, r.taskId, r.mailbox));
    }
  }

  lemma IsRequestForIs(cfg: Config, c: Comment, task: string, id: string)
    ensures IsRequestFor(cfg, c, task) && Standing(cfg, c).value.id == id <==> AsksHere(cfg, c, task, id)
    ensures IsRequestFor(cfg, c, task) <==> AsksFor(cfg, c, task)
  {
    if IsRequestFor(cfg, c, task) {
      StandingAsksSome(cfg, c);
      var r := Standing(cfg, c).value;
      assert Asks(cfg, c, r.kind, CanonicalRequest(r.id, r.taskId, r.mailbox));
      assert AsksHere(cfg, c, task, r.id);
    }
    if other :| AsksHere(cfg, c, task, other) {
      var kind, q :| Asks(cfg, c, kind, q) && q.mailbox == cfg.mailbox && q.taskId == task && q.id == other;
      StandingAsks(cfg, c, kind, q);
    }
  }

  // The same comment still asks it, in the same bytes.
  ghost predicate StillAsked(cfg: Config, comments: seq<Comment>, r: Request) {
    exists c, task :: c in comments && c.id == r.comment.id && c.body == r.comment.body
                      && AsksAs(cfg, c, r.kind, r.id, task)
  }

  ghost predicate AsksAs(cfg: Config, c: Comment, kind: Kind, id: string, task: string) {
    Asks(cfg, c, kind, CanonicalRequest(id, task, cfg.mailbox))
  }

  // No comment of the responder answers it.
  ghost predicate Unanswered(cfg: Config, comments: seq<Comment>, r: Request) {
    forall c :: c in comments && c.authorId == cfg.responder ==>
      match r.kind
      case Architecture => !cfg.bridge.architectureAnswers(r.comment.body, c.body)
      case Review => !cfg.bridge.reviewAnswers(r.comment.body, c.body)
  }

  // No later request for its task here: the last one is this one.
  ghost predicate NotSuperseded(cfg: Config, comments: seq<Comment>, task: string, id: string) {
    exists i :: 0 <= i < |comments| && AsksHere(cfg, comments[i], task, id) && NoneAsks(cfg, comments[i + 1..], task)
  }

  ghost predicate NoneAsks(cfg: Config, comments: seq<Comment>, task: string) {
    forall c :: c in comments ==> !AsksFor(cfg, c, task)
  }

  lemma StillAskedIs(cfg: Config, comments: seq<Comment>, r: Request)
    ensures Present(cfg, comments, r) <==> StillAsked(cfg, comments, r)
  {
    if Present(cfg, comments, r) {
      var c :| c in comments && Standing(cfg, c).Some? && c.id == r.comment.id && c.body == r.comment.body
               && Standing(cfg, c).value.id == r.id && Standing(cfg, c).value.kind == r.kind;
      StandingAsksSome(cfg, c);
      assert AsksAs(cfg, c, r.kind, r.id, Standing(cfg, c).value.taskId);
    }
    if StillAsked(cfg, comments, r) {
      var c, task :| c in comments && c.id == r.comment.id && c.body == r.comment.body
                     && AsksAs(cfg, c, r.kind, r.id, task);
      StandingAsks(cfg, c, r.kind, CanonicalRequest(r.id, task, cfg.mailbox));
    }
  }

  lemma NoneAsksIs(cfg: Config, comments: seq<Comment>, i: nat, task: string)
    requires i < |comments|
    ensures NoneAsks(cfg, comments[i + 1..], task) <==>
              forall j :: i < j < |comments| ==> !IsRequestFor(cfg, comments[j], task)
  {
    var rest := comments[i + 1..];
    if NoneAsks(cfg, rest, task) {
      forall j | i < j < |comments| ensures !IsRequestFor(cfg, comments[j], task) {
        assert rest[j - i - 1] in rest;
        IsRequestForIs(cfg, comments[j], task, "");
      }
    } else {
      var c :| c in rest && AsksFor(cfg, c, task);
      var j :| 0 <= j < |rest| && rest[j] == c;
      IsRequestForIs(cfg, comments[j + i + 1], task, "");
    }
  }

  lemma NotSupersededIs(cfg: Config, comments: seq<Comment>, task: string, id: string)
    ensures LastForTask(cfg, comments, task, id) <==> NotSuperseded(cfg, comments, task, id)
  {
    forall i: nat | i < |comments|
      ensures (IsRequestFor(cfg, comments[i], task) && Standing(cfg, comments[i]).value.id == id
               <==> AsksHere(cfg, comments[i], task, id))
      ensures NoneAsks(cfg, comments[i + 1..], task) <==>
                forall j :: i < j < |comments| ==> !IsRequestFor(cfg, comments[j], task)
    {
      IsRequestForIs(cfg, comments[i], task, id);
      NoneAsksIs(cfg, comments, i, task);
    }
  }

  // Live means: the requester's own comment still asks it in the same bytes,
  // the responder has not answered it, the requester has not withdrawn it, and
  // it is the last thing asked for its task.
  lemma LiveIs(cfg: Config, comments: seq<Comment>, r: Request)
    ensures Live(cfg, comments, r) <==>
              && StillAsked(cfg, comments, r) && Unanswered(cfg, comments, r)
              && (forall c :: c in comments && c.authorId == cfg.requester ==>
                    cfg.bridge.withdrawal(c.body) != Some(r.id))
              && NotSuperseded(cfg, comments, r.taskId, r.id)
  {
    StillAskedIs(cfg, comments, r);
    NotSupersededIs(cfg, comments, r.taskId, r.id);
    assert Answered(cfg, comments, r) <==> !Unanswered(cfg, comments, r) by {
      if Answered(cfg, comments, r) {
        var c :| c in comments && c.authorId == cfg.responder && Answers(cfg.bridge, r, c.body);
      }
    }
  }

  // ----- readState -----

  datatype State = State(
    requests: seq<Request>, replies: seq<Comment>, withdrawn: set<string>, latest: map<string, string>,
    misrouted: set<int>)

  ghost predicate ListsRequests(cfg: Config, comments: seq<Comment>, s: State) {
    forall r :: r in s.requests <==> exists c :: c in comments && Standing(cfg, c) == Some(r)
  }

  ghost predicate ListsReplies(cfg: Config, comments: seq<Comment>, s: State) {
    forall c :: c in s.replies <==> c in comments && c.authorId == cfg.responder
  }

  ghost predicate ListsWithdrawn(cfg: Config, comments: seq<Comment>, s: State) {
    forall id :: id in s.withdrawn <==> Withdrawn(cfg, comments, id)
  }

  ghost predicate ListsLatest(cfg: Config, comments: seq<Comment>, s: State) {
    forall t, id :: LastForTask(cfg, comments, t, id) <==> t in s.latest && s.latest[t] == id
  }

  ghost predicate ListsMisrouted(cfg: Config, comments: seq<Comment>, s: State) {
    forall id :: id in s.misrouted <==> exists c :: c in comments && c.id == id && Misrouted(cfg, c)
  }

  ghost predicate Describes(cfg: Config, comments: seq<Comment>, s: State) {
    && ListsRequests(cfg, comments, s)
    && ListsReplies(cfg, comments, s)
    && ListsWithdrawn(cfg, comments, s)
    && ListsLatest(cfg, comments, s)
    && ListsMisrouted(cfg, comments, s)
  }

  // The standing requests in the order they were posted.
  ghost function Requests(cfg: Config, comments: seq<Comment>): seq<Request> {
    if comments == [] then []
    else
      var r := Standing(cfg, comments[|comments| - 1]);
      Requests(cfg, comments[..|comments| - 1]) + if r.Some? then [r.value] else []
  }

  // One comment more.
  function Advance(cfg: Config, s: State, c: Comment): State {
    var r := Standing(cfg, c);
    State(
      if r.Some? then s.requests + [r.value] else s.requests,
      if c.authorId == cfg.responder then s.replies + [c] else s.replies,
      if c.authorId == cfg.requester && cfg.bridge.withdrawal(c.body).Some?
      then s.withdrawn + {cfg.bridge.withdrawal(c.body).value} else s.withdrawn,
      if r.Some? then s.latest[r.value.taskId := r.value.id] else s.latest,
      if Misrouted(cfg, c) then s.misrouted + {c.id} else s.misrouted)
  }

  lemma AdvanceRequests(cfg: Config, comments: seq<Comment>, s: State, c: Comment)
    requires ListsRequests(cfg, comments, s)
    ensures ListsRequests(cfg, comments + [c], Advance(cfg, s, c))
  {
    assert forall x :: x in comments + [c] <==> x in comments || x == c;
  }

  lemma AdvanceWithdrawn(cfg: Config, comments: seq<Comment>, s: State, c: Comment)
    requires ListsWithdrawn(cfg, comments, s)
    ensures ListsWithdrawn(cfg, comments + [c], Advance(cfg, s, c))
  {
    assert forall x :: x in comments + [c] <==> x in comments || x == c;
  }

  lemma AdvanceMisrouted(cfg: Config, comments: seq<Comment>, s: State, c: Comment)
    requires ListsMisrouted(cfg, comments, s)
    ensures ListsMisrouted(cfg, comments + [c], Advance(cfg, s, c))
  {
    assert forall x :: x in comments + [c] <==> x in comments || x == c;
  }

  lemma AdvanceLatest(cfg: Config, comments: seq<Comment>, s: State, c: Comment)
    requires ListsLatest(cfg, comments, s)
    ensures ListsLatest(cfg, comments + [c], Advance(cfg, s, c))
  {
    var s' := Advance(cfg, s, c);
    forall t, id ensures LastForTask(cfg, comments + [c], t, id) <==> t in s'.latest && s'.latest[t] == id {
      LastForTaskGrows(cfg, comments, c, t, id);
    }
  }

  lemma AdvanceDescribes(cfg: Config, comments: seq<Comment>, s: State, c: Comment)
    requires Describes(cfg, comments, s)
    ensures Describes(cfg, comments + [c], Advance(cfg, s, c))
  {
    AdvanceRequests(cfg, comments, s, c);
    AdvanceWithdrawn(cfg, comments, s, c);
    AdvanceLatest(cfg, comments, s, c);
    AdvanceMisrouted(cfg, comments, s, c);
  }

  lemma LastForTaskGrows(cfg: Config, comments: seq<Comment>, c: Comment, task: string, id: string)
    ensures LastForTask(cfg, comments + [c], task, id) <==>
              if IsRequestFor(cfg, c, task) then Standing(cfg, c).value.id == id
              else LastForTask(cfg, comments, task, id)
  {
    var grown := comments + [c];
    assert grown[|comments|] == c;
    if !IsRequestFor(cfg, c, task) && LastForTask(cfg, comments, task, id) {
      var i :| 0 <= i < |comments| && IsRequestFor(cfg, comments[i], task) && Standing(cfg, comments[i]).value.id == id
               && forall j :: i < j < |comments| ==> !IsRequestFor(cfg, comments[j], task);
      assert grown[i] == comments[i];
    }
    if LastForTask(cfg, grown, task, id) {
      var i :| 0 <= i < |grown| && IsRequestFor(cfg, grown[i], task) && Standing(cfg, grown[i]).value.id == id
               && forall j :: i < j < |grown| ==> !IsRequestFor(cfg, grown[j], task);
      if i < |comments| {
        assert grown[i] == comments[i];
        assert forall j :: i < j < |comments| ==> grown[j] == comments[j];
      }
    }
  }

  // The body of readState's loop.
  method ReadComment(cfg: Config, c: Comment, s: State) returns (s': State)
    ensures s' == Advance(cfg, s, c)
  {
    s' := s;
    if c.authorId == cfg.responder {
      s' := s'.(replies := s'.replies + [c]);
    }
    if c.authorId != cfg.requester { return; }
    var withdrawal := cfg.bridge.withdrawal(c.body);
    if withdrawal.Some? {
      s' := s'.(withdrawn := s'.withdrawn + {withdrawal.value});
      return;
    }
    var r := Recognise(cfg.bridge, c);
    if r.None? { return; }
    if r.value.mailbox != cfg.mailbox {
      s' := s'.(misrouted := s'.misrouted + {c.id});
      return;
    }
    s' := s'.(requests := s'.requests + [r.value], latest := s'.latest[r.value.taskId := r.value.id]);
  }

  method ReadState(cfg: Config, comments: seq<Comment>) returns (s: State)
    ensures Describes(cfg, comments, s)
    ensures s.requests == Requests(cfg, comments)
  {
    s := State([], [], {}, map[], {});
    for i := 0 to |comments|
      invariant Describes(cfg, comments[..i], s)
      invariant s.requests == Requests(cfg, comments[..i])
    {
      assert comments[..i + 1] == comments[..i] + [comments[i]];
      assert comments[..i + 1][..i] == comments[..i];
      AdvanceDescribes(cfg, comments[..i], s, comments[i]);
      s := ReadComment(cfg, comments[i], s);
    }
    assert comments[..|comments|] == comments;
  }

  // ----- live -----

  method IsAnswered(b: Bridge, replies: seq<Comment>, r: Request) returns (yes: bool)
    ensures yes <==> exists c :: c in replies && Answers(b, r, c.body)
  {
    for i := 0 to |replies|
      invariant forall k :: 0 <= k < i ==> !Answers(b, r, replies[k].body)
    {
      if Answers(b, r, replies[i].body) { return true; }
    }
    yes := false;
  }

  predicate SameRequest(q: Request, r: Request) {
    q.comment.id == r.comment.id && q.comment.body == r.comment.body && q.id == r.id && q.kind == r.kind
  }

  method IsLive(cfg: Config, s: State, r: Request, ghost comments: seq<Comment>) returns (yes: bool)
    requires Describes(cfg, comments, s)
    ensures yes <==> Live(cfg, comments, r)
  {
    var present := false;
    for i := 0 to |s.requests|
      invariant present <==> exists k :: 0 <= k < i && SameRequest(s.requests[k], r)
    {
      if SameRequest(s.requests[i], r) { present := true; }
    }
    StandingCarriesItsComment(cfg);
    assert present <==> Present(cfg, comments, r) by {
      if present {
        var k :| 0 <= k < |s.requests| && SameRequest(s.requests[k], r);
        assert s.requests[k] in s.requests;
      }
      if Present(cfg, comments, r) {
        var c :| c in comments && Standing(cfg, c).Some? && c.id == r.comment.id && c.body == r.comment.body
                 && Standing(cfg, c).value.id == r.id && Standing(cfg, c).value.kind == r.kind;
        assert Standing(cfg, c).value in s.requests;
      }
    }
    if !present { return false; }
    var answered := IsAnswered(cfg.bridge, s.replies, r);
    assert answered <==> Answered(cfg, comments, r);
    if answered { return false; }
    if r.id in s.withdrawn { return false; }
    yes := r.taskId in s.latest && s.latest[r.taskId] == r.id;
  }

  lemma StandingCarriesItsComment(cfg: Config)
    ensures forall c :: Standing(cfg, c).Some? ==> Standing(cfg, c).value.comment == c
  {
  }

  // ----- Listing a conversation page by page -----

  const PER_PAGE := 100
  const MAX_PAGES := 200

  // What the server answers for a page, numbered from 1.
  function Page(conversation: seq<Comment>, page: nat): seq<Comment>
    requires page >= 1
  {
    var from := (page - 1) * PER_PAGE;
    if from >= |conversation| then []
    else if from + PER_PAGE >= |conversation| then conversation[from..]
    else conversation[from..from + PER_PAGE]
  }

  datatype ListError = Transport | TooManyPages

  // What was read by the time a page came back short, if none failed.
  ghost predicate ShortAt(conversation: nat -> seq<Comment>, page: nat) {
    1 <= page && |conversation(page)| < page * PER_PAGE
  }

  // `conversation(p)` is the conversation when page p is asked for, and
  // `broken` are the pages whose request fails. While others only add to it, a
  // listing is the whole conversation, in order, at the moment its last page
  // was read, or an error: never a shorter list. A conversation that stands
  // still is listed whole exactly when it has fewer than 20000 comments.
  method List(conversation: nat -> seq<Comment>, broken: set<nat>) returns (r: Result<seq<Comment>, ListError>)
    requires forall p: nat :: conversation(p) <= conversation(p + 1)
    ensures r.Success? ==>
              && r.value == conversation(|r.value| / PER_PAGE + 1)
              && |r.value| / PER_PAGE + 1 <= MAX_PAGES
    ensures r == Failure(TooManyPages) ==> forall p: nat :: p <= MAX_PAGES ==> !ShortAt(conversation, p)
    ensures broken == {} && |conversation(MAX_PAGES)| < 20000 ==> r.Success?
    ensures |conversation(1)| >= 20000 ==> r.Failure?
  {
    var all: seq<Comment> := [];
    var page: nat := 1;
    Prefixes(conversation, 1, MAX_PAGES);
    while page <= MAX_PAGES
      invariant 1 <= page <= MAX_PAGES + 1
      invariant (page - 1) * PER_PAGE <= |conversation(page)|
      invariant all == conversation(page)[..(page - 1) * PER_PAGE]
      invariant forall p: nat :: p < page ==> !ShortAt(conversation, p)
    {
      Prefixes(conversation, 1, page);
      if page in broken { return Failure(Transport); }
      var batch := Page(conversation(page), page);
      all := all + batch;
      if |batch| < PER_PAGE {
        assert all == conversation(page);
        assert |all| / PER_PAGE == page - 1;
        return Success(all);
      }
      assert |batch| == PER_PAGE;
      assert all == conversation(page)[..page * PER_PAGE];
      assert conversation(page) <= conversation(page + 1);
      page := page + 1;
    }
    assert !ShortAt(conversation, MAX_PAGES);
    r := Failure(TooManyPages);
  }

  lemma {:induction false} Prefixes(conversation: nat -> seq<Comment>, p: nat, q: nat)
    requires p <= q && forall k: nat :: conversation(k) <= conversation(k + 1)
    ensures conversation(p) <= conversation(q)
    decreases q - p
  {
    if p == q {
    } else {
      Prefixes(conversation, p, q - 1);
      assert conversation(q - 1) <= conversation(q - 1 + 1);
    }
  }

  // A deletion between two pages is another matter: the comment that moves up
  // to the page already read is listed nowhere.
  lemma DeletionHidesAComment(before: seq<Comment>, hidden: Comment)
    requires |before| == PER_PAGE && hidden !in before
    ensures var listed := Page(before + [hidden], 1) + Page(before[1..] + [hidden], 2);
            |listed| < 2 * PER_PAGE && hidden !in listed && hidden in before[1..] + [hidden]
  {
    assert Page(before + [hidden], 1) == before;
    assert (before[1..] + [hidden])[PER_PAGE - 1] == hidden;
  }
}
