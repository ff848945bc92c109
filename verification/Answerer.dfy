/** The answerer's passes over the mailbox (internal/answerer/answerer.go): list,
    call the model, list again, post. Requests, withdrawals, edits and other
    comments may arrive between any two of its steps; the model, the validators
    and the bridge are arbitrary. */
module Answerer {
  import opened Wrappers
  import opened Text
  import opened Mailbox
  import Citation

  // ----- What may be posted -----

  const NAMESPACE := "[sensei-code:"
  const BOM := "\U{EF}\U{BB}\U{BF}"
  const MAX_COMMENT_BYTES := 65536

  // A string of spaces, tabs, carriage returns and byte-order marks.
  ghost predicate IsIndent(t: string) {
    t == "" || (t[0] in {' ', '\t', '\r'} && IsIndent(t[1..])) || (BOM <= t && IsIndent(t[3..]))
  }

  // Leading white space and byte-order marks of a line: all of them, and
  // nothing else.
  function SkipIndent(s: string, i: nat): (r: nat)
    requires i <= |s|
    ensures i <= r <= |s| && IsIndent(s[i..r])
    ensures r < |s| ==> s[r] !in {' ', '\t', '\r'} && !(BOM <= s[r..])
    decreases |s| - i
  {
    if i < |s| && (s[i] == ' ' || s[i] == '\t' || s[i] == '\r') then SkipIndent(s, i + 1)
    else if ReadsAt(s, i, BOM) then SkipIndent(s, i + 3)
    else i
  }

  // Some line opens with the envelope namespace.
  predicate WritesEnvelope(out: string) {
    exists i :: 0 <= i <= |out| && OpensEnvelope(out, i)
  }

  predicate OpensEnvelope(out: string, i: nat)
    requires i <= |out|
  {
    (i == 0 || out[i - 1] == '\n') && ReadsAt(out, SkipIndent(out, i), NAMESPACE)
  }

  // Indentation ends where a word that begins with a bracket does.
  lemma {:induction false} IndentSkipped(s: string, i: nat, indent: string, word: string)
    requires i <= |s| && s[i..] == indent + word && IsIndent(indent) && word != "" && word[0] == '['
    ensures SkipIndent(s, i) == i + |indent|
    decreases |indent|
  {
    if indent == "" {
      assert s[i] == s[i..][0] == '[';
      FirstDiffers(s, i, BOM);
    } else if indent[0] in {' ', '\t', '\r'} {
      assert s[i] == s[i..][0] == indent[0];
      assert s[i + 1..] == s[i..][1..] == indent[1..] + word;
      IndentSkipped(s, i + 1, indent[1..], word);
    } else {
      assert s[i] == s[i..][0] == indent[0];
      BomSkipped(s, i, indent, word);
      IndentSkipped(s, i + 3, indent[3..], word);
    }
  }

  lemma BomSkipped(s: string, i: nat, indent: string, word: string)
    requires i <= |s| && s[i..] == indent + word && BOM <= indent
    ensures ReadsAt(s, i, BOM) && i + 3 <= |s| && s[i + 3..] == indent[3..] + word
  {
    ReadsFrom(s, i, BOM);
    assert s[i + 3..] == s[i..][3..];
  }

  lemma FirstDiffers(s: string, i: nat, word: string)
    requires i < |s| && word != "" && s[i] != word[0]
    ensures !ReadsAt(s, i, word)
  {
    ReadsFrom(s, i, word);
    assert s[i..][0] == s[i];
  }

  // A line, from its start, that is indentation and then the namespace.
  ghost predicate EnvelopeLine(out: string, before: string, indent: string, rest: string) {
    && out == before + (indent + NAMESPACE + rest) && IsIndent(indent)
    && (before == "" || before[|before| - 1] == '\n')
  }

  ghost predicate HasEnvelopeLine(out: string) {
    exists before, indent, rest :: EnvelopeLine(out, before, indent, rest)
  }

  lemma InThree(s: string, i: nat, r: nat, word: string)
    requires i <= r <= |s| && ReadsAt(s, r, word)
    ensures s == s[..i] + (s[i..r] + word + s[r + |word|..])
  {
    ReadsFrom(s, r, word);
    assert s[r..] == word + s[r + |word|..];
    assert s[i..] == s[i..r] + s[r..];
  }

  lemma OpenedIsALine(out: string, i: nat)
    requires i <= |out| && OpensEnvelope(out, i)
    ensures HasEnvelopeLine(out)
  {
    var r := SkipIndent(out, i);
    InThree(out, i, r, NAMESPACE);
    LastOfPrefix(out, i);
    IsALine(out, out[..i], out[i..r], out[r + |NAMESPACE|..]);
  }

  lemma LastOfPrefix(s: string, i: nat)
    requires i <= |s|
    ensures |s[..i]| == i && (i > 0 ==> s[..i][i - 1] == s[i - 1])
  {
  }

  lemma IsALine(out: string, before: string, indent: string, rest: string)
    requires out == before + (indent + NAMESPACE + rest) && IsIndent(indent)
    requires before == "" || before[|before| - 1] == '\n'
    ensures HasEnvelopeLine(out)
  {
    assert EnvelopeLine(out, before, indent, rest);
  }

  lemma LineOpens(out: string, before: string, indent: string, rest: string)
    requires EnvelopeLine(out, before, indent, rest)
    ensures OpensEnvelope(out, |before|)
  {
    var word := NAMESPACE + rest;
    assert out[|before|..] == indent + word;
    IndentSkipped(out, |before|, indent, word);
    assert out[|before| + |indent|..] == word;
    ReadsFrom(out, |before| + |indent|, NAMESPACE);
    assert before != "" ==> out[|before| - 1] == before[|before| - 1];
  }

  // The words open an envelope exactly when they hold such a line.
  lemma WritesEnvelopeIs(out: string)
    ensures WritesEnvelope(out) <==> HasEnvelopeLine(out)
  {
    if WritesEnvelope(out) {
      var i :| 0 <= i <= |out| && OpensEnvelope(out, i);
      OpenedIsALine(out, i);
    }
    if before, indent, rest :| EnvelopeLine(out, before, indent, rest) { LineOpens(out, before, indent, rest); }
  }

  ghost predicate Clean(out: string) {
    !WritesEnvelope(out) && forall k: nat :: k <= |out| ==> !Citation.CitationAt(out, k)
  }

  method ProtocolViolation(out: string) returns (violates: bool)
    ensures violates <==> !Clean(out)
  {
    for i := 0 to |out| + 1
      invariant forall k :: 0 <= k < i ==> !OpensEnvelope(out, k)
    {
      if OpensEnvelope(out, i) { return true; }
    }
    var artifact := Citation.CitationArtifact(out);
    violates := artifact != "";
  }

  predicate Embeds(text: string, part: string) { exists i :: 0 <= i <= |text| && ReadsAt(text, i, part) }

  // The reply carries the answer unchanged behind a non-empty envelope, a
  // review's envelope is the request's own, and the bridge reads it as the
  // answer to this request.
  predicate Bound(b: Bridge, r: Request, body: string, out: string) {
    && HasSuffix(body, out) && |body| != |out|
    && (r.kind.Review? ==> Embeds(r.comment.body, body[..|body| - |out|]))
    && Answers(b, r, body)
  }

  // What the process is configured with.
  datatype Setup = Setup(cfg: Config, architectureValid: string -> bool, reviewValid: string -> bool) {
    predicate Conforms(r: Request, out: string) {
      if r.kind.Review? then reviewValid(out) else architectureValid(out)
    }

    function Rendered(r: Request, out: string): Option<string> {
      if r.kind.Review? then cfg.bridge.reviewReply(r.comment.body, out)
      else cfg.bridge.architectureReply(r.comment.body, out)
    }

    // The reply that may be sent for r when the model says `out`.
    ghost function Sendable(r: Request, out: Option<string>): Option<string> {
      if && out.Some? && Clean(out.value) && Conforms(r, out.value) && Rendered(r, out.value).Some?
         && Bound(cfg.bridge, r, Rendered(r, out.value).value, out.value)
         && |Rendered(r, out.value).value| <= MAX_COMMENT_BYTES
      then Rendered(r, out.value)
      else None
    }
  }

  lemma EmbedsIs(text: string, part: string)
    ensures Embeds(text, part) <==> exists a, b :: text == a + part + b
  {
    if Embeds(text, part) {
      var i :| 0 <= i <= |text| && ReadsAt(text, i, part);
      ReadsFrom(text, i, part);
      assert text == text[..i] + part + text[i + |part|..];
    }
    if a, b :| text == a + part + b {
      assert text[|a|..] == part + b;
      ReadsFrom(text, |a|, part);
    }
  }

  // The reply is an envelope that is not empty, and then the words as they
  // are; a review's envelope occurs in the request.
  ghost predicate Enveloped(r: Request, body: string, out: string, envelope: string) {
    && body == envelope + out && envelope != ""
    && (r.kind.Review? ==> exists a, b :: r.comment.body == a + envelope + b)
  }

  lemma BoundIs(b: Bridge, r: Request, body: string, out: string)
    ensures Bound(b, r, body, out) <==> (exists envelope :: Enveloped(r, body, out, envelope)) && Answers(b, r, body)
  {
    SuffixIs(body, out);
    if HasSuffix(body, out) {
      var envelope := body[..|body| - |out|];
      assert body == envelope + out;
      EmbedsIs(r.comment.body, envelope);
      assert Bound(b, r, body, out) ==> Enveloped(r, body, out, envelope);
    }
    if envelope :| Enveloped(r, body, out, envelope) {
      assert body[|envelope|..] == out && body[..|body| - |out|] == envelope;
      EmbedsIs(r.comment.body, envelope);
    }
  }

  // When a body may be sent, whatever else is true of it.
  lemma SendableIs(u: Setup, r: Request, out: string, body: string)
    ensures u.Sendable(r, Some(out)) == Some(body) <==>
              && Clean(out) && (exists envelope :: Enveloped(r, body, out, envelope)) && |body| <= 65536
              && var b, asked := u.cfg.bridge, r.comment.body;
                 match r.kind
                 case Architecture =>
                   u.architectureValid(out) && b.architectureReply(asked, out) == Some(body)
                   && b.architectureAnswers(asked, body)
                 case Review =>
                   u.reviewValid(out) && b.reviewReply(asked, out) == Some(body) && b.reviewAnswers(asked, body)
  {
    BoundIs(u.cfg.bridge, r, body, out);
  }

  // ----- What happens at the boundary -----

  // The outside world's own record of what was done to it, in order: the model
  // was given a request, the mailbox was listed, a body was posted, with the
  // comment described in the answer and the one it left, if any.
  datatype Act =
    | Asked(request: Request, out: Option<string>)
    | Read(listing: Option<seq<Comment>>)
    | Posted(body: string, described: Option<Comment>, landed: Option<Comment>)

  // What the mailbox said around a post, and how one answer went.
  datatype Posting = Posting(listing: Option<seq<Comment>>, described: Option<Comment>, landed: Option<Comment>)
  datatype Exchange = Exchange(request: Request, out: Option<string>, posting: Posting)

  // The acts of one answer. A body is posted exactly when the model's words
  // may be sent and the listing read after they were spoken shows r live.
  ghost function Turn(u: Setup, x: Exchange): seq<Act> {
    var body := u.Sendable(x.request, x.out);
    [Asked(x.request, x.out)] + if body.None? then [] else Decided(u, x.request, body.value, x.posting)
  }

  ghost function Decided(u: Setup, r: Request, body: string, p: Posting): seq<Act> {
    if p.listing.None? || !Live(u.cfg, p.listing.value, r) then [Read(p.listing)]
    else [Read(p.listing), Posted(body, p.described, p.landed)]
  }

  // The reply is known to stand: it is the responder's and the bytes sent.
  predicate Stands(cfg: Config, body: string, described: Option<Comment>) {
    described.Some? && described.value.authorId == cfg.responder && described.value.body == body
  }

  // A run goes on past one answer unless the second listing failed or a reply
  // was sent and is not known to stand.
  ghost predicate GoesOn(u: Setup, x: Exchange) {
    var body := u.Sendable(x.request, x.out);
    body.None? || Settled(u.cfg, x.request, body.value, x.posting)
  }

  ghost predicate Settled(cfg: Config, r: Request, body: string, p: Posting) {
    p.listing.Some? && (!Live(cfg, p.listing.value, r) || Stands(cfg, body, p.described))
  }

  // A post follows the listing it was decided on, which follows the words it
  // carries, and nothing comes in between.
  ghost predicate LawfulPost(u: Setup, log: seq<Act>, k: nat)
    requires k < |log|
  {
    && 2 <= k && log[k].Posted? && log[k - 1].Read? && log[k - 2].Asked?
    && log[k - 1].listing.Some? && Live(u.cfg, log[k - 1].listing.value, log[k - 2].request)
    && u.Sendable(log[k - 2].request, log[k - 2].out) == Some(log[k].body)
  }

  ghost predicate Lawful(u: Setup, log: seq<Act>) {
    forall k :: 0 <= k < |log| && log[k].Posted? ==> LawfulPost(u, log, k)
  }

  ghost predicate PostsFor(log: seq<Act>, k: nat, body: string) {
    2 <= k < |log| && log[k].Posted? && log[k - 2].Asked? && log[k - 2].request.comment.body == body
  }

  // Posts j and k are for one request body.
  ghost predicate Repeats(log: seq<Act>, j: nat, k: nat) {
    j < k < |log| && 2 <= j && log[j - 2].Asked? && PostsFor(log, j, log[j - 2].request.comment.body)
    && PostsFor(log, k, log[j - 2].request.comment.body)
  }

  // Post k left a comment of the responder that answers its request.
  ghost predicate LeftReply(cfg: Config, log: seq<Act>, k: nat) {
    && 2 <= k < |log| && log[k].Posted? && log[k - 2].Asked? && log[k].landed.Some?
    && log[k].landed.value.authorId == cfg.responder
    && Answers(cfg.bridge, log[k - 2].request, log[k].landed.value.body)
  }

  // No request body is posted for twice from entry `from` on, and none at all
  // after an answer to it was left at any time.
  ghost predicate OnePerBody(cfg: Config, log: seq<Act>, from: nat) {
    forall j: nat, k: nat :: Repeats(log, j, k) ==> j < from && !LeftReply(cfg, log, j)
  }

  // Among the comments stand replies to every request posted for from entry
  // `from` on, and to every one to which a reply was left at any time.
  ghost predicate Shown(cfg: Config, comments: seq<Comment>, log: seq<Act>, from: nat) {
    forall k: nat :: MustShow(cfg, log, from, k) ==> ShownAt(cfg, comments, log, k)
  }

  ghost predicate MustShow(cfg: Config, log: seq<Act>, from: nat, k: nat) {
    k < |log| && log[k].Posted? && (from <= k || LeftReply(cfg, log, k))
  }

  ghost predicate ShownAt(cfg: Config, comments: seq<Comment>, log: seq<Act>, k: nat) {
    2 <= k < |log| && log[k - 2].Asked? && Answered(cfg, comments, log[k - 2].request)
  }

  // What one process leaves to the next.
  ghost predicate Kept(u: Setup, comments: seq<Comment>, log: seq<Act>) {
    Lawful(u, log) && OnePerBody(u.cfg, log, |log|) && Shown(u.cfg, comments, log, |log|)
  }

  ghost function LiveOnes(cfg: Config, listing: seq<Comment>, requests: seq<Request>): seq<Request> {
    if requests == [] then []
    else
      var r := requests[|requests| - 1];
      LiveOnes(cfg, listing, requests[..|requests| - 1]) + if Live(cfg, listing, r) then [r] else []
  }

  // ----- One answer -----

  // A body is a request of one kind only, whoever posts it and wherever.
  lemma KindIsInTheBody(cfg: Config, a: seq<Comment>, r: Request, b: seq<Comment>, q: Request)
    requires Present(cfg, a, r) && Present(cfg, b, q) && r.comment.body == q.comment.body
    ensures r.kind == q.kind
  {
  }

  // A live request's body is read by exactly one of the bridge's two parsers.
  lemma LiveIsOneKind(cfg: Config, listing: seq<Comment>, r: Request)
    requires Live(cfg, listing, r)
    ensures var b, body := cfg.bridge, r.comment.body;
            if r.kind.Review? then b.reviewRequest(body).Some? && b.architectureRequest(body).None?
            else b.architectureRequest(body).Some? && b.reviewRequest(body).None?
  {
    var c :| c in listing && Standing(cfg, c).Some? && c.id == r.comment.id && c.body == r.comment.body
             && Standing(cfg, c).value.id == r.id && Standing(cfg, c).value.kind == r.kind;
  }

  // What is posted for a request that the architecture parser accepts is the
  // architecture reply to it, of words the architecture contract admits, and
  // the bridge takes it for the architecture answer; likewise for a review.
  // Nothing is posted for a body that both parsers accept, or neither.
  lemma PostedByItsKind(u: Setup, log: seq<Act>, k: nat)
    requires Lawful(u, log) && k < |log| && log[k].Posted?
    ensures 2 <= k && log[k - 2].Asked? && log[k - 2].out.Some?
    ensures var b, body, out := u.cfg.bridge, log[k - 2].request.comment.body, log[k - 2].out.value;
            && (b.architectureRequest(body).Some? <==> b.reviewRequest(body).None?)
            && (b.architectureRequest(body).Some? ==>
                  && u.architectureValid(out) && b.architectureReply(body, out) == Some(log[k].body)
                  && b.architectureAnswers(body, log[k].body))
            && (b.reviewRequest(body).Some? ==>
                  && u.reviewValid(out) && b.reviewReply(body, out) == Some(log[k].body)
                  && b.reviewAnswers(body, log[k].body)
                  && exists envelope, p, q :: log[k].body == envelope + out && body == p + envelope + q)
            && (exists envelope :: envelope != "" && log[k].body == envelope + out)
            && |log[k].body| <= 65536
  {
    assert LawfulPost(u, log, k);
    BoundIs(u.cfg.bridge, log[k - 2].request, log[k].body, log[k - 2].out.value);
    LiveIsOneKind(u.cfg, log[k - 1].listing.value, log[k - 2].request);
  }

  // A reply to a request body answers every present request with that body.
  lemma AnsweredTogether(u: Setup, log: seq<Act>, k: nat, listing: seq<Comment>, r: Request)
    requires k < |log| && LawfulPost(u, log, k) && Answered(u.cfg, listing, log[k - 2].request)
    requires Present(u.cfg, listing, r) && log[k - 2].request.comment.body == r.comment.body
    ensures Answered(u.cfg, listing, r)
  {
    var q := log[k - 2].request;
    KindIsInTheBody(u.cfg, log[k - 1].listing.value, q, listing, r);
    var c :| c in listing && c.authorId == u.cfg.responder && Answers(u.cfg.bridge, q, c.body);
    assert Answers(u.cfg.bridge, r, c.body);
  }

  // While a reply to a request body stands in the mailbox, no request with
  // that body is live.
  lemma AnsweredIsNotLive(u: Setup, log: seq<Act>, k: nat, listing: seq<Comment>, r: Request)
    requires k < |log| && LawfulPost(u, log, k) && Answered(u.cfg, listing, log[k - 2].request)
    requires Live(u.cfg, listing, r)
    ensures log[k - 2].request.comment.body != r.comment.body
  {
    if log[k - 2].request.comment.body == r.comment.body { AnsweredTogether(u, log, k, listing, r); }
  }

  lemma TurnIsLawful(u: Setup, log: seq<Act>, x: Exchange)
    requires Lawful(u, log)
    ensures Lawful(u, log + Turn(u, x))
  {
    var grown := log + Turn(u, x);
    forall k | 0 <= k < |grown| && grown[k].Posted?
      ensures LawfulPost(u, grown, k)
    {
      if k < |log| { assert LawfulPost(u, log, k); }
    }
  }

  // The request posted for at the end of a turn has no reply in its listing.
  lemma NewBody(u: Setup, log: seq<Act>, x: Exchange, from: nat, j: nat, k: nat)
    requires Lawful(u, log) && OnePerBody(u.cfg, log, from)
    requires x.posting.listing.Some? ==> Shown(u.cfg, x.posting.listing.value, log, from)
    requires Repeats(log + Turn(u, x), j, k)
    ensures j < from && !LeftReply(u.cfg, log + Turn(u, x), j)
  {
    var grown := log + Turn(u, x);
    assert grown[j].Posted? && j < |log| && LawfulPost(u, log, j);
    assert LeftReply(u.cfg, grown, j) <==> LeftReply(u.cfg, log, j);
    if k < |log| {
      assert Repeats(log, j, k);
    } else {
      var listing := x.posting.listing.value;
      assert grown[k - 2].request == x.request && Live(u.cfg, listing, x.request);
      if MustShow(u.cfg, log, from, j) {
        assert ShownAt(u.cfg, listing, log, j);
        AnsweredIsNotLive(u, log, j, listing, x.request);
      }
    }
  }

  // A turn decided on a listing that shows every earlier reply answers a body
  // that was not answered before.
  lemma TurnKeepsOnePerBody(u: Setup, log: seq<Act>, x: Exchange, from: nat)
    requires Lawful(u, log) && OnePerBody(u.cfg, log, from)
    requires x.posting.listing.Some? ==> Shown(u.cfg, x.posting.listing.value, log, from)
    ensures Lawful(u, log + Turn(u, x)) && OnePerBody(u.cfg, log + Turn(u, x), from)
  {
    TurnIsLawful(u, log, x);
    var grown := log + Turn(u, x);
    forall j: nat, k: nat | Repeats(grown, j, k)
      ensures j < from && !LeftReply(u.cfg, grown, j)
    {
      NewBody(u, log, x, from, j, k);
    }
  }

  // Nothing is posted by asking or reading.
  lemma SilentAct(cfg: Config, comments: seq<Comment>, log: seq<Act>, act: Act, from: nat)
    requires !act.Posted? && Shown(cfg, comments, log, from)
    ensures Shown(cfg, comments, log + [act], from)
  {
    var grown := log + [act];
    forall k: nat | MustShow(cfg, grown, from, k)
      ensures ShownAt(cfg, comments, grown, k)
    {
      assert MustShow(cfg, log, from, k);
      assert ShownAt(cfg, comments, log, k);
    }
  }

  lemma ReadKeepsOnePerBody(u: Setup, log: seq<Act>, listing: Option<seq<Comment>>, from: nat)
    requires Lawful(u, log) && OnePerBody(u.cfg, log, from)
    ensures Lawful(u, log + [Read(listing)]) && OnePerBody(u.cfg, log + [Read(listing)], from)
  {
    var grown := log + [Read(listing)];
    forall k | 0 <= k < |grown| && grown[k].Posted?
      ensures LawfulPost(u, grown, k)
    {
      assert LawfulPost(u, log, k);
    }
    forall j: nat, k: nat | Repeats(grown, j, k)
      ensures j < from && !LeftReply(u.cfg, grown, j)
    {
      assert Repeats(log, j, k);
    }
  }

  // What the responder left stays.
  lemma ShownLater(cfg: Config, a: seq<Comment>, b: seq<Comment>, log: seq<Act>, from: nat)
    requires Shown(cfg, a, log, from)
    requires forall c :: c in a && c.authorId == cfg.responder ==> c in b
    ensures Shown(cfg, b, log, from)
  {
    forall k: nat | MustShow(cfg, log, from, k)
      ensures ShownAt(cfg, b, log, k)
    {
      assert ShownAt(cfg, a, log, k);
    }
  }

  // A post that is not known to stand leaves the earlier replies where they
  // were, and its own if it left one.
  lemma PostLeaves(cfg: Config, comments: seq<Comment>, log: seq<Act>, act: Act, from: nat)
    requires Shown(cfg, comments, log, from) && act.Posted? && (act.landed.Some? ==> act.landed.value in comments)
    ensures Shown(cfg, comments, log + [act], |log| + 1)
  {
    var grown := log + [act];
    forall k: nat | MustShow(cfg, grown, |log| + 1, k)
      ensures ShownAt(cfg, comments, grown, k)
    {
      if k < |log| {
        assert MustShow(cfg, log, from, k) && ShownAt(cfg, comments, log, k);
      } else {
        assert act.landed.value in comments;
      }
    }
  }

  // A post that is known to stand is shown.
  lemma PostStands(u: Setup, comments: seq<Comment>, log: seq<Act>, act: Act, from: nat)
    requires Shown(u.cfg, comments, log, from) && act.Posted? && LawfulPost(u, log + [act], |log|)
    requires Stands(u.cfg, act.body, act.described) && act.described.value in comments
    ensures Shown(u.cfg, comments, log + [act], from)
  {
    var grown := log + [act];
    forall k: nat | MustShow(u.cfg, grown, from, k)
      ensures ShownAt(u.cfg, comments, grown, k)
    {
      if k < |log| {
        assert MustShow(u.cfg, log, from, k);
        assert ShownAt(u.cfg, comments, log, k);
      } else {
        assert act.described.value in comments;
      }
    }
  }

  lemma ShownFromLater(cfg: Config, comments: seq<Comment>, log: seq<Act>, from: nat, later: nat)
    requires Shown(cfg, comments, log, from) && from <= later
    ensures Shown(cfg, comments, log, later)
  {
  }

  // Over all processes: two posts never both left a reply to one body.
  lemma AtMostOneReply(u: Setup, comments: seq<Comment>, log: seq<Act>, j: nat, k: nat)
    requires Kept(u, comments, log) && LeftReply(u.cfg, log, j) && k < |log| && log[k].Posted?
    requires 2 <= k && log[k - 2].Asked? && log[k - 2].request.comment.body == log[j - 2].request.comment.body
    ensures k <= j
    ensures LeftReply(u.cfg, log, k) ==> k == j
  {
    assert j < k ==> Repeats(log, j, k);
    assert k < j && LeftReply(u.cfg, log, k) ==> Repeats(log, k, j);
  }

  // ----- One pass -----

  ghost function Turns(u: Setup, answers: seq<Exchange>): seq<Act> {
    if answers == [] then [] else Turns(u, answers[..|answers| - 1]) + Turn(u, answers[|answers| - 1])
  }

  // A whole turn for each of the live requests, in order, up to the first one
  // that the run does not go on past.
  ghost predicate Passed(u: Setup, live: seq<Request>, answers: seq<Exchange>, goOn: bool) {
    && |answers| <= |live|
    && (forall k :: 0 <= k < |answers| ==> answers[k].request == live[k])
    && (forall k :: 0 <= k < |answers| && (goOn || k < |answers| - 1) ==> GoesOn(u, answers[k]))
    && if goOn then |answers| == |live| else answers != [] && !GoesOn(u, answers[|answers| - 1])
  }

  datatype Pass = Pass(listing: Option<seq<Comment>>, answers: seq<Exchange>)

  ghost function PassActs(u: Setup, p: Pass): seq<Act> {
    [Read(p.listing)] + Turns(u, p.answers)
  }

  ghost predicate IsPass(u: Setup, p: Pass, goOn: bool) {
    match p.listing
    case None => !goOn && p.answers == []
    case Some(l) => Passed(u, LiveOnes(u.cfg, l, Requests(u.cfg, l)), p.answers, goOn)
  }

  ghost function AllPasses(u: Setup, passes: seq<Pass>): seq<Act> {
    if passes == [] then [] else AllPasses(u, passes[..|passes| - 1]) + PassActs(u, passes[|passes| - 1])
  }

  // One listed request: its whole turn if the listing shows it live.
  ghost predicate Tried(u: Setup, listing: seq<Comment>, r: Request, before: seq<Act>, after: seq<Act>,
      xs: seq<Exchange>, goOn: bool)
  {
    if Live(u.cfg, listing, r)
    then |xs| == 1 && xs[0].request == r && after == before + Turn(u, xs[0]) && (goOn <==> GoesOn(u, xs[0]))
    else xs == [] && after == before && goOn
  }

  // From one log to the other the live ones of these requests had their turns.
  ghost predicate Answering(u: Setup, listing: seq<Comment>, requests: seq<Request>, before: seq<Act>, after: seq<Act>,
      answers: seq<Exchange>, goOn: bool)
  {
    after == before + Turns(u, answers) && Passed(u, LiveOnes(u.cfg, listing, requests), answers, goOn)
  }

  lemma OneMoreTurn(u: Setup, log: seq<Act>, answers: seq<Exchange>, x: Exchange)
    ensures log + Turns(u, answers) + Turn(u, x) == log + Turns(u, answers + [x])
  {
    assert (answers + [x])[..|answers|] == answers;
  }

  lemma OneMorePassed(u: Setup, live: seq<Request>, answers: seq<Exchange>, x: Exchange)
    requires Passed(u, live, answers, true)
    ensures Passed(u, live + [x.request], answers + [x], GoesOn(u, x))
  {
  }

  lemma PassOfMore(u: Setup, live: seq<Request>, more: seq<Request>, answers: seq<Exchange>)
    requires Passed(u, live, answers, false) && live <= more
    ensures Passed(u, more, answers, false)
  {
  }

  lemma OneMoreTried(u: Setup, listing: seq<Comment>, requests: seq<Request>, i: nat, start: seq<Act>,
      before: seq<Act>, after: seq<Act>, answers: seq<Exchange>, xs: seq<Exchange>, goOn: bool)
    requires i < |requests| && Answering(u, listing, requests[..i], start, before, answers, true)
    requires Tried(u, listing, requests[i], before, after, xs, goOn)
    ensures Answering(u, listing, if goOn then requests[..i + 1] else requests, start, after, answers + xs, goOn)
  {
    LiveOnesStep(u.cfg, listing, requests, i);
    if xs == [] {
      assert answers + xs == answers;
    } else {
      assert xs == [xs[0]];
      OneMoreTurn(u, start, answers, xs[0]);
      OneMorePassed(u, LiveOnes(u.cfg, listing, requests[..i]), answers, xs[0]);
      if !goOn {
        PassOfMore(u, LiveOnes(u.cfg, listing, requests[..i + 1]), LiveOnes(u.cfg, listing, requests), answers + xs);
      }
    }
  }

  lemma PassIs(u: Setup, log: seq<Act>, after: seq<Act>, listing: seq<Comment>, answers: seq<Exchange>, goOn: bool)
    requires Answering(u, listing, Requests(u.cfg, listing), log + [Read(Some(listing))], after, answers, goOn)
    ensures IsPass(u, Pass(Some(listing), answers), goOn)
    ensures after == log + PassActs(u, Pass(Some(listing), answers))
  {
    Grouped(log, [Read(Some(listing))], Turns(u, answers));
  }

  lemma Grouped(a: seq<Act>, b: seq<Act>, c: seq<Act>)
    ensures a + b + c == a + (b + c)
  {
  }

  lemma OneMorePass(u: Setup, log: seq<Act>, passes: seq<Pass>, p: Pass)
    ensures log + AllPasses(u, passes) + PassActs(u, p) == log + AllPasses(u, passes + [p])
  {
    assert (passes + [p])[..|passes|] == passes;
  }

  // The live ones of a part of the requests are the first of all live ones.
  lemma {:induction false} LiveOnesPrefix(cfg: Config, listing: seq<Comment>, requests: seq<Request>, n: nat)
    requires n <= |requests|
    ensures LiveOnes(cfg, listing, requests[..n]) <= LiveOnes(cfg, listing, requests)
  {
    if n == |requests| {
      assert requests[..n] == requests;
    } else {
      var init := requests[..|requests| - 1];
      LiveOnesPrefix(cfg, listing, init, n);
      assert init[..n] == requests[..n];
    }
  }

  // Exactly the live ones.
  lemma {:induction false} LiveOnesAre(cfg: Config, listing: seq<Comment>, requests: seq<Request>, r: Request)
    ensures r in LiveOnes(cfg, listing, requests) <==> r in requests && Live(cfg, listing, r)
  {
    if requests == [] {
    } else {
      var init, last := requests[..|requests| - 1], requests[|requests| - 1];
      assert requests == init + [last];
      LiveOnesAre(cfg, listing, init, r);
    }
  }

  // The model is asked about nothing but requests of the listing that it shows
  // live, and, when the pass goes through, about each of them.
  lemma PassAsksTheLive(u: Setup, p: Pass, goOn: bool, r: Request)
    requires IsPass(u, p, goOn) && p.listing.Some?
    ensures (exists k :: 0 <= k < |p.answers| && p.answers[k].request == r) ==>
              r in Requests(u.cfg, p.listing.value) && Live(u.cfg, p.listing.value, r)
    ensures goOn && r in Requests(u.cfg, p.listing.value) && Live(u.cfg, p.listing.value, r) ==>
              exists k :: 0 <= k < |p.answers| && p.answers[k].request == r
  {
    var requests := Requests(u.cfg, p.listing.value);
    var live := LiveOnes(u.cfg, p.listing.value, requests);
    LiveOnesAre(u.cfg, p.listing.value, requests, r);
    if k :| 0 <= k < |p.answers| && p.answers[k].request == r { assert live[k] == r; }
    if goOn && r in live {
      var k :| 0 <= k < |live| && live[k] == r;
      assert p.answers[k].request == r;
    }
  }

  lemma LiveOnesStep(cfg: Config, listing: seq<Comment>, requests: seq<Request>, i: nat)
    requires i < |requests|
    ensures LiveOnes(cfg, listing, requests[..i + 1]) ==
            LiveOnes(cfg, listing, requests[..i]) + if Live(cfg, listing, requests[i]) then [requests[i]] else []
    ensures LiveOnes(cfg, listing, requests[..i + 1]) <= LiveOnes(cfg, listing, requests)
  {
    assert requests[..i + 1][..i] == requests[..i];
    LiveOnesPrefix(cfg, listing, requests, i + 1);
  }

  ghost function MisroutedIds(cfg: Config, listing: seq<Comment>): set<int> {
    set c | c in listing && Misrouted(cfg, c) :: c.id
  }

  lemma MisroutedAre(cfg: Config, listing: seq<Comment>, s: State)
    requires ListsMisrouted(cfg, listing, s)
    ensures s.misrouted == MisroutedIds(cfg, listing)
  {
    forall id
      ensures id in s.misrouted <==> id in MisroutedIds(cfg, listing)
    {
      if id in s.misrouted {
        var c :| c in listing && c.id == id && Misrouted(cfg, c);
      }
    }
  }

  lemma SomeElement(s: set<int>)
    requires s != {}
    ensures exists x :: x in s
  {
    assert (forall x :: x !in s) ==> s == {};
  }

  lemma NotYet(reports: seq<int>, id: int)
    requires Distinct(reports) && id !in Elements(reports)
    ensures Distinct(reports + [id]) && Elements(reports + [id]) == Elements(reports) + {id}
  {
    assert id !in reports;
    assert multiset(reports)[id] == 0;
  }

  // The mailbox, the model and the report, with everybody else who uses the
  // mailbox. `log` and `reports` are its own record: only its methods write
  // them, one entry for each thing done.
  class Outside {
    const responder: int
    var comments: seq<Comment>
    ghost var log: seq<Act>
    ghost var reports: seq<int>

    constructor (responder: int, comments: seq<Comment>)
      ensures this.responder == responder && this.comments == comments && log == [] && reports == []
    {
      this.responder, this.comments := responder, comments;
      log, reports := [], [];
    }

    // Everybody else: add, edit and delete anything but the responder's comments.
    method Others()
      modifies this`comments
      ensures forall c :: c in old(comments) && c.authorId == responder ==> c in comments
    {
    }

    // The conversation as it is, or a failure to read it.
    method List() returns (listing: Option<seq<Comment>>)
      modifies this`log
      ensures listing.Some? ==> listing.value == comments
      ensures log == old(log) + [Read(listing)]
    {
      var readable: bool := *;
      listing := if readable then Some(comments) else None;
      log := log + [Read(listing)];
    }

    method Ask(r: Request) returns (out: Option<string>)
      modifies this`log
      ensures log == old(log) + [Asked(r, out)]
    {
      out := *;
      log := log + [Asked(r, out)];
    }

    // The body may land or not, as these bytes or others, under any account,
    // but not after the call; a comment described in the answer is on the mailbox.
    method Post(body: string) returns (described: Option<Comment>, ghost landed: Option<Comment>)
      modifies this`comments, this`log
      ensures comments == old(comments) + if landed.Some? then [landed.value] else []
      ensures described.Some? ==> described.value in comments
      ensures log == old(log) + [Posted(body, described, landed)]
    {
      var id: int, stored: string, author: int, lands: bool, answered: bool := *, *, *, *, *;
      var c := Comment(id, stored, author);
      if lands { comments := comments + [c]; }
      landed := if lands then Some(c) else None;
      described := if lands && answered then Some(c) else None;
      log := log + [Posted(body, described, landed)];
    }

    method Report(id: int)
      modifies this`reports
      ensures reports == old(reports) + [id]
    {
      reports := reports + [id];
    }
  }

  // Render the reply and judge it.
  method Prepare(u: Setup, r: Request, out: string) returns (body: Option<string>)
    ensures body == u.Sendable(r, Some(out))
  {
    var violates := ProtocolViolation(out);
    if violates { return None; }
    if !u.Conforms(r, out) { return None; }
    body := u.Rendered(r, out);
    if body.None? { return None; }
    if !Bound(u.cfg.bridge, r, body.value, out) { return None; }
    if |body.value| > MAX_COMMENT_BYTES { return None; }
  }

  class Answerer {
    const u: Setup
    const outside: Outside
    var reported: set<int>       // misrouted comments already reported
    ghost const since: nat       // what the outside had recorded when this process started
    ghost const reportsSince: nat

    // What holds at every moment.
    ghost predicate Valid()
      reads this, outside
    {
      && outside.responder == u.cfg.responder
      && since <= |outside.log| && Lawful(u, outside.log) && OnePerBody(u.cfg, outside.log, since)
      && Shown(u.cfg, outside.comments, outside.log, |outside.log|)
      && reportsSince <= |outside.reports|
      && reported == Elements(outside.reports[reportsSince..]) && Distinct(outside.reports[reportsSince..])
    }

    // ... and while the process is running.
    ghost predicate Running()
      reads this, outside
    {
      Valid() && Shown(u.cfg, outside.comments, outside.log, since)
    }

    // A process starts where earlier ones left off; it knows nothing of them.
    constructor (u: Setup, outside: Outside)
      requires outside.responder == u.cfg.responder && Kept(u, outside.comments, outside.log)
      ensures this.u == u && this.outside == outside && Running()
      ensures since == |outside.log| && reportsSince == |outside.reports| && reported == {}
    {
      this.u, this.outside, reported := u, outside, {};
      since, reportsSince := |outside.log|, |outside.reports|;
    }

    lemma OthersKeepShown(before: seq<Comment>)
      requires outside.responder == u.cfg.responder && Shown(u.cfg, before, outside.log, since)
      requires forall c :: c in before && c.authorId == outside.responder ==> c in outside.comments
      ensures Shown(u.cfg, outside.comments, outside.log, since)
    {
      ShownLater(u.cfg, before, outside.comments, outside.log, since);
    }

    // The mailbox is listed again just before posting, and the body is sent
    // exactly when that listing shows r live.
    method PostIfLive(r: Request, body: string, ghost out: Option<string>)
      returns (goOn: bool, ghost p: Posting)
      requires outside.responder == u.cfg.responder && Shown(u.cfg, outside.comments, outside.log, since)
      requires outside.log != [] && outside.log[|outside.log| - 1] == Asked(r, out) && u.Sendable(r, out) == Some(body)
      requires since <= |outside.log|
      modifies outside`comments, outside`log
      ensures outside.log == old(outside.log) + Decided(u, r, body, p)
      ensures goOn <==> Settled(u.cfg, r, body, p)
      ensures p.listing.Some? ==> Shown(u.cfg, p.listing.value, old(outside.log), since)
      ensures Shown(u.cfg, outside.comments, outside.log, |outside.log|)
      ensures goOn ==> Shown(u.cfg, outside.comments, outside.log, since)
    {
      p := Posting(None, None, None);
      ghost var before, log := outside.comments, outside.log;
      outside.Others();
      OthersKeepShown(before);
      var again := outside.List();
      p := p.(listing := again);
      SilentAct(u.cfg, outside.comments, log, Read(again), since);
      ShownFromLater(u.cfg, outside.comments, outside.log, since, |outside.log|);
      if again.None? { return false, p; }
      var state := ReadState(u.cfg, again.value);
      var live := IsLive(u.cfg, state, r, again.value);
      if !live { return true, p; }
      goOn, p := Send(r, body, out, again.value);
      assert outside.log == log + Decided(u, r, body, p);
    }

    // The post, and whether it is known to stand.
    method Send(r: Request, body: string, ghost out: Option<string>, ghost listing: seq<Comment>)
      returns (goOn: bool, ghost p: Posting)
      requires outside.responder == u.cfg.responder && Shown(u.cfg, outside.comments, outside.log, since)
      requires |outside.log| >= 2 && outside.log[|outside.log| - 2..] == [Asked(r, out), Read(Some(listing))]
      requires u.Sendable(r, out) == Some(body) && Live(u.cfg, listing, r)
      modifies outside`comments, outside`log
      ensures p.listing == Some(listing) && outside.log == old(outside.log) + [Posted(body, p.described, p.landed)]
      ensures goOn <==> Stands(u.cfg, body, p.described)
      ensures since <= |old(outside.log)| ==> Shown(u.cfg, outside.comments, outside.log, |outside.log|)
      ensures goOn ==> Shown(u.cfg, outside.comments, outside.log, since)
    {
      ghost var before, log := outside.comments, outside.log;
      assert log[|log| - 2] == Asked(r, out) && log[|log| - 1] == Read(Some(listing));
      outside.Others();
      OthersKeepShown(before);
      ghost var others, landed := outside.comments, None;
      var described;
      described, landed := outside.Post(body);
      p := Posting(Some(listing), described, landed);
      goOn := Stands(u.cfg, body, described);
      ghost var act := Posted(body, described, landed);
      ShownLater(u.cfg, others, outside.comments, log, since);
      PostLeaves(u.cfg, outside.comments, log, act, since);
      if goOn { PostStands(u, outside.comments, log, act, since); }
    }

    // One fresh model call for r; false ends the run.
    method Answer(r: Request) returns (goOn: bool, ghost x: Exchange)
      requires Running()
      modifies outside`comments, outside`log
      ensures x.request == r && outside.log == old(outside.log) + Turn(u, x)
      ensures goOn <==> GoesOn(u, x)
      ensures Valid() && (goOn ==> Running())
    {
      ghost var before, p := outside.log, Posting(None, None, None);
      var said := outside.Ask(r);
      SilentAct(u.cfg, outside.comments, before, Asked(r, said), since);
      ShownFromLater(u.cfg, outside.comments, outside.log, since, |outside.log|);
      var body := None;
      if said.Some? { body := Prepare(u, r, said.value); }
      goOn := true;
      if body.Some? { goOn, p := PostIfLive(r, body.value, said); }
      x := Exchange(r, said, p);
      assert outside.log == before + Turn(u, x);
      if p.listing.Some? { ShownOnListing(before, Asked(r, said), p.listing.value); }
      TurnKeepsOnePerBody(u, before, x, since);
    }

    lemma ShownOnListing(log: seq<Act>, act: Act, listing: seq<Comment>)
      requires Shown(u.cfg, listing, log + [act], since) && !act.Posted?
      ensures Shown(u.cfg, listing, log, since)
    {
      var grown := log + [act];
      forall k: nat | MustShow(u.cfg, log, since, k)
        ensures ShownAt(u.cfg, listing, log, k)
      {
        assert MustShow(u.cfg, grown, since, k);
        assert ShownAt(u.cfg, listing, grown, k);
      }
    }

    // Each misrouted request is reported once, over all passes of this process.
    method ReportMisrouted(misrouted: set<int>)
      requires Running()
      modifies this`reported, outside`reports
      ensures Running() && reported == old(reported) + misrouted
    {
      var todo := misrouted;
      while todo != {}
        invariant todo <= misrouted && Running() && reported == old(reported) + (misrouted - todo)
        decreases todo
      {
        SomeElement(todo);
        var id :| id in todo;
        if id !in reported {
          ghost var mine := outside.reports[reportsSince..];
          NotYet(mine, id);
          reported := reported + {id};
          outside.Report(id);
          assert outside.reports[reportsSince..] == mine + [id];
        }
        todo := todo - {id};
      }
    }

    // The loop's body for one listed request.
    method TryOne(r: Request, state: State, ghost listing: seq<Comment>)
      returns (goOn: bool, ghost xs: seq<Exchange>)
      requires Running() && Describes(u.cfg, listing, state)
      modifies outside`comments, outside`log
      ensures Valid() && (goOn ==> Running())
      ensures Tried(u, listing, r, old(outside.log), outside.log, xs, goOn)
    {
      xs := [];
      var live := IsLive(u.cfg, state, r, listing);
      if !live { return true, xs; }
      ghost var before := outside.comments;
      outside.Others();
      OthersKeepShown(before);
      ShownFromLater(u.cfg, outside.comments, outside.log, since, |outside.log|);
      ghost var x;
      goOn, x := Answer(r);
      xs := [x];
    }

    // One fresh call for each listed request that is live, in order, and for
    // nothing else; a failure ends the pass early.
    method TryEach(state: State, ghost listing: seq<Comment>) returns (goOn: bool, ghost answers: seq<Exchange>)
      requires Running() && Describes(u.cfg, listing, state)
      modifies outside`comments, outside`log
      ensures Valid() && (goOn ==> Running())
      ensures Answering(u, listing, state.requests, old(outside.log), outside.log, answers, goOn)
    {
      answers := [];
      assert Answering(u, listing, state.requests[..0], outside.log, outside.log, answers, true);
      for i := 0 to |state.requests|
        invariant Running()
        invariant Answering(u, listing, state.requests[..i], old(outside.log), outside.log, answers, true)
      {
        ghost var before, xs := outside.log, [];
        goOn, xs := TryOne(state.requests[i], state, listing);
        OneMoreTried(u, listing, state.requests, i, old(outside.log), before, outside.log, answers, xs, goOn);
        answers := answers + xs;
        if !goOn { return; }
      }
      assert state.requests[..|state.requests|] == state.requests;
      goOn := true;
    }

    // The listing a pass starts with.
    method Look() returns (listing: Option<seq<Comment>>)
      requires Running()
      modifies outside`comments, outside`log
      ensures Running() && outside.log == old(outside.log) + [Read(listing)]
    {
      ghost var before, log := outside.comments, outside.log;
      outside.Others();
      OthersKeepShown(before);
      listing := outside.List();
      ReadKeepsOnePerBody(u, log, listing, since);
      SilentAct(u.cfg, outside.comments, log, Read(listing), since);
      ShownFromLater(u.cfg, outside.comments, outside.log, since, |outside.log|);
    }

    // One pass lists once and gives each request its listing shows live a
    // whole turn, in order.
    method Once() returns (goOn: bool, ghost p: Pass)
      requires Running()
      modifies this`reported, outside
      ensures Valid() && (goOn ==> Running())
      ensures outside.log == old(outside.log) + PassActs(u, p) && IsPass(u, p, goOn)
      ensures p.listing.None? ==> reported == old(reported)
      ensures p.listing.Some? ==> reported == old(reported) + MisroutedIds(u.cfg, p.listing.value)
    {
      ghost var log := outside.log;
      var listing := Look();
      p := Pass(listing, []);
      if listing.None? { return false, p; }
      var state := ReadState(u.cfg, listing.value);
      MisroutedAre(u.cfg, listing.value, state);
      ReportMisrouted(state.misrouted);
      ghost var answers;
      goOn, answers := TryEach(state, listing.value);
      p := Pass(listing, answers);
      PassIs(u, log, outside.log, listing.value, answers, goOn);
    }

    // Over any run of passes: at most one answer per request body, each sent
    // right after a listing that shows its request present unchanged,
    // unanswered, not withdrawn and last for its task, which was read after
    // the model had spoken the words sent. No pass follows one that failed.
    method Run(n: nat) returns (goOn: bool, ghost passes: seq<Pass>)
      requires Running()
      modifies this`reported, outside
      ensures Valid() && outside.log == old(outside.log) + AllPasses(u, passes)
      ensures |passes| <= n && (goOn ==> |passes| == n)
      ensures forall k :: 0 <= k < |passes| ==> IsPass(u, passes[k], goOn || k < |passes| - 1)
      ensures Lawful(u, outside.log) && OnePerBody(u.cfg, outside.log, since)
      ensures Distinct(outside.reports[reportsSince..]) && Kept(u, outside.comments, outside.log)
    {
      passes := [];
      for i := 0 to n
        invariant Running() && |passes| == i && outside.log == old(outside.log) + AllPasses(u, passes)
        invariant forall k :: 0 <= k < |passes| ==> IsPass(u, passes[k], true)
      {
        ghost var p;
        goOn, p := Once();
        OneMorePass(u, old(outside.log), passes, p);
        passes := passes + [p];
        if !goOn { return; }
        ghost var before := outside.comments;
        outside.Others();
        OthersKeepShown(before);
        ShownFromLater(u.cfg, outside.comments, outside.log, since, |outside.log|);
      }
      goOn := true;
    }
  }

  // Any number of processes one after another, each for any number of passes;
  // the lock file lets no two of them overlap. Each starts knowing nothing but
  // the mailbox. A request body to which one of them left a reply is never
  // posted for again (AtMostOneReply), though the same body may be tried once
  // by each process while no reply stands.
  method Restarts(u: Setup, outside: Outside, runs: seq<nat>)
    requires outside.responder == u.cfg.responder && Kept(u, outside.comments, outside.log)
    modifies outside
    ensures Kept(u, outside.comments, outside.log) && old(outside.log) <= outside.log
  {
    for i := 0 to |runs|
      invariant Kept(u, outside.comments, outside.log) && old(outside.log) <= outside.log
    {
      ghost var before := outside.comments;
      outside.Others();
      ShownLater(u.cfg, before, outside.comments, outside.log, |outside.log|);
      var process := new Answerer(u, outside);
      ghost var passes;
      var goOn;
      goOn, passes := process.Run(runs[i]);
    }
  }
}
