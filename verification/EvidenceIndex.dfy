/** One directory's evidence, classified once (cmd/corpus/evidence.go). The
    specification speaks of the listing as a collection of names; the index is
    built by loops over a sorted copy and over maps in any order. `Problem` is
    kept as a flag: its text is not modelled. */
module EvidenceIndex {
  import opened Wrappers
  import opened Text
  import opened EvidenceNames

  // ----- What each name is -----

  datatype Role = WholeStream | Piece | Artifact | Irrelevant

  // The streams a listing names: whole files, and streams with a well-formed
  // piece. A malformed piece invents none.
  function Identities(names: seq<string>): set<string> {
    (set n | n in names && IsStreamName(n)) +
        (set n | n in names && !IsStreamName(n) && WellFormedPart(n).Some? :: PartOf(n))
  }

  ghost function RoleOf(name: string, streams: set<string>): Role {
    if IsStreamName(name) then WholeStream
    else if Owners(name, streams) != {} then Artifact
    else if PartOf(name) != "" then Piece
    else Irrelevant
  }

  // ----- When a stream is certified -----

  ghost predicate ClaimsPiece(names: seq<string>, name: string, stream: string) {
    name in names && RoleOf(name, Identities(names)) == Piece && PartOf(name) == stream
  }

  // Some artifact in the listing belongs to this stream and to another.
  ghost predicate SharesAnArtifact(names: seq<string>, stream: string) {
    exists a, other :: a in names && RoleOf(a, Identities(names)) == Artifact && other != stream
                       && {stream, other} <= Owners(a, Identities(names))
  }

  ghost predicate WholeAndAlone(names: seq<string>, stream: string) {
    && stream in names && IsStreamName(stream)
    && (forall n :: n in names ==> !ClaimsPiece(names, n, stream))
    && !SharesAnArtifact(names, stream)
  }

  // Exactly the pieces 1..n, each once, each declaring n, and no other claim.
  ghost predicate SplitInto(names: seq<string>, stream: string, files: seq<string>) {
    && files != []
    && stream !in names
    && (forall k :: 0 <= k < |files| ==>
          && ClaimsPiece(names, files[k], stream) && multiset(names)[files[k]] == 1
          && WellFormedPart(files[k]) == Some(Part(files[k], k + 1, |files|)))
    && (forall n :: ClaimsPiece(names, n, stream) ==> n in files)
    && !SharesAnArtifact(names, stream)
  }

  ghost predicate Certified(names: seq<string>, stream: string, files: seq<string>) {
    || (files == [stream] && WholeAndAlone(names, stream))
    || SplitInto(names, stream, files)
  }

  // At most one list of files is certified for a stream.
  lemma CertifiedOnce(names: seq<string>, stream: string, f: seq<string>, g: seq<string>)
    requires Certified(names, stream, f) && Certified(names, stream, g)
    ensures f == g
  {
    if SplitInto(names, stream, f) && SplitInto(names, stream, g) {
      SplitOnce(names, stream, f, g);
    }
  }

  lemma Placed(names: seq<string>, stream: string, files: seq<string>, n: string)
    requires SplitInto(names, stream, files) && ClaimsPiece(names, n, stream)
    ensures WellFormedPart(n).Some? && WellFormedPart(n).value.total == |files|
    ensures 1 <= WellFormedPart(n).value.index <= |files| && files[WellFormedPart(n).value.index - 1] == n
  {
    var i :| 0 <= i < |files| && files[i] == n;
  }

  lemma SplitAgree(names: seq<string>, stream: string, f: seq<string>, g: seq<string>, k: nat)
    requires SplitInto(names, stream, f) && SplitInto(names, stream, g) && k < |g|
    ensures |f| == |g| && f[k] == g[k]
  {
    var n := g[k];
    assert ClaimsPiece(names, n, stream) && WellFormedPart(n) == Some(Part(n, k + 1, |g|));
    Placed(names, stream, f, n);
  }

  lemma SplitOnce(names: seq<string>, stream: string, f: seq<string>, g: seq<string>)
    requires SplitInto(names, stream, f) && SplitInto(names, stream, g)
    ensures f == g
  {
    SplitAgree(names, stream, f, g, 0);
    forall k | 0 <= k < |g| ensures f[k] == g[k] {
      SplitAgree(names, stream, f, g, k);
    }
  }

  // ----- The specification reads the listing as a collection -----

  lemma SameCollection(names: seq<string>, names': seq<string>)
    requires multiset(names) == multiset(names')
    ensures forall n :: n in names <==> n in names'
    ensures Identities(names) == Identities(names')
  {
    forall n ensures n in names <==> n in names' { assert n in multiset(names) <==> n in multiset(names'); }
  }

  lemma CertifiedIgnoresOrder(names: seq<string>, names': seq<string>, stream: string, files: seq<string>)
    requires multiset(names) == multiset(names')
    requires Certified(names, stream, files)
    ensures Certified(names', stream, files)
  {
    SameCollection(names, names');
    assert forall n :: ClaimsPiece(names, n, stream) <==> ClaimsPiece(names', n, stream);
    assert SharesAnArtifact(names, stream) <==> SharesAnArtifact(names', stream);
  }

  // ----- The index -----

  datatype Representation = Representation(whole: string, parts: seq<Part>, problem: bool)

  const NOTHING := Representation("", [], false)

  function FilesOf(streams: map<string, Representation>, stream: string): Option<seq<string>> {
    if stream !in streams || streams[stream].problem then None
    else if streams[stream].whole != "" then Some([streams[stream].whole])
    else Some(PartNames(streams[stream].parts))
  }

  function PartNames(parts: seq<Part>): (names: seq<string>)
    ensures |names| == |parts| && forall k :: 0 <= k < |parts| ==> names[k] == parts[k].name
  {
    seq(|parts|, k requires 0 <= k < |parts| => parts[k].name)
  }

  // What an index of a listing must say.
  ghost predicate Indexes(names: seq<string>, roles: map<string, Role>, streams: map<string, Representation>) {
    && roles.Keys == Elements(names)
    && (forall n :: n in names ==> roles[n] == RoleOf(n, Identities(names)))
    && (forall stream, files :: FilesOf(streams, stream) == Some(files) <==> Certified(names, stream, files))
  }

  // A success is never empty, and what it returns are files of the listing
  // that are the stream itself or pieces of it: no artifact, because a
  // well-formed piece is never one.
  lemma FilesAreEvidence(names: seq<string>, roles: map<string, Role>, streams: map<string, Representation>,
      stream: string)
    requires Indexes(names, roles, streams) && FilesOf(streams, stream).Some?
    ensures var files := FilesOf(streams, stream).value;
            && files != []
            && forall f :: f in files ==>
                 f in roles && if f == stream then roles[f] == WholeStream else roles[f] == Piece && PartOf(f) == stream
  {
    var files := FilesOf(streams, stream).value;
    assert Certified(names, stream, files);
    forall f | f in files
      ensures f in names && if f == stream then IsStreamName(f) else ClaimsPiece(names, f, stream)
    {
      var k :| 0 <= k < |files| && files[k] == f;
    }
  }

  // Ordering of the input cannot change the result: any two indexes of two
  // orderings of one listing agree on every role and on every stream's files.
  lemma IndexIgnoresOrder(
    names: seq<string>, roles: map<string, Role>, streams: map<string, Representation>,
    names': seq<string>, roles': map<string, Role>, streams': map<string, Representation>)
    requires multiset(names) == multiset(names')
    requires Indexes(names, roles, streams) && Indexes(names', roles', streams')
    ensures roles == roles'
    ensures forall stream :: FilesOf(streams, stream) == FilesOf(streams', stream)
  {
    SameCollection(names, names');
    forall stream ensures FilesOf(streams, stream) == FilesOf(streams', stream) {
      if FilesOf(streams, stream).Some? {
        CertifiedIgnoresOrder(names, names', stream, FilesOf(streams, stream).value);
      }
      if FilesOf(streams', stream).Some? {
        CertifiedIgnoresOrder(names', names, stream, FilesOf(streams', stream).value);
      }
    }
  }

  lemma IdentitiesAreStreams(names: seq<string>, s: string)
    requires s in Identities(names)
    ensures IsStreamName(s)
  {
    if s !in names || !IsStreamName(s) {
      var n :| n in names && !IsStreamName(n) && WellFormedPart(n).Some? && s == PartOf(n);
      PartOfIsTheLongest(n);
      assert n[..|s|] == s;
    }
  }

  // `a` is named from `b`, and from no longer stream name without its extension.
  ghost predicate NamedFrom(names: seq<string>, a: string, b: string) {
    !IsStreamName(a) && b + "." <= a && !ContainsMark(a[|b|..]) && NoneLonger(a, Identities(names), b)
  }

  lemma OwnedByEach(names: seq<string>, a: string, b: string, s: string)
    requires NamedFrom(names, a, b) && s in Identities(names) && StreamFrom(b, s)
    ensures s in Owners(a, Identities(names)) && RoleOf(a, Identities(names)) == Artifact
  {
    forall t | t in Identities(names) ensures IsStreamName(t) { IdentitiesAreStreams(names, t); }
    OwnersAre(a, Identities(names), b, s);
  }

  lemma SharesIt(names: seq<string>, a: string, s: string, t: string)
    requires a in names && RoleOf(a, Identities(names)) == Artifact && t != s
    requires s in Owners(a, Identities(names)) && t in Owners(a, Identities(names))
    ensures SharesAnArtifact(names, s)
  {
    assert {s, t} <= Owners(a, Identities(names));
  }

  lemma SharerHasNoFiles(names: seq<string>, roles: map<string, Role>, streams: map<string, Representation>,
      a: string, s: string, t: string)
    requires Indexes(names, roles, streams)
    requires a in names && RoleOf(a, Identities(names)) == Artifact && t != s
    requires s in Owners(a, Identities(names)) && t in Owners(a, Identities(names))
    ensures FilesOf(streams, s).None?
  {
    SharesIt(names, a, s, t);
    if FilesOf(streams, s).Some? { NotCertified(names, s, FilesOf(streams, s).value); }
  }

  lemma NotCertified(names: seq<string>, s: string, files: seq<string>)
    requires SharesAnArtifact(names, s)
    ensures !Certified(names, s, files)
  {
  }

  // Two streams that differ in their extension only share every artifact named
  // from what is left of them: while one is listed neither has files, present
  // whole or in pieces. An artifact of a longer stream name is not one of these.
  lemma SharedBaseRefusesBoth(names: seq<string>, roles: map<string, Role>, streams: map<string, Representation>,
      a: string, b: string, s: string, t: string)
    requires Indexes(names, roles, streams) && a in names && NamedFrom(names, a, b)
    requires s in Identities(names) && t in Identities(names) && StreamFrom(b, s) && StreamFrom(b, t) && s != t
    ensures roles[a] == Artifact && FilesOf(streams, s).None? && FilesOf(streams, t).None?
  {
    OwnedByEach(names, a, b, s);
    OwnedByEach(names, a, b, t);
    SharerHasNoFiles(names, roles, streams, a, s, t);
    SharerHasNoFiles(names, roles, streams, a, t, s);
  }

  lemma LogAndJsonl(b: string, log: string, jsonl: string)
    requires log == b + ".log" && jsonl == b + ".jsonl" && !HasSuffix(b, ".jsonl") && !HasSuffix(b, ".receipts")
    ensures IsStreamName(log) && IsStreamName(jsonl) && StreamFrom(b, log) && StreamFrom(b, jsonl) && log != jsonl
  {
    StreamNames(b);
    assert |log| != |jsonl|;
  }

  lemma WholeIsIdentity(names: seq<string>, s: string)
    requires s in names && IsStreamName(s)
    ensures s in Identities(names)
  {
  }

  // `A.run` beside `A.log` and `A.jsonl`.
  lemma LogAndJsonlShare(names: seq<string>, roles: map<string, Role>, streams: map<string, Representation>,
      b: string, log: string, jsonl: string, a: string)
    requires log == b + ".log" && jsonl == b + ".jsonl" && !HasSuffix(b, ".jsonl") && !HasSuffix(b, ".receipts")
    requires Indexes(names, roles, streams) && log in names && jsonl in names && a in names && NamedFrom(names, a, b)
    ensures FilesOf(streams, log).None? && FilesOf(streams, jsonl).None?
  {
    LogAndJsonl(b, log, jsonl);
    WholeIsIdentity(names, log);
    WholeIsIdentity(names, jsonl);
    SharedBaseRefusesBoth(names, roles, streams, a, b, log, jsonl);
  }

  // ----- Splitting a stream and indexing the pieces gives them back -----

  function Split(stream: string, n: nat): (pieces: seq<string>)
    ensures |pieces| == n
  {
    seq(n, k requires 0 <= k < n => PieceName(stream, k + 1, n))
  }

  lemma SplitNames(stream: string, n: nat, k: nat)
    requires k < n
    ensures Split(stream, n)[k] == PieceName(stream, k + 1, n)
  {
  }

  lemma PieceIs(stream: string, n: nat, x: string, k: nat)
    requires IsStreamName(stream) && 1 <= k <= n <= MAX_INT && x == PieceName(stream, k, n)
    ensures IsPieceOf(stream, n, x, k)
  {
    PieceReads(stream, k, n);
  }

  lemma SplitReads(stream: string, n: nat, k: nat)
    requires IsStreamName(stream) && k < n <= MAX_INT
    ensures IsPieceOf(stream, n, Split(stream, n)[k], k + 1)
  {
    SplitNames(stream, n, k);
    PieceIs(stream, n, Split(stream, n)[k], k + 1);
  }

  lemma SplitRepeatsNothing(stream: string, n: nat)
    requires IsStreamName(stream) && n <= MAX_INT
    ensures NoRepeats(Split(stream, n))
  {
    var pieces := Split(stream, n);
    forall i, j | 0 <= i < j < |pieces|
      ensures pieces[i] != pieces[j]
    {
      SplitReads(stream, n, i);
      SplitReads(stream, n, j);
      assert IsPieceOf(stream, n, pieces[i], i + 1) && IsPieceOf(stream, n, pieces[j], j + 1);
    }
  }

  lemma {:induction false} OnceEach(xs: seq<string>, k: nat)
    requires NoRepeats(xs) && k < |xs|
    ensures multiset(xs)[xs[k]] == 1
  {
    assert xs == xs[..k] + [xs[k]] + xs[k + 1..];
    assert xs[k] !in multiset(xs[..k]) && xs[k] !in multiset(xs[k + 1..]);
  }

  lemma SplitClaims(stream: string, n: nat, k: nat)
    requires IsStreamName(stream) && k < n <= MAX_INT
    ensures var pieces := Split(stream, n);
            && ClaimsPiece(pieces, pieces[k], stream) && multiset(pieces)[pieces[k]] == 1
            && WellFormedPart(pieces[k]) == Some(Part(pieces[k], k + 1, n))
            && pieces[k] != stream
            && RoleOf(pieces[k], Identities(pieces)) != Artifact
  {
    var pieces := Split(stream, n);
    SplitReads(stream, n, k);
    SplitRepeatsNothing(stream, n);
    PieceIsNoArtifact(pieces[k], Identities(pieces));
    OnceEach(pieces, k);
  }

  // Every entry of the listing is such a piece, and none is the stream itself.
  lemma SplitIsAllPieces(stream: string, n: nat, x: string)
    requires IsStreamName(stream) && n <= MAX_INT && x in Split(stream, n)
    ensures x != stream && RoleOf(x, Identities(Split(stream, n))) != Artifact
  {
    var k :| 0 <= k < n && Split(stream, n)[k] == x;
    SplitClaims(stream, n, k);
  }

  lemma SplitSharesNothing(stream: string, n: nat)
    requires IsStreamName(stream) && n <= MAX_INT
    ensures stream !in Split(stream, n) && !SharesAnArtifact(Split(stream, n), stream)
  {
    var pieces := Split(stream, n);
    forall x | x in pieces
      ensures x != stream && RoleOf(x, Identities(pieces)) != Artifact
    {
      SplitIsAllPieces(stream, n, x);
    }
  }

  lemma SplitCertifies(stream: string, n: nat)
    requires IsStreamName(stream) && 1 <= n <= MAX_INT
    ensures SplitInto(Split(stream, n), stream, Split(stream, n))
  {
    var pieces := Split(stream, n);
    SplitSharesNothing(stream, n);
    forall k | 0 <= k < n
      ensures ClaimsPiece(pieces, pieces[k], stream) && multiset(pieces)[pieces[k]] == 1
      ensures WellFormedPart(pieces[k]) == Some(Part(pieces[k], k + 1, n))
    {
      SplitClaims(stream, n, k);
    }
  }

  // For every n, above 999 too, and for every order of the listing.
  lemma SplitRoundTrip(stream: string, n: nat, names: seq<string>,
      roles: map<string, Role>, streams: map<string, Representation>)
    requires IsStreamName(stream) && 1 <= n <= MAX_INT
    requires multiset(names) == multiset(Split(stream, n))
    requires Indexes(names, roles, streams)
    ensures FilesOf(streams, stream) == Some(Split(stream, n))
  {
    var pieces := Split(stream, n);
    SplitCertifies(stream, n);
    CertifiedIgnoresOrder(pieces, names, stream, pieces);
  }

  // ----- What is refused -----

  // A stream whose every piece listed is out of range or otherwise malformed,
  // and that is not listed whole, is no stream of the listing; one well-formed
  // piece makes it one.
  lemma IdentityNeedsAFile(names: seq<string>, stream: string)
    requires stream in Identities(names)
    ensures stream in names || exists n :: n in names && PartOf(n) == stream && WellFormedPart(n).Some?
  {
    if stream !in names {
      var n :| n in names && !IsStreamName(n) && WellFormedPart(n).Some? && stream == PartOf(n);
    }
  }

  lemma PieceGivesIdentity(names: seq<string>, stream: string, k: nat, n: nat)
    requires IsStreamName(stream) && 1 <= k <= n <= MAX_INT && PieceName(stream, k, n) in names
    ensures stream in Identities(names)
  {
    PieceReads(stream, k, n);
  }

  // Some of the pieces are missing: whatever the order, there are no files.
  lemma TruncatedIsRefused(stream: string, n: nat, names: seq<string>, roles: map<string, Role>,
      streams: map<string, Representation>, missing: nat)
    requires IsStreamName(stream) && n <= MAX_INT && missing < n
    requires forall x :: x in names ==> x in Split(stream, n) && x != Split(stream, n)[missing]
    requires Indexes(names, roles, streams)
    ensures FilesOf(streams, stream).None?
  {
    if FilesOf(streams, stream).Some? {
      var files := FilesOf(streams, stream).value;
      assert Certified(names, stream, files);
      NotWhole(stream, n, names, files);
      FilesDeclareAll(stream, n, names, files);
      NoneIsMissing(stream, n, names, files, missing);
    }
  }

  lemma FileIs(names: seq<string>, stream: string, files: seq<string>, k: nat)
    requires SplitInto(names, stream, files) && k < |files|
    ensures files[k] in names && WellFormedPart(files[k]) == Some(Part(files[k], k + 1, |files|))
  {
    assert ClaimsPiece(names, files[k], stream);
  }

  function NumberOf(name: string): nat {
    var part := WellFormedPart(name);
    if part.Some? then part.value.index else 0
  }

  // In a list numbered in order, what has a number stands at its place.
  lemma AtItsNumber(names: seq<string>, number: string -> nat, x: string, k: nat)
    requires k < |names| && x in names && number(x) == k + 1
    requires forall j :: 0 <= j < |names| ==> number(names[j]) == j + 1
    ensures names[k] == x
  {
    var j :| 0 <= j < |names| && names[j] == x;
  }

  lemma NoneIsMissing(stream: string, n: nat, names: seq<string>, files: seq<string>, k: nat)
    requires IsStreamName(stream) && k < n <= MAX_INT && (forall x :: x in names ==> x in Split(stream, n))
    requires SplitInto(names, stream, files) && |files| == n
    ensures Split(stream, n)[k] in names
  {
    FileIs(names, stream, files, k);
    var pieces := Split(stream, n);
    forall j | 0 <= j < n ensures NumberOf(pieces[j]) == j + 1 { SplitReads(stream, n, j); }
    AtItsNumber(pieces, NumberOf, files[k], k);
  }

  lemma NotWhole(stream: string, n: nat, names: seq<string>, files: seq<string>)
    requires IsStreamName(stream) && n <= MAX_INT && (forall x :: x in names ==> x in Split(stream, n))
    requires Certified(names, stream, files)
    ensures SplitInto(names, stream, files)
  {
    if stream in names {
      var k :| 0 <= k < n && Split(stream, n)[k] == stream;
      SplitReads(stream, n, k);
    }
  }

  lemma FilesDeclareAll(stream: string, n: nat, names: seq<string>, files: seq<string>)
    requires IsStreamName(stream) && n <= MAX_INT && (forall x :: x in names ==> x in Split(stream, n))
    requires SplitInto(names, stream, files)
    ensures |files| == n
  {
    var x := files[0];
    assert ClaimsPiece(names, x, stream) && WellFormedPart(x) == Some(Part(x, 1, |files|));
    var k :| 0 <= k < n && Split(stream, n)[k] == x;
    SplitReads(stream, n, k);
  }

  // A stream listed whole beside a piece of it, well-formed or not, has no
  // files; nor has a stream in pieces beside a malformed one.
  lemma OtherClaimsRefuse(names: seq<string>, roles: map<string, Role>, streams: map<string, Representation>,
      stream: string, n: string)
    requires Indexes(names, roles, streams) && n in names && roles[n] == Piece && PartOf(n) == stream
    requires stream in names || WellFormedPart(n).None?
    ensures FilesOf(streams, stream).None?
  {
    assert ClaimsPiece(names, n, stream);
    if FilesOf(streams, stream).Some? {
      var files := FilesOf(streams, stream).value;
      assert Certified(names, stream, files);
      if SplitInto(names, stream, files) { Placed(names, stream, files, n); }
    }
  }

  // A stream that is listed whole, of which nothing claims to be a piece, and
  // beside which no stream has the same name but for its extension, is read.
  lemma LoneStreamIsRead(names: seq<string>, roles: map<string, Role>, streams: map<string, Representation>,
      b: string, stream: string)
    requires Indexes(names, roles, streams) && stream in names && IsStreamName(stream) && StreamFrom(b, stream)
    requires forall n :: n in names ==> PartOf(n) != stream
    requires forall t :: t in Identities(names) && StreamFrom(b, t) ==> t == stream
    ensures FilesOf(streams, stream) == Some([stream])
  {
    assert WholeAndAlone(names, stream) by {
      if SharesAnArtifact(names, stream) {
        var a, other :| a in names && RoleOf(a, Identities(names)) == Artifact && other != stream
                        && {stream, other} <= Owners(a, Identities(names));
        OwnersHaveOneBase(a, Identities(names), stream, other);
        IdentitiesAreStreams(names, other);
        BaseIs(b, stream);
        BaseIs(b, other);
      }
    }
    assert Certified(names, stream, [stream]);
  }
}
