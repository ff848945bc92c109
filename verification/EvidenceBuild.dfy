/** BuildEvidenceIndex and Files as the program runs them (cmd/corpus/evidence.go),
    proved to index the listing whatever order the names, the sort of the
    pieces and the map iterations come in. */
module EvidenceBuild {
  import opened Wrappers
  import opened Text
  import opened EvidenceNames
  import opened EvidenceIndex

  // ----- Pieces in numeric order -----

  ghost predicate InOrder(parts: seq<Part>) {
    forall i, j :: 0 <= i < j < |parts| ==> parts[i].index <= parts[j].index
  }

  function InsertPart(p: Part, parts: seq<Part>): (r: seq<Part>)
    ensures multiset(r) == multiset(parts) + multiset{p}
  {
    if parts == [] then [p]
    else if p.index <= parts[0].index then [p] + parts
    else
      assert parts == [parts[0]] + parts[1..];
      [parts[0]] + InsertPart(p, parts[1..])
  }

  lemma {:induction false} InsertPartKeepsOrder(p: Part, parts: seq<Part>)
    requires InOrder(parts)
    ensures InOrder(InsertPart(p, parts))
  {
    if parts != [] && parts[0].index < p.index {
      InsertPartKeepsOrder(p, parts[1..]);
      var rest := InsertPart(p, parts[1..]);
      forall q | q in rest ensures parts[0].index <= q.index {
        assert q in multiset(rest);
        if q != p { assert q in parts[1..]; }
      }
    }
  }

  // sort.Slice is not stable: of equal indexes either may come first, and
  // nothing below relies on which.
  method SortParts(parts: seq<Part>) returns (sorted: seq<Part>)
    ensures InOrder(sorted) && multiset(sorted) == multiset(parts)
  {
    sorted := [];
    for i := 0 to |parts|
      invariant InOrder(sorted) && multiset(sorted) == multiset(parts[..i])
    {
      assert parts[..i + 1] == parts[..i] + [parts[i]];
      InsertPartKeepsOrder(parts[i], sorted);
      sorted := InsertPart(parts[i], sorted);
    }
    assert parts[..|parts|] == parts;
  }

  ghost predicate Complete(parts: seq<Part>) {
    && parts != [] && |parts| == parts[0].total
    && forall i :: 0 <= i < |parts| ==> parts[i].total == parts[0].total && parts[i].index == i + 1
  }

  method CheckPieces(parts: seq<Part>) returns (problem: bool)
    requires parts != []
    ensures problem <==> !Complete(parts)
  {
    problem := false;
    var declared := parts[0].total;
    for i := 0 to |parts|
      invariant !problem
      invariant forall j :: 0 <= j < i ==> parts[j].total == declared && parts[j].index == j + 1
    {
      if parts[i].total != declared { return true; }
      if parts[i].index != i + 1 { return true; }
    }
    if |parts| != declared { problem := true; }
  }

  ghost predicate Ascending(parts: seq<Part>) {
    forall i, j :: 0 <= i < j < |parts| ==> parts[i].index < parts[j].index
  }

  lemma FirstAgrees(parts: seq<Part>, numbered: seq<Part>)
    requires InOrder(parts) && Ascending(numbered) && parts != [] && numbered != []
    requires numbered[0] in parts && parts[0] in numbered
    ensures parts[0] == numbered[0]
  {
    var i :| 0 <= i < |parts| && parts[i] == numbered[0];
    var j :| 0 <= j < |numbered| && numbered[j] == parts[0];
    assert parts[0].index <= parts[i].index;
  }

  lemma {:induction false} OrderUnique(parts: seq<Part>, numbered: seq<Part>)
    requires InOrder(parts) && multiset(parts) == multiset(numbered) && Ascending(numbered)
    ensures parts == numbered
  {
    if numbered == [] {
      assert |multiset(parts)| == 0;
    } else {
      assert numbered[0] in multiset(parts) && parts != [];
      assert parts[0] in multiset(numbered);
      FirstAgrees(parts, numbered);
      TailsMatch(parts, numbered);
      OrderUnique(parts[1..], numbered[1..]);
    }
  }

  lemma OnceByIndex(parts: seq<Part>, k: nat)
    requires k < |parts| && Ascending(parts)
    ensures multiset(parts)[parts[k]] == 1
  {
    assert parts == parts[..k] + [parts[k]] + parts[k + 1..];
    assert parts[k] !in multiset(parts[..k]) && parts[k] !in multiset(parts[k + 1..]);
  }

  // ----- What the names read so far say about one stream -----

  ghost predicate IsPiece(n: string, ids: set<string>, s: string) {
    RoleOf(n, ids) == Piece && PartOf(n) == s
  }

  ghost predicate SharedBy(a: string, ids: set<string>, s: string) {
    RoleOf(a, ids) == Artifact && exists other :: other != s && {s, other} <= Owners(a, ids)
  }

  ghost predicate Whole(names: seq<string>, s: string) { s in names && IsStreamName(s) }

  ghost predicate Malformed(names: seq<string>, ids: set<string>, s: string) {
    exists n :: n in names && IsPiece(n, ids, s) && WellFormedPart(n).None?
  }

  ghost predicate Shared(names: seq<string>, ids: set<string>, s: string) {
    exists a :: a in names && SharedBy(a, ids, s)
  }

  ghost function Gathered(names: seq<string>, ids: set<string>, s: string): seq<Part> {
    if names == [] then []
    else
      var n := names[|names| - 1];
      var before := Gathered(names[..|names| - 1], ids, s);
      if IsPiece(n, ids, s) && WellFormedPart(n).Some? then before + [WellFormedPart(n).value] else before
  }

  ghost predicate Touched(names: seq<string>, ids: set<string>, s: string) {
    Whole(names, s) || Shared(names, ids, s) || Malformed(names, ids, s) || Gathered(names, ids, s) != []
  }

  ghost function RowOf(names: seq<string>, ids: set<string>, s: string): Representation {
    Representation(if Whole(names, s) then s else "", [], Shared(names, ids, s))
  }

  lemma Grow(names: seq<string>, n: string, ids: set<string>, s: string)
    ensures Whole(names + [n], s) <==> Whole(names, s) || (n == s && IsStreamName(n))
    ensures Shared(names + [n], ids, s) <==> Shared(names, ids, s) || SharedBy(n, ids, s)
    ensures Malformed(names + [n], ids, s) <==>
              Malformed(names, ids, s) || (IsPiece(n, ids, s) && WellFormedPart(n).None?)
    ensures Gathered(names + [n], ids, s) ==
              Gathered(names, ids, s) +
                  (if IsPiece(n, ids, s) && WellFormedPart(n).Some? then [WellFormedPart(n).value] else [])
  {
    assert (names + [n])[..|names|] == names;
  }

  lemma {:induction false} GatheredCounts(names: seq<string>, ids: set<string>, s: string, p: Part)
    ensures multiset(Gathered(names, ids, s))[p] ==
              if IsPiece(p.name, ids, s) && WellFormedPart(p.name) == Some(p) then multiset(names)[p.name] else 0
  {
    if names == [] {
    } else {
      var n := names[|names| - 1];
      assert names == names[..|names| - 1] + [n];
      GatheredCounts(names[..|names| - 1], ids, s, p);
    }
  }

  // ----- The certificate of one stream -----

  // What the index holds for a stream after the last loop.
  ghost predicate Settled(names: seq<string>, ids: set<string>, s: string, streams: map<string, Representation>) {
    && (s in streams <==> Touched(names, ids, s))
    && (s in streams ==>
          var refused := Shared(names, ids, s) || Malformed(names, ids, s);
          if refused || Gathered(names, ids, s) == [] then
            streams[s] == RowOf(names, ids, s).(problem := refused)
          else
            && InOrder(streams[s].parts) && multiset(streams[s].parts) == multiset(Gathered(names, ids, s))
            && streams[s].whole == RowOf(names, ids, s).whole
            && (streams[s].problem <==> streams[s].whole != "" || !Complete(streams[s].parts)))
  }

  lemma ClaimIsGathered(names: seq<string>, ids: set<string>, s: string, n: string)
    requires n in names && IsPiece(n, ids, s) && WellFormedPart(n).Some?
    ensures multiset(Gathered(names, ids, s))[WellFormedPart(n).value] == multiset(names)[n]
    ensures WellFormedPart(n).value in Gathered(names, ids, s)
  {
    GatheredCounts(names, ids, s, WellFormedPart(n).value);
  }

  lemma GatheredIsClaim(names: seq<string>, ids: set<string>, s: string, p: Part)
    requires p in Gathered(names, ids, s)
    ensures p.name in names && IsPiece(p.name, ids, s) && WellFormedPart(p.name) == Some(p)
    ensures multiset(Gathered(names, ids, s))[p] == multiset(names)[p.name]
  {
    GatheredCounts(names, ids, s, p);
    assert p in multiset(Gathered(names, ids, s));
  }

  lemma SharedIs(names: seq<string>, s: string)
    ensures Shared(names, Identities(names), s) <==> SharesAnArtifact(names, s)
  {
    var ids := Identities(names);
    if Shared(names, ids, s) {
      var a :| a in names && SharedBy(a, ids, s);
      var other :| other != s && {s, other} <= Owners(a, ids);
    }
  }

  lemma ClaimIsListed(names: seq<string>, ids: set<string>, s: string, parts: seq<Part>, n: string)
    requires multiset(parts) == multiset(Gathered(names, ids, s)) && !Malformed(names, ids, s)
    requires n in names && IsPiece(n, ids, s)
    ensures n in PartNames(parts)
  {
    ClaimIsGathered(names, ids, s, n);
    var p := WellFormedPart(n).value;
    assert p in multiset(parts);
    var k :| 0 <= k < |parts| && parts[k] == p;
    assert PartNames(parts)[k] == n;
  }

  lemma CompleteSplits(names: seq<string>, s: string, parts: seq<Part>)
    requires var ids := Identities(names);
             && multiset(parts) == multiset(Gathered(names, ids, s))
             && !Shared(names, ids, s) && !Malformed(names, ids, s) && !Whole(names, s)
    requires Complete(parts)
    ensures SplitInto(names, s, PartNames(parts))
  {
    var ids := Identities(names);
    var files := PartNames(parts);
    forall k | 0 <= k < |files|
      ensures IsPiece(files[k], ids, s) && files[k] in names && multiset(names)[files[k]] == 1
      ensures WellFormedPart(files[k]) == Some(Part(files[k], k + 1, |files|))
    {
      PartFacts(names, ids, s, parts, k);
    }
    forall n | ClaimsPiece(names, n, s) ensures n in files {
      ClaimIsListed(names, ids, s, parts, n);
    }
    SharedIs(names, s);
    PieceStreamIsName(names, ids, s, files[0]);
  }

  lemma PieceStreamIsName(names: seq<string>, ids: set<string>, s: string, n: string)
    requires IsPiece(n, ids, s)
    ensures IsStreamName(s)
  {
    PartOfIsTheLongest(n);
  }

  lemma PartFacts(names: seq<string>, ids: set<string>, s: string, parts: seq<Part>, k: nat)
    requires multiset(parts) == multiset(Gathered(names, ids, s)) && Complete(parts) && k < |parts|
    ensures var p := parts[k];
            && p == Part(p.name, k + 1, |parts|) && p.name in names && IsPiece(p.name, ids, s)
            && WellFormedPart(p.name) == Some(p) && multiset(names)[p.name] == 1
  {
    var p := parts[k];
    assert p in multiset(parts);
    GatheredIsClaim(names, ids, s, p);
    OnceByIndex(parts, k);
  }

  function Numbered(files: seq<string>): (parts: seq<Part>)
    ensures |parts| == |files| && forall k :: 0 <= k < |files| ==> parts[k] == Part(files[k], k + 1, |files|)
  {
    seq(|files|, k requires 0 <= k < |files| => Part(files[k], k + 1, |files|))
  }

  lemma NumberedOnce(files: seq<string>, k: nat)
    requires k < |files|
    ensures multiset(Numbered(files))[Part(files[k], k + 1, |files|)] == 1
  {
    OnceByIndex(Numbered(files), k);
  }

  lemma GatheredIsNumbered(names: seq<string>, s: string, files: seq<string>, p: Part)
    requires SplitInto(names, s, files)
    ensures multiset(Gathered(names, Identities(names), s))[p] == multiset(Numbered(files))[p]
  {
    var g, t := Gathered(names, Identities(names), s), Numbered(files);
    if p in g {
      GatheredIsClaim(names, Identities(names), s, p);
      Placed(names, s, files, p.name);
      NumberedOnce(files, p.index - 1);
    } else if p in t {
      var k :| 0 <= k < |t| && t[k] == p;
      assert ClaimsPiece(names, files[k], s);
      ClaimIsGathered(names, Identities(names), s, files[k]);
    }
  }

  lemma SplitGathers(names: seq<string>, s: string, files: seq<string>)
    requires SplitInto(names, s, files)
    ensures multiset(Gathered(names, Identities(names), s)) == multiset(Numbered(files))
    ensures !Malformed(names, Identities(names), s)
  {
    forall p ensures multiset(Gathered(names, Identities(names), s))[p] == multiset(Numbered(files))[p] {
      GatheredIsNumbered(names, s, files, p);
    }
    forall n | n in names && IsPiece(n, Identities(names), s) ensures WellFormedPart(n).Some? {
      Placed(names, s, files, n);
    }
  }

  lemma SettledCertifies(names: seq<string>, s: string, streams: map<string, Representation>)
    requires Settled(names, Identities(names), s, streams)
    requires FilesOf(streams, s).Some?
    ensures Certified(names, s, FilesOf(streams, s).value)
  {
    var ids := Identities(names);
    SharedIs(names, s);
    assert !IsStreamName("");
    if streams[s].whole != "" {
      forall n | n in names ensures !ClaimsPiece(names, n, s) {
        if IsPiece(n, ids, s) && WellFormedPart(n).Some? { ClaimIsGathered(names, ids, s, n); }
      }
      assert WholeAndAlone(names, s);
    } else {
      CompleteSplits(names, s, streams[s].parts);
    }
  }

  lemma NumberedIsComplete(files: seq<string>)
    requires files != []
    ensures Complete(Numbered(files)) && Ascending(Numbered(files)) && PartNames(Numbered(files)) == files
  {
  }

  lemma SplitIsSettled(names: seq<string>, s: string, streams: map<string, Representation>, files: seq<string>)
    requires Settled(names, Identities(names), s, streams)
    requires SplitInto(names, s, files)
    ensures FilesOf(streams, s) == Some(files)
  {
    SharedIs(names, s);
    SplitGathers(names, s, files);
    NumberedIsComplete(files);
    assert Numbered(files)[0] in multiset(Numbered(files));
    assert Gathered(names, Identities(names), s) != [];
    SettledSplit(names, Identities(names), s, streams, Numbered(files));
  }

  lemma SettledSplit(names: seq<string>, ids: set<string>, s: string, streams: map<string, Representation>,
      t: seq<Part>)
    requires Settled(names, ids, s, streams)
    requires !Shared(names, ids, s) && !Malformed(names, ids, s) && !Whole(names, s) && Gathered(names, ids, s) != []
    requires Complete(t) && Ascending(t) && multiset(t) == multiset(Gathered(names, ids, s))
    ensures FilesOf(streams, s) == Some(PartNames(t))
  {
    OrderUnique(streams[s].parts, t);
  }

  lemma WholeIsSettled(names: seq<string>, s: string, streams: map<string, Representation>)
    requires Settled(names, Identities(names), s, streams)
    requires WholeAndAlone(names, s)
    ensures FilesOf(streams, s) == Some([s])
  {
    SharedIs(names, s);
    assert !IsStreamName("");
    assert forall n :: n in names && IsPiece(n, Identities(names), s) ==> ClaimsPiece(names, n, s);
    NoClaimsNothingGathered(names, s);
  }

  lemma NoClaimsNothingGathered(names: seq<string>, s: string)
    requires forall n :: n in names ==> !ClaimsPiece(names, n, s)
    ensures Gathered(names, Identities(names), s) == []
  {
    var g := Gathered(names, Identities(names), s);
    if g != [] {
      GatheredIsClaim(names, Identities(names), s, g[0]);
      assert ClaimsPiece(names, g[0].name, s);
    }
  }

  lemma SettledIndexes(names: seq<string>, roles: map<string, Role>, streams: map<string, Representation>)
    requires roles.Keys == Elements(names)
    requires forall n :: n in names ==> roles[n] == RoleOf(n, Identities(names))
    requires forall s :: Settled(names, Identities(names), s, streams)
    ensures Indexes(names, roles, streams)
  {
    forall s, files ensures FilesOf(streams, s) == Some(files) <==> Certified(names, s, files) {
      if FilesOf(streams, s).Some? { SettledCertifies(names, s, streams); }
      if SplitInto(names, s, files) { SplitIsSettled(names, s, streams, files); }
      if files == [s] && WholeAndAlone(names, s) { WholeIsSettled(names, s, streams); }
      if FilesOf(streams, s).Some? && Certified(names, s, files) {
        CertifiedOnce(names, s, files, FilesOf(streams, s).value);
      }
    }
  }

  // ----- The loops -----

  // What the maps hold about one stream once these names have been read.
  ghost predicate Row(names: seq<string>, ids: set<string>, s: string, streams: map<string, Representation>,
      claims: map<string, seq<Part>>, malformed: map<string, seq<string>>) {
    && (s in streams <==> Touched(names, ids, s))
    && (s in streams ==> streams[s] == RowOf(names, ids, s))
    && (s in malformed <==> Malformed(names, ids, s))
    && (s in claims <==> Gathered(names, ids, s) != [])
    && (s in claims ==> claims[s] == Gathered(names, ids, s))
  }

  method Dedupe(xs: seq<string>) returns (out: seq<string>)
    ensures NoRepeats(out) && Elements(out) == Elements(xs)
  {
    var seen: set<string> := {};
    out := [];
    for i := 0 to |xs|
      invariant NoRepeats(out) && seen == Elements(out) == Elements(xs[..i])
    {
      assert xs[..i + 1] == xs[..i] + [xs[i]];
      if xs[i] !in seen {
        seen := seen + {xs[i]};
        out := out + [xs[i]];
      }
    }
    assert xs[..|xs|] == xs;
  }

  method CollectIdentities(sorted: seq<string>) returns (identities: seq<string>)
    ensures NoRepeats(identities) && Elements(identities) == Identities(sorted)
  {
    identities := [];
    for i := 0 to |sorted|
      invariant Elements(identities) == Identities(sorted[..i])
    {
      var name := sorted[i];
      assert sorted[..i + 1] == sorted[..i] + [name];
      IdentitiesGrow(sorted[..i], name);
      if IsStreamName(name) {
        identities := identities + [name];
        continue;
      }
      if WellFormedPart(name).Some? {
        var logical := ComputePartOf(name);
        identities := identities + [logical];
      }
    }
    assert sorted[..|sorted|] == sorted;
    identities := Dedupe(identities);
  }

  lemma IdentitiesGrow(names: seq<string>, n: string)
    ensures Identities(names + [n]) == Identities(names) +
              (if IsStreamName(n) then {n} else if WellFormedPart(n).Some? then {PartOf(n)} else {})
  {
    var added := if IsStreamName(n) then {n} else if WellFormedPart(n).Some? then {PartOf(n)} else {};
    forall s ensures s in Identities(names + [n]) <==> s in Identities(names) + added {
      assert forall x :: x in names + [n] <==> x in names || x == n;
    }
  }

  class Index {
    var streams: map<string, Representation>
    var roles: map<string, Role>

    // The representation of a stream, created empty when it is first needed.
    method Represent(logical: string)
      modifies this
      ensures roles == old(roles)
      ensures streams == if logical in old(streams) then old(streams) else old(streams)[logical := NOTHING]
    {
      if logical !in streams { streams := streams[logical := NOTHING]; }
    }

    method RefuseOwners(owners: seq<string>)
      modifies this
      ensures roles == old(roles)
      ensures streams.Keys == old(streams).Keys + Elements(owners)
      ensures forall s :: s in streams ==>
                var before := if s in old(streams) then old(streams)[s] else NOTHING;
                streams[s] == if s in owners then before.(problem := true) else before
    {
      for i := 0 to |owners|
        invariant roles == old(roles)
        invariant streams.Keys == old(streams).Keys + Elements(owners[..i])
        invariant forall s :: s in streams ==>
                    var before := if s in old(streams) then old(streams)[s] else NOTHING;
                    streams[s] == if s in owners[..i] then before.(problem := true) else before
      {
        assert owners[..i + 1] == owners[..i] + [owners[i]];
        Represent(owners[i]);
        streams := streams[owners[i] := streams[owners[i]].(problem := true)];
      }
      assert owners[..|owners|] == owners;
    }

    method ClassifyStream(name: string, ghost ids: set<string>, ghost claims: map<string, seq<Part>>,
        ghost malformed: map<string, seq<string>>, ghost names: seq<string>)
      requires IsStreamName(name)
      requires forall s :: Row(names, ids, s, streams, claims, malformed)
      modifies this
      ensures roles == old(roles)[name := WholeStream]
      ensures forall s :: Row(names + [name], ids, s, streams, claims, malformed)
    {
      roles := roles[name := WholeStream];
      assert Row(names, ids, name, streams, claims, malformed) && !IsStreamName("");
      Represent(name);
      var rep := streams[name];
      if rep.whole != "" && rep.whole != name { rep := rep.(problem := true); }
      streams := streams[name := rep.(whole := name)];
      forall s ensures Row(names + [name], ids, s, streams, claims, malformed) {
        Grow(names, name, ids, s);
        assert Row(names, ids, s, old(streams), claims, malformed);
      }
    }

    // At most one owner: two streams sharing a base share every artifact built
    // from it, and neither may be read on its strength.
    method ClassifyArtifact(name: string, owners: seq<string>, ghost ids: set<string>,
        ghost claims: map<string, seq<Part>>,
        ghost malformed: map<string, seq<string>>, ghost names: seq<string>)
      requires !IsStreamName(name) && owners != [] && NoRepeats(owners) && Elements(owners) == Owners(name, ids)
      requires forall s :: Row(names, ids, s, streams, claims, malformed)
      modifies this
      ensures roles == old(roles)[name := Artifact]
      ensures forall s :: Row(names + [name], ids, s, streams, claims, malformed)
    {
      roles := roles[name := Artifact];
      if |owners| > 1 { RefuseOwners(owners); }
      assert owners[0] in Elements(owners);
      forall s ensures Row(names + [name], ids, s, streams, claims, malformed) {
        Grow(names, name, ids, s);
        SharedByCount(name, ids, s, owners);
        assert Row(names, ids, s, old(streams), claims, malformed);
      }
    }

    method ClassifyPiece(name: string, logical: string, claims: map<string, seq<Part>>,
        malformed: map<string, seq<string>>, ghost ids: set<string>, ghost names: seq<string>)
      returns (claims': map<string, seq<Part>>, malformed': map<string, seq<string>>)
      requires RoleOf(name, ids) == Piece && PartOf(name) == logical
      requires forall s :: Row(names, ids, s, streams, claims, malformed)
      modifies this
      ensures roles == old(roles)[name := Piece]
      ensures forall s :: Row(names + [name], ids, s, streams, claims', malformed')
    {
      claims', malformed' := claims, malformed;
      roles := roles[name := Piece];
      var part := WellFormedPart(name);
      assert Row(names, ids, logical, streams, claims, malformed);
      if part.None? {
        malformed' := malformed[logical := (if logical in malformed then malformed[logical] else []) + [name]];
      } else {
        claims' := claims[logical := (if logical in claims then claims[logical] else []) + [part.value]];
      }
      Represent(logical);
      forall s ensures Row(names + [name], ids, s, streams, claims', malformed') {
        Grow(names, name, ids, s);
        assert Row(names, ids, s, old(streams), claims, malformed);
      }
    }

    // One name: exactly one role.
    method Classify(name: string, identities: seq<string>, claims: map<string, seq<Part>>,
        malformed: map<string, seq<string>>, ghost names: seq<string>)
      returns (claims': map<string, seq<Part>>, malformed': map<string, seq<string>>)
      requires NoRepeats(identities)
      requires forall s :: Row(names, Elements(identities), s, streams, claims, malformed)
      modifies this
      ensures roles == old(roles)[name := RoleOf(name, Elements(identities))]
      ensures forall s :: Row(names + [name], Elements(identities), s, streams, claims', malformed')
    {
      claims', malformed' := claims, malformed;
      ghost var ids := Elements(identities);
      if IsStreamName(name) {
        ClassifyStream(name, ids, claims, malformed, names);
        return;
      }
      var owners := ArtifactOwners(name, identities);
      if |owners| != 0 {
        assert owners[0] in Elements(owners);
        ClassifyArtifact(name, owners, ids, claims, malformed, names);
        return;
      }
      var logical := ComputePartOf(name);
      if logical != "" {
        claims', malformed' := ClassifyPiece(name, logical, claims, malformed, ids, names);
        return;
      }
      roles := roles[name := Irrelevant];
      forall s ensures Row(names + [name], ids, s, streams, claims, malformed) {
        Grow(names, name, ids, s);
        assert Row(names, ids, s, old(streams), claims, malformed);
        if IsPiece(name, ids, s) { assert false; }
      }
    }

    // A malformed piece refuses its stream, whatever order the map is read in.
    method RefuseMalformed(malformed: map<string, seq<string>>)
      requires malformed.Keys <= streams.Keys
      modifies this
      ensures roles == old(roles) && streams.Keys == old(streams).Keys
      ensures forall s :: s in streams ==>
                streams[s] == if s in malformed then old(streams)[s].(problem := true) else old(streams)[s]
    {
      var todo := malformed.Keys;
      while todo != {}
        invariant todo <= malformed.Keys
        invariant roles == old(roles) && streams.Keys == old(streams).Keys
        invariant forall s :: s in streams ==>
                    streams[s] ==
                        if s in malformed.Keys - todo then old(streams)[s].(problem := true) else old(streams)[s]
        decreases todo
      {
        var logical :| logical in todo;
        streams := streams[logical := streams[logical].(problem := true)];
        todo := todo - {logical};
      }
    }

    // Law 2 over one stream's pieces.
    ghost predicate CertifiedFrom(before: Representation, gathered: seq<Part>, after: Representation) {
      if before.problem then after == before
      else
        && InOrder(after.parts) && multiset(after.parts) == multiset(gathered) && after.whole == before.whole
        && (after.problem <==> after.whole != "" || !Complete(after.parts))
    }

    method CertifyOne(rep: Representation, gathered: seq<Part>) returns (after: Representation)
      requires gathered != []
      ensures CertifiedFrom(rep, gathered, after)
    {
      if rep.problem { return rep; }
      var parts := SortParts(gathered);
      assert |multiset(parts)| == |multiset(gathered)|;
      after := rep.(parts := parts);
      if after.whole != "" { return after.(problem := true); }
      var problem := CheckPieces(parts);
      after := after.(problem := problem);
    }

    method CertifyClaims(claims: map<string, seq<Part>>)
      requires claims.Keys <= streams.Keys && forall s :: s in claims ==> claims[s] != []
      modifies this
      ensures roles == old(roles) && streams.Keys == old(streams).Keys
      ensures forall s :: s in streams ==>
                if s in claims then CertifiedFrom(old(streams)[s], claims[s], streams[s])
                else streams[s] == old(streams)[s]
    {
      var todo := claims.Keys;
      while todo != {}
        invariant todo <= claims.Keys
        invariant roles == old(roles) && streams.Keys == old(streams).Keys
        invariant forall s :: s in streams ==>
                    if s in claims.Keys - todo then CertifiedFrom(old(streams)[s], claims[s], streams[s])
                    else streams[s] == old(streams)[s]
        decreases todo
      {
        var logical :| logical in todo;
        var after := CertifyOne(streams[logical], claims[logical]);
        streams := streams[logical := after];
        todo := todo - {logical};
      }
    }

    method ClassifyAll(sorted: seq<string>)
      returns (claims: map<string, seq<Part>>, malformed: map<string, seq<string>>)
      requires streams == map[] && roles == map[]
      modifies this
      ensures roles.Keys == Elements(sorted)
      ensures forall n :: n in sorted ==> roles[n] == RoleOf(n, Identities(sorted))
      ensures forall s :: Row(sorted, Identities(sorted), s, streams, claims, malformed)
    {
      var identities := CollectIdentities(sorted);
      claims, malformed := map[], map[];
      for i := 0 to |sorted|
        invariant roles.Keys == Elements(sorted[..i])
        invariant forall n :: n in roles ==> roles[n] == RoleOf(n, Elements(identities))
        invariant forall s :: Row(sorted[..i], Elements(identities), s, streams, claims, malformed)
      {
        assert sorted[..i + 1] == sorted[..i] + [sorted[i]];
        claims, malformed := Classify(sorted[i], identities, claims, malformed, sorted[..i]);
      }
      assert sorted[..|sorted|] == sorted;
    }

    constructor Build(names: seq<string>)
      ensures Indexes(names, roles, streams)
    {
      streams, roles := map[], map[];
      new;
      var sorted := SortStrings(names);
      var claims, malformed := ClassifyAll(sorted);
      ghost var ids, rows := Identities(sorted), streams;
      forall s
        ensures (s in malformed ==> s in streams) && (s in claims ==> s in streams && claims[s] != [])
      {
        assert Row(sorted, ids, s, rows, claims, malformed);
      }
      RefuseMalformed(malformed);
      CertifyClaims(claims);
      forall s ensures Settled(sorted, ids, s, streams) {
        assert Row(sorted, ids, s, rows, claims, malformed);
      }
      SettledIndexes(sorted, roles, streams);
      Reindex(sorted, names, roles, streams);
    }

    // The physical files of a stream, in order, or why not.
    method Files(stream: string) returns (files: Option<seq<string>>)
      ensures files == FilesOf(streams, stream)
    {
      if stream !in streams { return None; }
      var rep := streams[stream];
      if rep.problem { return None; }
      if rep.whole != "" { return Some([rep.whole]); }
      var out: seq<string> := [];
      for i := 0 to |rep.parts|
        invariant out == PartNames(rep.parts)[..i]
      {
        out := out + [rep.parts[i].name];
      }
      assert PartNames(rep.parts)[..|rep.parts|] == PartNames(rep.parts);
      files := Some(out);
    }
  }

  lemma Reindex(sorted: seq<string>, names: seq<string>, roles: map<string, Role>, streams: map<string, Representation>)
    requires multiset(sorted) == multiset(names) && Indexes(sorted, roles, streams)
    ensures Indexes(names, roles, streams)
  {
    SameCollection(sorted, names);
    forall stream, files ensures Certified(sorted, stream, files) <==> Certified(names, stream, files) {
      if Certified(sorted, stream, files) { CertifiedIgnoresOrder(sorted, names, stream, files); }
      if Certified(names, stream, files) { CertifiedIgnoresOrder(names, sorted, stream, files); }
    }
  }

  lemma SharedByCount(a: string, ids: set<string>, s: string, owners: seq<string>)
    requires NoRepeats(owners) && Elements(owners) == Owners(a, ids) && owners != [] && !IsStreamName(a)
    ensures SharedBy(a, ids, s) <==> |owners| > 1 && s in owners
  {
    assert owners[0] in Elements(owners);
    if |owners| > 1 && s in owners {
      var other := if owners[0] == s then owners[1] else owners[0];
      assert other in Elements(owners) && s in Elements(owners);
      assert other != s && {s, other} <= Owners(a, ids);
    }
    if SharedBy(a, ids, s) {
      var other :| other != s && {s, other} <= Owners(a, ids);
      assert s in Elements(owners) && other in Elements(owners);
      var i, j :| 0 <= i < |owners| && 0 <= j < |owners| && owners[i] == s && owners[j] == other;
    }
  }
}
