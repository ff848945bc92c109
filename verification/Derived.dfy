/** Recipes, the questions a closure round may record, and what revalidating
    them covers (internal/derived/write.go, internal/derived/derived.go). */
module Derived {
  import opened Wrappers
  import opened Text

  datatype Provenance = Provenance(
    originTask: string, originGap: string, region: seq<string>, writtenAt: string, writtenBy: string)

  datatype Recipe = Recipe(
    kind: string, dir: string, typeName: string, field: string, lock: string, command: string, owner: string,
    searchPaths: seq<string>, why: string, provenance: Option<Provenance>)

  // The kinds of question that can be answered.
  const FIELD_ACCESS := "field_access_under_lock"
  const COMMAND_INVOCATION := "command_invocation_confined_to"
  const STATE_MUTATION := "state_mutation_confined_to_owner"
  const PACKAGE_IMPORT := "package_import_confined_to"

  // The library calls the questions are spelled with: strings.ToLower, and
  // filepath.Dir with its lexical cleaning. Any functions will do.
  datatype Library = Library(lower: string -> string, dirOf: string -> string)

  function TrimSlashes(s: string): (r: string)
    ensures r != "" ==> r[0] != '/' && r[|r| - 1] != '/'
    ensures forall c :: c in r ==> c in s
  {
    if s != "" && s[0] == '/' then TrimSlashes(s[1..])
    else if s != "" && s[|s| - 1] == '/' then TrimSlashes(s[..|s| - 1])
    else s
  }

  // `r` is what is left of `s` without i slashes in front and those behind j.
  ghost predicate SlashesGone(s: string, r: string, i: nat, j: nat) {
    && i <= j <= |s| && r == s[i..j]
    && (forall k :: 0 <= k < i || j <= k < |s| ==> s[k] == '/')
  }

  lemma SlashInFront(s: string, r: string, i: nat, j: nat)
    requires s != "" && s[0] == '/' && SlashesGone(s[1..], r, i, j)
    ensures SlashesGone(s, r, i + 1, j + 1)
  {
    assert forall k :: 1 <= k < |s| ==> s[k] == s[1..][k - 1];
    assert s[i + 1..j + 1] == s[1..][i..j];
  }

  lemma SlashBehind(s: string, r: string, i: nat, j: nat)
    requires s != "" && s[|s| - 1] == '/' && SlashesGone(s[..|s| - 1], r, i, j)
    ensures SlashesGone(s, r, i, j)
  {
    assert forall k :: 0 <= k < |s| - 1 ==> s[k] == s[..|s| - 1][k];
    assert s[i..j] == s[..|s| - 1][i..j];
  }

  // Nothing but slashes goes.
  lemma {:induction false} TrimSlashesRemoves(s: string)
    ensures exists i: nat, j: nat :: SlashesGone(s, TrimSlashes(s), i, j)
    decreases |s|
  {
    if s != "" && s[0] == '/' {
      TrimSlashesRemoves(s[1..]);
      var i: nat, j: nat :| SlashesGone(s[1..], TrimSlashes(s), i, j);
      SlashInFront(s, TrimSlashes(s), i, j);
    } else if s != "" && s[|s| - 1] == '/' {
      TrimSlashesRemoves(s[..|s| - 1]);
      var i: nat, j: nat :| SlashesGone(s[..|s| - 1], TrimSlashes(s), i, j);
      SlashBehind(s, TrimSlashes(s), i, j);
    } else {
      assert SlashesGone(s, TrimSlashes(s), 0, |s|);
    }
  }

  function Clean(p: string): string { TrimSlashes(TrimSpace(p)) }

  // A cleaned path has neither white space nor slashes around it.
  lemma CleanIs(p: string)
    ensures Clean(p) != "" ==> Clean(p)[0] != '/' && Clean(p)[|Clean(p)| - 1] != '/'
    ensures exists i: nat, j: nat :: SlashesGone(TrimSpace(p), Clean(p), i, j)
  {
    TrimSlashesRemoves(TrimSpace(p));
  }

  lemma CleanCharacters(p: string)
    ensures forall c :: c in Clean(p) ==> c in p
  {
    TrimSpaceCharacters(p);
  }

  function Each(f: string -> string, xs: seq<string>): seq<string> {
    seq(|xs|, i requires 0 <= i < |xs| => f(xs[i]))
  }

  function Listed(paths: seq<string>): string { Join(SortStrings(paths), ",") }

  function KeyTerms(r: Recipe): seq<string> {
    if r.kind == COMMAND_INVOCATION then
      [r.kind, r.command, Clean(r.owner), Listed(r.searchPaths)]
    else if r.kind == STATE_MUTATION then
      [r.kind, Clean(r.dir), r.typeName, r.field, Listed(Each(Clean, r.searchPaths))]
    else if r.kind == PACKAGE_IMPORT then
      [r.kind, Clean(r.dir), Clean(r.owner), Listed(Each(Clean, r.searchPaths))]
    else
      [r.kind, Clean(r.dir), r.typeName, r.field, r.lock]
  }

  // A recipe's canonical key, from the question only.
  function IdentityOf(lib: Library, r: Recipe): string {
    lib.lower(Join(KeyTerms(r), "|"))
  }

  // ----- Two recipes ask one question -----

  // The same kind about the same things; the paths it searches in any order.
  ghost predicate SameQuestion(a: Recipe, b: Recipe) {
    a.kind == b.kind &&
    if a.kind == COMMAND_INVOCATION then
      && a.command == b.command && Clean(a.owner) == Clean(b.owner)
      && multiset(a.searchPaths) == multiset(b.searchPaths)
    else if a.kind == STATE_MUTATION then
      && Clean(a.dir) == Clean(b.dir) && a.typeName == b.typeName && a.field == b.field
      && multiset(Each(Clean, a.searchPaths)) == multiset(Each(Clean, b.searchPaths))
    else if a.kind == PACKAGE_IMPORT then
      && Clean(a.dir) == Clean(b.dir) && Clean(a.owner) == Clean(b.owner)
      && multiset(Each(Clean, a.searchPaths)) == multiset(Each(Clean, b.searchPaths))
    else Clean(a.dir) == Clean(b.dir) && a.typeName == b.typeName && a.field == b.field && a.lock == b.lock
  }

  lemma SameListing(a: seq<string>, b: seq<string>)
    requires multiset(a) == multiset(b)
    ensures Listed(a) == Listed(b)
  {
    SortedUnique(SortStrings(a), SortStrings(b));
  }

  lemma SortedParts(a: seq<string>)
    ensures forall p :: p in SortStrings(a) <==> p in a
    ensures |SortStrings(a)| == |a|
  {
    forall p ensures p in SortStrings(a) <==> p in a { assert p in multiset(SortStrings(a)) <==> p in multiset(a); }
    assert |multiset(SortStrings(a))| == |multiset(a)|;
  }

  lemma ListingIsInjective(a: seq<string>, b: seq<string>)
    requires a != [] && b != [] && AllLack(a, ',') && AllLack(b, ',') && Listed(a) == Listed(b)
    ensures multiset(a) == multiset(b)
  {
    SortedParts(a);
    SortedParts(b);
    JoinInjective(SortStrings(a), SortStrings(b), ',');
  }

  lemma {:induction false} JoinLacks(xs: seq<string>, c: char, d: char)
    requires AllLack(xs, c) && c != d
    ensures c !in Join(xs, [d])
  {
    if |xs| > 1 { JoinLacks(xs[1..], c, d); }
  }

  // One question always has one identity.
  lemma SameQuestionSameIdentity(lib: Library, a: Recipe, b: Recipe)
    requires SameQuestion(a, b)
    ensures IdentityOf(lib, a) == IdentityOf(lib, b)
  {
    if a.kind == COMMAND_INVOCATION {
      SameListing(a.searchPaths, b.searchPaths);
    } else if a.kind == STATE_MUTATION || a.kind == PACKAGE_IMPORT {
      SameListing(Each(Clean, a.searchPaths), Each(Clean, b.searchPaths));
    }
  }

  // Terms that hold no separator, and at least one path to search.
  ghost predicate PlainTerms(r: Recipe) {
    && '|' !in r.kind && '|' !in r.dir && '|' !in r.typeName && '|' !in r.field && '|' !in r.lock
    && '|' !in r.command && '|' !in r.owner
    && AllLack(r.searchPaths, '|') && AllLack(r.searchPaths, ',') && r.searchPaths != []
  }

  lemma CleanedLack(paths: seq<string>, c: char)
    requires AllLack(paths, c)
    ensures AllLack(Each(Clean, paths), c)
  {
    forall x | x in Each(Clean, paths) ensures c !in x {
      var k :| 0 <= k < |paths| && x == Clean(paths[k]);
      CleanCharacters(paths[k]);
      assert paths[k] in paths;
    }
  }

  lemma ListedLacks(paths: seq<string>, c: char)
    requires AllLack(paths, c) && c != ','
    ensures c !in Listed(paths)
  {
    SortedParts(paths);
    JoinLacks(SortStrings(paths), c, ',');
  }

  lemma FourLack(p: string, q: string, r: string, t: string, c: char)
    requires c !in p && c !in q && c !in r && c !in t
    ensures AllLack([p, q, r, t], c)
  {
  }

  lemma FiveLack(p: string, q: string, r: string, t: string, v: string, c: char)
    requires c !in p && c !in q && c !in r && c !in t && c !in v
    ensures AllLack([p, q, r, t, v], c)
  {
  }

  lemma KeyTermsLack(r: Recipe)
    requires PlainTerms(r)
    ensures AllLack(KeyTerms(r), '|')
  {
    CleanCharacters(r.dir);
    CleanCharacters(r.owner);
    CleanedLack(r.searchPaths, '|');
    ListedLacks(r.searchPaths, '|');
    ListedLacks(Each(Clean, r.searchPaths), '|');
    var paths, cleaned := Listed(r.searchPaths), Listed(Each(Clean, r.searchPaths));
    FourLack(r.kind, r.command, Clean(r.owner), paths, '|');
    FiveLack(r.kind, Clean(r.dir), r.typeName, r.field, cleaned, '|');
    FourLack(r.kind, Clean(r.dir), Clean(r.owner), cleaned, '|');
    FiveLack(r.kind, Clean(r.dir), r.typeName, r.field, r.lock, '|');
  }

  lemma SameTermsSameQuestion(a: Recipe, b: Recipe)
    requires PlainTerms(a) && PlainTerms(b) && KeyTerms(a) == KeyTerms(b)
    ensures SameQuestion(a, b)
  {
    assert KeyTerms(a)[0] == a.kind && KeyTerms(b)[0] == b.kind;
    if a.kind == COMMAND_INVOCATION {
      assert KeyTerms(a)[1..] == KeyTerms(b)[1..];
      assert KeyTerms(a)[3] == KeyTerms(b)[3];
      ListingIsInjective(a.searchPaths, b.searchPaths);
    } else if a.kind == STATE_MUTATION {
      assert KeyTerms(a)[4] == KeyTerms(b)[4];
      CleanedLack(a.searchPaths, ',');
      CleanedLack(b.searchPaths, ',');
      ListingIsInjective(Each(Clean, a.searchPaths), Each(Clean, b.searchPaths));
    } else if a.kind == PACKAGE_IMPORT {
      assert KeyTerms(a)[3] == KeyTerms(b)[3];
      CleanedLack(a.searchPaths, ',');
      CleanedLack(b.searchPaths, ',');
      ListingIsInjective(Each(Clean, a.searchPaths), Each(Clean, b.searchPaths));
    }
  }

  // Two recipes in lower case have one identity exactly when they ask one
  // question, as long as no term holds a separator.
  lemma IdentityIsTheQuestion(lib: Library, a: Recipe, b: Recipe)
    requires PlainTerms(a) && PlainTerms(b)
    requires lib.lower(Join(KeyTerms(a), "|")) == Join(KeyTerms(a), "|")
    requires lib.lower(Join(KeyTerms(b), "|")) == Join(KeyTerms(b), "|")
    ensures IdentityOf(lib, a) == IdentityOf(lib, b) <==> SameQuestion(a, b)
  {
    if SameQuestion(a, b) { SameQuestionSameIdentity(lib, a, b); }
    if IdentityOf(lib, a) == IdentityOf(lib, b) {
      KeyTermsLack(a);
      KeyTermsLack(b);
      JoinInjective(KeyTerms(a), KeyTerms(b), '|');
      SameTermsSameQuestion(a, b);
    }
  }

  // A separator inside a term gives two questions one identity.
  lemma SeparatorCollides(lib: Library, r: Recipe, x: string, y: string, z: string)
    requires r.kind == COMMAND_INVOCATION && Clean(z) == z && Clean(y + "|" + z) == y + "|" + z
    ensures var a, b := r.(command := x + "|" + y, owner := z), r.(command := x, owner := y + "|" + z);
            IdentityOf(lib, a) == IdentityOf(lib, b) && !SameQuestion(a, b)
  {
    var paths := Listed(r.searchPaths);
    var a, b := [r.kind, x + "|" + y, z, paths], [r.kind, x, y + "|" + z, paths];
    JoinFour(r.kind, x + "|" + y, z, paths);
    JoinFour(r.kind, x, y + "|" + z, paths);
    assert Join(a, "|") == Join(b, "|");
    assert |x + "|" + y| != |x|;
  }

  lemma JoinFour(p: string, q: string, r: string, t: string)
    ensures Join([p, q, r, t], "|") == p + "|" + q + "|" + r + "|" + t
  {
    assert [p, q, r, t][1..] == [q, r, t] && [q, r, t][1..] == [r, t] && [r, t][1..] == [t];
    assert Join([r, t], "|") == r + "|" + t;
    assert Join([q, r, t], "|") == q + "|" + (r + "|" + t);
  }

  // ----- What may be recorded -----

  // The terms each answerable kind must carry.
  function Terms(r: Recipe): Option<seq<string>> {
    var paths := Join(r.searchPaths, ",");
    if r.kind == FIELD_ACCESS then Some([r.dir, r.typeName, r.field, r.lock])
    else if r.kind == COMMAND_INVOCATION then Some([r.command, r.owner, paths])
    else if r.kind == STATE_MUTATION then Some([r.dir, r.typeName, r.field, paths])
    else if r.kind == PACKAGE_IMPORT then Some([r.dir, paths])
    else None
  }

  predicate Climbs(p: string) { exists i :: 0 <= i < |p| && ReadsAt(p, i, "../") }

  predicate InTree(p: string) { !(p != "" && p[0] == '/') && !Climbs(p) }

  // The parts of a path between its slashes.
  function Components(p: string): (r: seq<string>)
    ensures r != []
  {
    if p == "" then [""]
    else if p[0] == '/' then [""] + Components(p[1..])
    else
      var r := Components(p[1..]);
      [[p[0]] + r[0]] + r[1..]
  }

  predicate EndsInDots(part: string) {
    |part| >= 2 && part[|part| - 1] == '.' && part[|part| - 2] == '.'
  }

  // Some part but the last ends in two dots.
  ghost predicate ClimbsInside(parts: seq<string>) {
    exists k :: 0 <= k < |parts| - 1 && EndsInDots(parts[k])
  }

  lemma FirstEmpty(p: string)
    ensures |Components(p)| > 1 && Components(p)[0] == "" <==> p != "" && p[0] == '/'
  {
    if p != "" && p[0] != '/' { assert |Components(p)[0]| > 0; }
  }

  lemma FirstDot(p: string)
    ensures |Components(p)| > 1 && Components(p)[0] == "." <==> ReadsAt(p, 0, "./")
  {
    ReadsAtStart(p, "./");
    assert "./" <= p <==> |p| >= 2 && p[0] == '.' && p[1] == '/';
    if p != "" && p[0] != '/' {
      var q := p[1..];
      FirstEmpty(q);
      assert Components(p) == [[p[0]] + Components(q)[0]] + Components(q)[1..];
      if p[0] == '.' {
        assert Components(p)[0] == "." <==> Components(q)[0] == "";
        assert q != "" ==> q[0] == p[1];
      }
    }
  }

  lemma ReadsDots(p: string)
    requires p != ""
    ensures ReadsAt(p, 0, "../") <==> p[0] == '.' && ReadsAt(p[1..], 0, "./")
  {
    ReadsAtStart(p, "../");
    ReadsAtStart(p[1..], "./");
    assert "../" <= p <==> |p| >= 3 && p[0] == '.' && p[1] == '.' && p[2] == '/';
    assert "./" <= p[1..] <==> |p| >= 3 && p[1] == '.' && p[2] == '/';
  }

  lemma ClimbsStep(p: string)
    requires p != ""
    ensures Climbs(p) <==> ReadsAt(p, 0, "../") || Climbs(p[1..])
  {
    if Climbs(p) {
      var i :| 0 <= i < |p| && ReadsAt(p, i, "../");
      if i > 0 { assert ReadsAt(p[1..], i - 1, "../"); }
    }
    if Climbs(p[1..]) {
      var i :| 0 <= i < |p[1..]| && ReadsAt(p[1..], i, "../");
      assert ReadsAt(p, i + 1, "../");
    }
  }

  lemma ClimbsInsideStep(first: string, rest: seq<string>)
    ensures ClimbsInside([first] + rest) <==> (rest != [] && EndsInDots(first)) || ClimbsInside(rest)
  {
    var all := [first] + rest;
    if ClimbsInside(rest) {
      var k :| 0 <= k < |rest| - 1 && EndsInDots(rest[k]);
      assert all[k + 1] == rest[k];
    }
    if rest != [] && EndsInDots(first) { assert all[0] == first; }
  }

  // The test for climbing looks at every part but the last.
  lemma {:induction false} ClimbsIsInside(p: string)
    ensures Climbs(p) <==> ClimbsInside(Components(p))
  {
    if p == "" {
    } else {
      var q, r := p[1..], Components(p[1..]);
      ClimbsIsInside(q);
      ClimbsStep(p);
      ReadsDots(p);
      FirstDot(q);
      if p[0] == '/' {
        ClimbsInsideStep("", r);
      } else {
        assert r == [r[0]] + r[1..];
        ClimbsInsideStep(r[0], r[1..]);
        ClimbsInsideStep([p[0]] + r[0], r[1..]);
        EndsAfterDot(p[0], r[0]);
      }
    }
  }

  lemma EndsAfterDot(c: char, part: string)
    ensures EndsInDots([c] + part) <==> EndsInDots(part) || (c == '.' && part == ".")
  {
  }

  // A path in the tree is relative and climbs nowhere, unless its last part
  // does: that one is not looked at.
  lemma InTreeClimbsAtTheEndOnly(p: string)
    requires InTree(p)
    ensures ClimbsAtTheEndOnly(p)
  {
    ClimbsIsInside(p);
    var parts := Components(p);
    if ".." in parts {
      var k :| 0 <= k < |parts| && parts[k] == "..";
      assert EndsInDots(parts[k]);
    }
  }

  function FirstNonBlank(a: string, b: string): string {
    if !Blank(a) then a else if !Blank(b) then b else ""
  }

  // One directory is the other or lies below it.
  predicate Contains(outer: string, inner: string) { inner == outer || outer + "/" <= inner }

  predicate Within(lib: Library, dir: string, region: seq<string>) {
    exists f :: f in region && Related(dir, Clean(lib.dirOf(Clean(f))))
  }

  predicate Related(dir: string, d: string) {
    d == dir || dir + "/" <= d + "/" || d + "/" <= dir + "/"
  }

  // Comparing the two paths with a slash appended is containment at path
  // boundaries: `internal/eventual` is not inside `internal/event`.
  lemma RelatedIsContainment(dir: string, d: string)
    ensures Related(dir, d) <==> Contains(dir, d) || Contains(d, dir)
  {
    PrefixWithSlash(dir, d);
    PrefixWithSlash(d, dir);
  }

  lemma PrefixWithSlash(a: string, b: string)
    ensures a + "/" <= b + "/" <==> Contains(a, b)
  {
    if a + "/" <= b + "/" && |a| == |b| {
      assert a == (a + "/")[..|a|] == (b + "/")[..|a|] == b;
    } else if |a| < |b| {
      assert (b + "/")[..|a| + 1] == b[..|a| + 1];
    }
  }

  predicate Recordable(lib: Library, r: Recipe, region: seq<string>) {
    && Terms(r).Some? && (forall t :: t in Terms(r).value ==> !Blank(t))
    && InTree(r.dir) && InTree(r.owner) && (forall p :: p in r.searchPaths ==> InTree(p))
    && (var place := Clean(FirstNonBlank(r.dir, r.owner));
        region != [] && place != "" ==> Within(lib, place, region))
  }

  // Every term the recipe's kind needs is there.
  ghost predicate Complete(r: Recipe) {
    if r.kind == FIELD_ACCESS then !Blank(r.dir) && !Blank(r.typeName) && !Blank(r.field) && !Blank(r.lock)
    else if r.kind == COMMAND_INVOCATION then
      !Blank(r.command) && !Blank(r.owner) && Listing(r.searchPaths)
    else if r.kind == STATE_MUTATION then
      !Blank(r.dir) && !Blank(r.typeName) && !Blank(r.field) && Listing(r.searchPaths)
    else r.kind == PACKAGE_IMPORT && !Blank(r.dir) && Listing(r.searchPaths)
  }

  // Two paths or more, or one that is not blank.
  ghost predicate Listing(paths: seq<string>) {
    |paths| >= 2 || (|paths| == 1 && !Blank(paths[0]))
  }

  lemma ListingIs(paths: seq<string>)
    ensures !Blank(Join(paths, ",")) <==> Listing(paths)
  {
    BlankIs("");
    if |paths| >= 2 {
      var s := Join(paths, ",");
      BlankIs(s);
      assert s[|paths[0]|] == ',';
      assert ',' in s && !IsSpace(',') && !AllSpace(s);
    }
  }

  ghost predicate ClimbsAtTheEndOnly(p: string) {
    && (p != "" ==> p[0] != '/')
    && (".." in Components(p) <==> Components(p)[|Components(p)| - 1] == "..")
  }

  // The place contains or lies in the directory of a file of the region.
  ghost predicate Near(lib: Library, place: string, region: seq<string>) {
    exists f :: f in region && ContainsEither(place, Clean(lib.dirOf(Clean(f))))
  }

  ghost predicate ContainsEither(a: string, b: string) { Contains(a, b) || Contains(b, a) }

  // A path of the repository, as the validator judges it: relative, and no part
  // but the last ends in two dots.
  ghost predicate Relative(p: string) {
    (p == "" || p[0] != '/') && !ClimbsInside(Components(p))
  }

  ghost predicate PlacedIn(lib: Library, r: Recipe, region: seq<string>) {
    var place := Clean(if !Blank(r.dir) then r.dir else r.owner);
    region != [] && place != "" ==> Near(lib, place, region)
  }

  // What may be recorded is exactly what carries the terms its kind needs,
  // names relative paths, and is about a place the round was looking at: its
  // directory, or its owner where it names none.
  lemma RecordableIs(lib: Library, r: Recipe, region: seq<string>)
    ensures Recordable(lib, r, region) <==>
              && Complete(r) && Relative(r.dir) && Relative(r.owner) && (forall p :: p in r.searchPaths ==> Relative(p))
              && PlacedIn(lib, r, region)
  {
    TermsNeeded(r);
    RelativeIs(r.dir);
    RelativeIs(r.owner);
    forall p | p in r.searchPaths ensures InTree(p) <==> Relative(p) { RelativeIs(p); }
    PlaceIsNear(lib, r, region);
  }

  lemma RelativeIs(p: string)
    ensures InTree(p) <==> Relative(p)
  {
    ClimbsIsInside(p);
  }

  // So no recorded path climbs, unless with its last part, which is not looked at.
  lemma RecordedClimbsAtTheEndOnly(lib: Library, r: Recipe, region: seq<string>, p: string)
    requires Recordable(lib, r, region) && (p == r.dir || p == r.owner || p in r.searchPaths)
    ensures ClimbsAtTheEndOnly(p)
  {
    InTreeClimbsAtTheEndOnly(p);
  }

  // And such a path is recorded: a question that may be recorded may as well
  // search above the tree.
  lemma DotsAtTheEndAreRecorded(lib: Library, r: Recipe, region: seq<string>)
    requires Recordable(lib, r, region)
    ensures var q := r.(searchPaths := r.searchPaths + [".."]);
            Recordable(lib, q, region) && Components("..") == [".."]
  {
    var q := r.(searchPaths := r.searchPaths + [".."]);
    OnePart("..");
    RecordableIs(lib, r, region);
    RecordableIs(lib, q, region);
    assert r.kind == FIELD_ACCESS || |q.searchPaths| >= 2;
  }

  lemma {:induction false} OnePart(p: string)
    requires '/' !in p
    ensures Components(p) == [p]
  {
    if p == "" {
    } else {
      OnePart(p[1..]);
      assert p == [p[0]] + p[1..];
    }
  }

  ghost predicate NoneBlank(terms: seq<string>) { forall t :: t in terms ==> !Blank(t) }

  lemma NoneOfFourBlank(p: string, q: string, r: string, t: string)
    ensures NoneBlank([p, q, r, t]) <==> !Blank(p) && !Blank(q) && !Blank(r) && !Blank(t)
    ensures NoneBlank([p, q, r]) <==> !Blank(p) && !Blank(q) && !Blank(r)
    ensures NoneBlank([p, q]) <==> !Blank(p) && !Blank(q)
  {
    var four, three, two := [p, q, r, t], [p, q, r], [p, q];
    assert four[0] in four && four[1] in four && four[2] in four && four[3] in four;
    assert three[0] in three && three[1] in three && three[2] in three;
    assert two[0] in two && two[1] in two;
  }

  lemma TermsNeeded(r: Recipe)
    ensures Terms(r).Some? && NoneBlank(Terms(r).value) <==> Complete(r)
  {
    var paths := Join(r.searchPaths, ",");
    ListingIs(r.searchPaths);
    NoneOfFourBlank(r.dir, r.typeName, r.field, r.lock);
    NoneOfFourBlank(r.dir, r.typeName, r.field, paths);
    NoneOfFourBlank(r.command, r.owner, paths, "");
    NoneOfFourBlank(r.dir, paths, "", "");
  }

  lemma PlaceIsNear(lib: Library, r: Recipe, region: seq<string>)
    ensures var place := Clean(FirstNonBlank(r.dir, r.owner));
            (region != [] && place != "" ==> Within(lib, place, region)) <==> PlacedIn(lib, r, region)
  {
    var place := Clean(FirstNonBlank(r.dir, r.owner));
    assert Blank(r.dir) && Blank(r.owner) ==> Clean(r.owner) == "" == place;
    forall f | f in region
      ensures Related(place, Clean(lib.dirOf(Clean(f)))) <==> ContainsEither(place, Clean(lib.dirOf(Clean(f))))
    {
      RelatedIsContainment(place, Clean(lib.dirOf(Clean(f))));
    }
  }

  // ----- The recipe file -----

  function Stamped(r: Recipe, p: Provenance, now: string): Recipe {
    r.(provenance := Some(if p.writtenAt == "" then p.(writtenAt := now) else p))
  }

  // Some recipe of the list asks the question with this identity.
  predicate Holds(lib: Library, recipes: seq<Recipe>, identity: string) {
    recipes != [] &&
    (Holds(lib, recipes[..|recipes| - 1], identity) || IdentityOf(lib, recipes[|recipes| - 1]) == identity)
  }

  lemma {:induction false} HoldsAt(lib: Library, recipes: seq<Recipe>, k: nat, identity: string)
    requires k < |recipes| && IdentityOf(lib, recipes[k]) == identity
    ensures Holds(lib, recipes, identity)
  {
    if k == |recipes| - 1 {
    } else {
      HoldsAt(lib, recipes[..|recipes| - 1], k, identity);
    }
  }

  predicate Asked(lib: Library, recipes: seq<Recipe>, r: Recipe) {
    Holds(lib, recipes, IdentityOf(lib, r))
  }

  datatype Request = Request(r: Recipe, p: Provenance, region: seq<string>, now: string)

  predicate Accepted(lib: Library, recipes: seq<Recipe>, q: Request) {
    Recordable(lib, q.r, q.region) && !Blank(q.p.originTask) && !Asked(lib, recipes, q.r)
  }

  function Appended(lib: Library, recipes: seq<Recipe>, q: Request): seq<Recipe> {
    if Accepted(lib, recipes, q) then recipes + [Stamped(q.r, q.p, q.now)] else recipes
  }

  // What is at the file's path: nothing, something that cannot be read or is
  // not its grammar, or the recipes beside the file's other contents.
  datatype Content = Missing | Unreadable | Malformed | Doc(recipes: seq<Recipe>, rest: map<string, string>)
  {
    // A missing file holds no recipes, and is not an error.
    predicate Opens() { Missing? || Doc? }

    function Recipes(): seq<Recipe> { if Doc? then recipes else [] }

    function Rest(): map<string, string> { if Doc? then rest else map[] }
  }

  // The question as it was asked, with who asked it and when.
  ghost predicate IsEntry(entry: Recipe, r: Recipe, p: Provenance, now: string) {
    && entry.(provenance := r.provenance) == r && entry.provenance.Some?
    && entry.provenance.value.(writtenAt := p.writtenAt) == p
    && entry.provenance.value.writtenAt == if p.writtenAt == "" then now else p.writtenAt
  }

  // How writing the file ends. It is written in place: a write may stop short
  // and leave a part of it, or be whole and still report an error.
  datatype Write = Whole | Unstarted | Short | WholeWithError

  function Written(lib: Library, c: Content, q: Request, write: Write): Content {
    if !c.Opens() || !Accepted(lib, c.Recipes(), q) || write.Unstarted? then c
    else if write.Short? then Malformed
    else Doc(Appended(lib, c.Recipes(), q), c.Rest())
  }

  datatype Added = Added | AlreadyAsked | Refused | NotRead | NotWritten

  class RecipeFile {
    const lib: Library
    var content: Content

    constructor (lib: Library, content: Content)
      ensures this.lib == lib && this.content == content
    {
      this.lib, this.content := lib, content;
    }

    method Find(recipes: seq<Recipe>, identity: string) returns (found: bool)
      ensures found == Holds(lib, recipes, identity)
    {
      for i := 0 to |recipes|
        invariant !Holds(lib, recipes[..i], identity)
      {
        assert recipes[..i + 1][..i] == recipes[..i];
        if IdentityOf(lib, recipes[i]) == identity {
          HoldsAt(lib, recipes, i, identity);
          return true;
        }
      }
      assert recipes[..|recipes|] == recipes;
      found := false;
    }

    method Append(r: Recipe, p: Provenance, region: seq<string>, now: string, write: Write) returns (added: Added)
      modifies this
      ensures content == Written(lib, old(content), Request(r, p, region, now), write)
      ensures added == if !Recordable(lib, r, region) || Blank(p.originTask) then Refused
                       else if !old(content).Opens() then NotRead
                       else if Asked(lib, old(content).Recipes(), r) then AlreadyAsked
                       else if write.Whole? then Added.Added else NotWritten
      ensures added == Added.Added ==>
                && old(content).Opens() && content.Doc?
                && exists entry :: content.recipes == old(content).Recipes() + [entry] && IsEntry(entry, r, p, now)
    {
      if !Recordable(lib, r, region) { return Refused; }
      if Blank(p.originTask) { return Refused; }
      if !content.Opens() { return NotRead; }
      var existing := content.Recipes();
      var found := Find(existing, IdentityOf(lib, r));
      if found { return AlreadyAsked; }
      var provenance := if p.writtenAt == "" then p.(writtenAt := now) else p;
      var entry := r.(provenance := Some(provenance));
      assert IsEntry(entry, r, p, now);
      existing := existing + [entry];
      match write
      case Unstarted =>
        return NotWritten;
      case Short =>
        content := Malformed;
        return NotWritten;
      case _ =>
        content := Doc(existing, content.Rest());
        added := if write.Whole? then Added.Added else NotWritten;
    }
  }

  // Any sequence of appends, each with how its write ended.
  function AppendAll(lib: Library, c: Content, requests: seq<(Request, Write)>): Content
    decreases |requests|
  {
    if requests == [] then c else AppendAll(lib, Written(lib, c, requests[0].0, requests[0].1), requests[1..])
  }

  // Some write of the sequence stopped short.
  ghost predicate Tears(lib: Library, c: Content, requests: seq<(Request, Write)>)
    decreases |requests|
  {
    requests != [] &&
    var (q, write) := requests[0];
    || (c.Opens() && Accepted(lib, c.Recipes(), q) && write.Short?)
    || Tears(lib, Written(lib, c, q, write), requests[1..])
  }

  ghost predicate NoTwins(lib: Library, recipes: seq<Recipe>) {
    forall i, j :: 0 <= i < j < |recipes| ==> IdentityOf(lib, recipes[i]) != IdentityOf(lib, recipes[j])
  }

  // Who wrote a question, when and why is no part of it.
  lemma IdentityIgnoresProvenance(lib: Library, r: Recipe, why: string, provenance: Option<Provenance>)
    ensures IdentityOf(lib, r.(why := why, provenance := provenance)) == IdentityOf(lib, r)
  {
  }

  lemma AppendedKeepsTheRecord(lib: Library, recipes: seq<Recipe>, q: Request)
    ensures recipes <= Appended(lib, recipes, q)
    ensures NoTwins(lib, recipes) ==> NoTwins(lib, Appended(lib, recipes, q))
  {
    var out := Appended(lib, recipes, q);
    if out != recipes {
      IdentityIgnoresProvenance(lib, q.r, q.r.why, Stamped(q.r, q.p, q.now).provenance);
      forall k | 0 <= k < |recipes|
        ensures IdentityOf(lib, recipes[k]) != IdentityOf(lib, q.r)
      {
        if IdentityOf(lib, recipes[k]) == IdentityOf(lib, q.r) { HoldsAt(lib, recipes, k, IdentityOf(lib, q.r)); }
      }
    }
  }

  // After any sequence of appends the file can be read if and only if no
  // write stopped short, and then the entries already there stay where they
  // are, no question is recorded twice, and the rest of the file is as it was.
  lemma {:induction false} AppendsKeepTheRecord(lib: Library, c: Content, requests: seq<(Request, Write)>)
    requires c.Opens()
    ensures var d := AppendAll(lib, c, requests);
            && (d.Opens() <==> !Tears(lib, c, requests))
            && (d.Opens() ==>
                  && c.Recipes() <= d.Recipes() && d.Rest() == c.Rest()
                  && (NoTwins(lib, c.Recipes()) ==> NoTwins(lib, d.Recipes())))
    decreases |requests|
  {
    if requests == [] {
    } else {
      var d := Written(lib, c, requests[0].0, requests[0].1);
      AppendedKeepsTheRecord(lib, c.Recipes(), requests[0].0);
      if d.Opens() { AppendsKeepTheRecord(lib, d, requests[1..]); } else { TornStaysTorn(lib, d, requests[1..]); }
    }
  }

  lemma {:induction false} TornStaysTorn(lib: Library, c: Content, requests: seq<(Request, Write)>)
    requires !c.Opens()
    ensures AppendAll(lib, c, requests) == c
    decreases |requests|
  {
    if requests == [] {
    } else {
      TornStaysTorn(lib, c, requests[1..]);
    }
  }

  // ----- The future-only rule -----

  predicate WrittenBy(r: Recipe, task: string) {
    r.provenance.Some? && r.provenance.value.originTask == task
  }

  function Excluding(recipes: seq<Recipe>, task: string): seq<Recipe> {
    if Blank(task) then recipes else WithoutTask(recipes, task)
  }

  function WithoutTask(recipes: seq<Recipe>, task: string): seq<Recipe> {
    if recipes == [] then []
    else
      var init, r := recipes[..|recipes| - 1], recipes[|recipes| - 1];
      if WrittenBy(r, task) then WithoutTask(init, task) else WithoutTask(init, task) + [r]
  }

  lemma {:induction false} WithoutTaskIs(recipes: seq<Recipe>, task: string)
    ensures forall r :: r in WithoutTask(recipes, task) <==>
              r in recipes && (r.provenance.None? || r.provenance.value.originTask != task)
  {
    if recipes == [] {
    } else {
      var init, last := recipes[..|recipes| - 1], recipes[|recipes| - 1];
      assert recipes == init + [last];
      WithoutTaskIs(init, task);
    }
  }

  method ExcludingTask(recipes: seq<Recipe>, task: string) returns (out: seq<Recipe>)
    ensures out == Excluding(recipes, task)
    ensures TrimSpace(task) == "" ==> out == recipes
    ensures TrimSpace(task) != "" ==>
              forall r :: r in out <==> r in recipes && (r.provenance.None? || r.provenance.value.originTask != task)
  {
    if !Blank(task) { WithoutTaskIs(recipes, task); }
    if Blank(task) { return recipes; }
    out := [];
    for i := 0 to |recipes|
      invariant out == WithoutTask(recipes[..i], task)
    {
      assert recipes[..i + 1][..i] == recipes[..i];
      if WrittenBy(recipes[i], task) { continue; }
      out := out + [recipes[i]];
    }
    assert recipes[..|recipes|] == recipes;
  }

  datatype Outcome = Derived | Refuted | Unresolved | NotDerived | Unknown

  datatype Anchor = Anchor(recipe: Recipe, world: string, files: seq<string>)

  datatype Revalidation = Revalidation(outcome: Outcome, anchor: Option<Anchor>)

  // Revalidating against one world, as any deterministic function.
  type Revalidator = Recipe -> Revalidation

  function Anchors(rv: Revalidator, recipes: seq<Recipe>): seq<Anchor> {
    if recipes == [] then []
    else
      var res := rv(recipes[|recipes| - 1]);
      Anchors(rv, recipes[..|recipes| - 1]) +
          (if res.outcome.Derived? && res.anchor.Some? then [res.anchor.value] else [])
  }

  lemma AnchorsStep(rv: Revalidator, recipes: seq<Recipe>, i: nat)
    requires i < |recipes|
    ensures var res := rv(recipes[i]);
            Anchors(rv, recipes[..i + 1])
              == Anchors(rv, recipes[..i]) +
                  (if res.outcome.Derived? && res.anchor.Some? then [res.anchor.value] else [])
  {
    assert recipes[..i + 1][..i] == recipes[..i];
  }

  method AnchorsFor(rv: Revalidator, recipes: seq<Recipe>) returns (anchors: seq<Anchor>, results: seq<Revalidation>)
    ensures anchors == Anchors(rv, recipes)
    ensures |results| == |recipes| && forall i :: 0 <= i < |recipes| ==> results[i] == rv(recipes[i])
  {
    anchors, results := [], [];
    for i := 0 to |recipes|
      invariant anchors == Anchors(rv, recipes[..i])
      invariant |results| == i && forall k :: 0 <= k < i ==> results[k] == rv(recipes[k])
    {
      AnchorsStep(rv, recipes, i);
      var res := rv(recipes[i]);
      results := results + [res];
      if res.outcome.Derived? && res.anchor.Some? {
        anchors := anchors + [res.anchor.value];
      }
    }
    assert recipes[..|recipes|] == recipes;
  }

  // Recipes that do not derive contribute nothing.
  lemma {:induction false} AnchorsAreDerived(rv: Revalidator, recipes: seq<Recipe>, a: Anchor)
    ensures a in Anchors(rv, recipes) <==> exists r :: r in recipes && rv(r).outcome.Derived? && rv(r).anchor == Some(a)
  {
    if recipes == [] {
    } else {
      var init, r := recipes[..|recipes| - 1], recipes[|recipes| - 1];
      assert recipes == init + [r];
      AnchorsAreDerived(rv, init, a);
    }
  }

  // A question is never counted for the task that wrote it, and from then on
  // it is for every other one.
  lemma AppendIsForTheFuture(lib: Library, recipes: seq<Recipe>, q: Request, task: string)
    requires !Blank(task)
    ensures q.p.originTask == task ==>
              Excluding(Appended(lib, recipes, q), task) == Excluding(recipes, task)
    ensures q.p.originTask != task && Accepted(lib, recipes, q) ==>
              Excluding(Appended(lib, recipes, q), task) == Excluding(recipes, task) + [Stamped(q.r, q.p, q.now)]
  {
    if Accepted(lib, recipes, q) {
      assert (recipes + [Stamped(q.r, q.p, q.now)])[..|recipes|] == recipes;
    }
  }

  // No run of appends by a task that leaves the file readable changes that
  // task's own anchors.
  lemma {:induction false} FutureOnly(lib: Library, c: Content, requests: seq<(Request, Write)>, task: string,
      rv: Revalidator)
    requires c.Opens() && !Tears(lib, c, requests)
    requires forall k :: 0 <= k < |requests| ==> requests[k].0.p.originTask == task
    ensures AppendAll(lib, c, requests).Opens()
    ensures Anchors(rv, Excluding(AppendAll(lib, c, requests).Recipes(), task)) ==
        Anchors(rv, Excluding(c.Recipes(), task))
    decreases |requests|
  {
    if requests == [] {
    } else {
      var q := requests[0].0;
      if !Blank(task) { AppendIsForTheFuture(lib, c.Recipes(), q, task); }
      assert forall k :: 0 <= k < |requests| - 1 ==> requests[1..][k] == requests[k + 1];
      FutureOnly(lib, Written(lib, c, q, requests[0].1), requests[1..], task, rv);
    }
  }

  // ----- Coverage -----

  predicate AnchorCovers(a: Anchor, world: string, file: string) {
    a.world != "" && a.world == world && file in a.files
  }

  predicate Covered(anchors: seq<Anchor>, world: string, file: string) {
    exists a :: a in anchors && AnchorCovers(a, world, file)
  }

  // An anchor of another world, or of none, covers nothing.
  lemma CoveredIs(anchors: seq<Anchor>, world: string, file: string)
    ensures world == "" ==> !Covered(anchors, world, file)
    ensures world != "" ==>
              (Covered(anchors, world, file) <==>
                 exists k :: 0 <= k < |anchors| && anchors[k].world == world && file in anchors[k].files)
  {
    if Covered(anchors, world, file) {
      var a :| a in anchors && AnchorCovers(a, world, file);
      var k :| 0 <= k < |anchors| && anchors[k] == a;
    }
    if k :| 0 <= k < |anchors| && anchors[k].world == world && file in anchors[k].files {
      assert world != "" ==> AnchorCovers(anchors[k], world, file);
    }
  }

  method IsCovered(anchors: seq<Anchor>, world: string, file: string) returns (hit: bool)
    ensures hit == Covered(anchors, world, file)
  {
    for i := 0 to |anchors|
      invariant forall k :: 0 <= k < i ==> !AnchorCovers(anchors[k], world, file)
    {
      if AnchorCovers(anchors[i], world, file) { return true; }
    }
    hit := false;
  }

  // Every planned file, as often as it is planned, on exactly one side.
  ghost predicate Partition(anchors: seq<Anchor>, world: string, planned: seq<string>, covered: seq<string>,
      uncovered: seq<string>)
  {
    && Sorted(covered) && Sorted(uncovered)
    && multiset(covered) + multiset(uncovered) == multiset(planned)
    && (forall f :: f in covered ==> Covered(anchors, world, f))
    && (forall f :: f in uncovered ==> !Covered(anchors, world, f))
  }

  method CoveredFiles(anchors: seq<Anchor>, world: string, planned: seq<string>)
    returns (covered: seq<string>, uncovered: seq<string>)
    ensures Partition(anchors, world, planned, covered, uncovered)
  {
    covered, uncovered := [], [];
    for i := 0 to |planned|
      invariant multiset(covered) + multiset(uncovered) == multiset(planned[..i])
      invariant forall f :: f in covered ==> Covered(anchors, world, f)
      invariant forall f :: f in uncovered ==> !Covered(anchors, world, f)
    {
      assert planned[..i + 1] == planned[..i] + [planned[i]];
      var hit := IsCovered(anchors, world, planned[i]);
      if hit { covered := covered + [planned[i]]; } else { uncovered := uncovered + [planned[i]]; }
    }
    assert planned[..|planned|] == planned;
    var c, u := SortStrings(covered), SortStrings(uncovered);
    forall f | f in c ensures f in covered { assert f in multiset(c); }
    forall f | f in u ensures f in uncovered { assert f in multiset(u); }
    covered, uncovered := c, u;
  }

  // The partition is determined.
  lemma CoverageDetermined(anchors: seq<Anchor>, world: string, planned: seq<string>, c: seq<string>,
      u: seq<string>, c': seq<string>, u': seq<string>)
    requires Partition(anchors, world, planned, c, u) && Partition(anchors, world, planned, c', u')
    ensures c == c' && u == u'
  {
    forall f ensures multiset(c)[f] == multiset(c')[f] && multiset(u)[f] == multiset(u')[f] {
      assert multiset(c)[f] + multiset(u)[f] == multiset(planned)[f] == multiset(c')[f] + multiset(u')[f];
      assert f in c <==> f in multiset(c);
      assert f in u <==> f in multiset(u);
      assert f in c' <==> f in multiset(c');
      assert f in u' <==> f in multiset(u');
    }
    SortedUnique(c, c');
    SortedUnique(u, u');
  }

  // What a task may count on for its plan is the same before and after any of
  // its own appends that leave the file readable.
  lemma OwnAppendsKeepCoverage(lib: Library, content: Content, requests: seq<(Request, Write)>, task: string,
      rv: Revalidator, world: string, planned: seq<string>, c: seq<string>, u: seq<string>, c': seq<string>,
      u': seq<string>)
    requires content.Opens() && !Tears(lib, content, requests)
    requires forall k :: 0 <= k < |requests| ==> requests[k].0.p.originTask == task
    requires Partition(Anchors(rv, Excluding(content.Recipes(), task)), world, planned, c, u)
    requires AppendAll(lib, content, requests).Opens() ==>
      Partition(Anchors(rv, Excluding(AppendAll(lib, content, requests).Recipes(), task)), world, planned, c', u')
    ensures c == c' && u == u'
  {
    FutureOnly(lib, content, requests, task, rv);
    CoverageDetermined(Anchors(rv, Excluding(content.Recipes(), task)), world, planned, c, u, c', u');
  }
}
