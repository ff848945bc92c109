/** The identity of an answered authority question and the questions one answer
    covers (internal/authority/resolution.go). */
module AuthorityScope {
  import opened Text

  // What an answer was given about; its other fields play no part here.
  datatype Resolution = Resolution(condition: string, scope: seq<string>)

  const NO_SCOPE := "(no scope recorded)"

  // The distinct non-blank trimmed names, in the order they first appear.
  function FirstSeen(scope: seq<string>): (r: seq<string>)
    ensures Distinct(r) && Elements(r) == Names(scope)
  {
    if scope == [] then []
    else
      var init, f := scope[..|scope| - 1], scope[|scope| - 1];
      assert scope == init + [f];
      assert Names(scope) == Names(init) + (if Blank(f) then {} else {TrimSpace(f)});
      var r := FirstSeen(init);
      if Blank(f) || TrimSpace(f) in r then r else r + [TrimSpace(f)]
  }

  function Names(scope: seq<string>): set<string> {
    set f | f in scope && !Blank(f) :: TrimSpace(f)
  }

  function Normalized(scope: seq<string>): seq<string> {
    SortStrings(FirstSeen(scope))
  }

  method NormalizeScope(scope: seq<string>) returns (out: seq<string>)
    ensures out == Normalized(scope)
  {
    var seen: set<string> := {};
    out := [];
    for i := 0 to |scope|
      invariant out == FirstSeen(scope[..i]) && seen == Elements(out)
    {
      FirstSeenStep(scope, i);
      var f := TrimSpace(scope[i]);
      if f != "" && f !in seen {
        ElementsAppend(out, f);
        seen := seen + {f};
        out := out + [f];
      }
    }
    assert scope[..|scope|] == scope;
    out := SortStrings(out);
  }

  lemma FirstSeenStep(scope: seq<string>, i: nat)
    requires i < |scope|
    ensures var r, f := FirstSeen(scope[..i]), TrimSpace(scope[i]);
            FirstSeen(scope[..i + 1]) == if f == "" || f in Elements(r) then r else r + [f]
  {
    assert scope[..i + 1][..i] == scope[..i];
  }

  lemma ElementsAppend(xs: seq<string>, x: string)
    ensures Elements(xs + [x]) == Elements(xs) + {x}
  {
  }

  lemma NormalizedShape(scope: seq<string>)
    ensures var r := Normalized(scope); Sorted(r) && Distinct(r) && Elements(r) == Names(scope)
  {
    var seen, r := FirstSeen(scope), Normalized(scope);
    forall x ensures x in r <==> x in seen { assert x in multiset(r) <==> x in multiset(seen); }
    assert Elements(r) == Elements(seen);
  }

  function ScopeKey(scope: seq<string>): string {
    if Normalized(scope) == [] then NO_SCOPE else Join(Normalized(scope), "\0")
  }

  function Key(r: Resolution): string {
    TrimSpace(r.condition) + "\0" + ScopeKey(r.scope)
  }

  // Same question about a plan inside what was authorised; an unscoped side
  // matches only an unscoped side.
  predicate Covers(r: Resolution, asked: Resolution) {
    && TrimSpace(r.condition) == TrimSpace(asked.condition)
    && Names(asked.scope) <= Names(r.scope)
    && (Names(asked.scope) == {} <==> Names(r.scope) == {})
  }

  method ComputeCovers(r: Resolution, condition: string, scope: seq<string>) returns (b: bool)
    ensures b == Covers(r, Resolution(condition, scope))
  {
    if TrimSpace(r.condition) != TrimSpace(condition) {
      return false;
    }
    var answered := NormalizeScope(r.scope);
    var asked := NormalizeScope(scope);
    NormalizedNames(r.scope);
    NormalizedNames(scope);
    if |answered| == 0 || |asked| == 0 {
      return |answered| == 0 && |asked| == 0;
    }
    b := AllWithin(asked, answered);
  }

  method AllWithin(asked: seq<string>, answered: seq<string>) returns (b: bool)
    ensures b <==> Elements(asked) <= Elements(answered)
  {
    var within: set<string> := {};
    for i := 0 to |answered|
      invariant within == Elements(answered[..i])
    {
      ElementsUpTo(answered, i);
      within := within + {answered[i]};
    }
    assert answered[..|answered|] == answered;
    for i := 0 to |asked|
      invariant Elements(asked[..i]) <= within
    {
      ElementsUpTo(asked, i);
      if asked[i] !in within {
        assert asked[i] in Elements(asked);
        return false;
      }
    }
    assert asked[..|asked|] == asked;
    b := true;
  }

  lemma ElementsUpTo(xs: seq<string>, i: nat)
    requires i < |xs|
    ensures Elements(xs[..i + 1]) == Elements(xs[..i]) + {xs[i]}
    ensures i + 1 == |xs| ==> Elements(xs[..i + 1]) == Elements(xs)
  {
    assert xs[..i + 1] == xs[..i] + [xs[i]];
    if i + 1 == |xs| { assert xs[..i + 1] == xs; }
  }

  lemma NormalizedNames(scope: seq<string>)
    ensures Elements(Normalized(scope)) == Names(scope)
    ensures Normalized(scope) == [] <==> Names(scope) == {}
  {
    NormalizedShape(scope);
    var r := Normalized(scope);
    if r != [] { assert r[0] in Elements(r); }
  }

  lemma NormalizedDetermined(a: seq<string>, b: seq<string>)
    ensures Normalized(a) == Normalized(b) <==> Names(a) == Names(b)
  {
    NormalizedShape(a);
    NormalizedShape(b);
    if Names(a) == Names(b) { SortedDistinctUnique(Normalized(a), Normalized(b)); }
  }

  lemma CoversReflexive(r: Resolution)
    ensures Covers(r, r)
  {
  }

  lemma CoversTransitive(a: Resolution, b: Resolution, c: Resolution)
    requires Covers(a, b) && Covers(b, c)
    ensures Covers(a, c)
  {
  }

  // A file of `scope` that is not blank.
  ghost predicate NamesAFile(scope: seq<string>, f: string) {
    f in scope && TrimSpace(f) != ""
  }

  ghost predicate Within(f: string, scope: seq<string>) {
    exists g :: g in scope && TrimSpace(g) == TrimSpace(f)
  }

  // An answer covers a plan exactly when it was given to the same condition,
  // both or neither name a file, and each file of the plan is in the scope
  // answered about, not the other way round.
  lemma CoversThePlan(r: Resolution, asked: Resolution)
    ensures Covers(r, asked) <==>
              && TrimSpace(r.condition) == TrimSpace(asked.condition)
              && (forall f :: NamesAFile(asked.scope, f) ==> Within(f, r.scope))
              && ((exists f :: NamesAFile(asked.scope, f)) <==> (exists f :: NamesAFile(r.scope, f)))
  {
    SomeName(r.scope);
    SomeName(asked.scope);
    forall f | NamesAFile(asked.scope, f)
      ensures TrimSpace(f) in Names(r.scope) <==> Within(f, r.scope)
    {
    }
    forall n | n in Names(asked.scope)
      ensures exists f :: NamesAFile(asked.scope, f) && TrimSpace(f) == n
    {
      var f :| f in asked.scope && !Blank(f) && TrimSpace(f) == n;
      assert NamesAFile(asked.scope, f);
    }
    assert forall f :: NamesAFile(asked.scope, f) ==> TrimSpace(f) in Names(asked.scope);
  }

  lemma SomeName(scope: seq<string>)
    ensures Names(scope) == {} <==> !exists f :: NamesAFile(scope, f)
  {
    if f :| NamesAFile(scope, f) { assert TrimSpace(f) in Names(scope); }
    if Names(scope) != {} {
      var n :| n in Names(scope);
      var f :| f in scope && !Blank(f) && TrimSpace(f) == n;
      assert NamesAFile(scope, f);
    }
  }

  lemma SameNamesSameScope(r: Resolution, r': Resolution, asked: Resolution, asked': Resolution)
    requires r.condition == r'.condition && Names(r.scope) == Names(r'.scope)
    requires asked.condition == asked'.condition && Names(asked.scope) == Names(asked'.scope)
    ensures Covers(r, asked) == Covers(r', asked')
    ensures Key(r) == Key(r')
  {
    NormalizedDetermined(r.scope, r'.scope);
  }

  // Ways to write one scope differently: in another order, with a blank entry
  // or a repeated name put in, with other white space around a name.
  ghost predicate Reordered(a: seq<string>, b: seq<string>) { multiset(a) == multiset(b) }

  ghost predicate Padded(a: seq<string>, b: seq<string>) {
    exists x, y, f :: a == x + y && b == x + [f] + y && (Blank(f) || exists g :: g in a && TrimSpace(g) == TrimSpace(f))
  }

  ghost predicate Respaced(a: seq<string>, b: seq<string>) {
    |a| == |b| && forall k :: 0 <= k < |a| ==> TrimSpace(a[k]) == TrimSpace(b[k])
  }

  ghost predicate Respelled(a: seq<string>, b: seq<string>) {
    Reordered(a, b) || Padded(a, b) || Padded(b, a) || Respaced(a, b)
  }

  lemma ReorderedNames(a: seq<string>, b: seq<string>)
    requires Reordered(a, b)
    ensures Names(a) == Names(b)
  {
    assert forall f :: f in a <==> f in multiset(a);
    assert forall f :: f in b <==> f in multiset(b);
  }

  lemma PaddedNames(a: seq<string>, b: seq<string>)
    requires Padded(a, b)
    ensures Names(a) == Names(b)
  {
    var x, y, f :| a == x + y && b == x + [f] + y && (Blank(f) || exists g :: g in a && TrimSpace(g) == TrimSpace(f));
    assert forall g :: g in b <==> g in a || g == f;
    if !Blank(f) {
      var g :| g in a && TrimSpace(g) == TrimSpace(f);
      assert TrimSpace(g) in Names(a);
    }
  }

  lemma RespacedNames(a: seq<string>, b: seq<string>)
    requires Respaced(a, b)
    ensures Names(a) <= Names(b)
  {
    forall n | n in Names(a)
      ensures n in Names(b)
    {
      var k :| 0 <= k < |a| && !Blank(a[k]) && TrimSpace(a[k]) == n;
      assert b[k] in b && !Blank(b[k]);
    }
  }

  lemma RespelledNames(a: seq<string>, b: seq<string>)
    requires Respelled(a, b)
    ensures Names(a) == Names(b)
  {
    if Reordered(a, b) {
      ReorderedNames(a, b);
    } else if Padded(a, b) {
      PaddedNames(a, b);
    } else if Padded(b, a) {
      PaddedNames(b, a);
    } else {
      RespacedNames(a, b);
      RespacedNames(b, a);
    }
  }

  // Order, duplicates, blank entries and surrounding white space in either
  // scope change neither the coverage nor the key.
  lemma ScopeSpellingIrrelevant(r: Resolution, r': Resolution, asked: Resolution, asked': Resolution)
    requires r.condition == r'.condition && (r.scope == r'.scope || Respelled(r.scope, r'.scope))
    requires asked.condition == asked'.condition &&
        (asked.scope == asked'.scope || Respelled(asked.scope, asked'.scope))
    ensures Covers(r, asked) == Covers(r', asked')
    ensures Key(r) == Key(r') && Key(asked) == Key(asked')
  {
    if r.scope != r'.scope { RespelledNames(r.scope, r'.scope); }
    if asked.scope != asked'.scope { RespelledNames(asked.scope, asked'.scope); }
    SameNamesSameScope(r, r', asked, asked');
    SameNamesSameScope(asked, asked', asked, asked');
  }

  predicate NulFree(s: string) { '\0' !in s }

  predicate Plain(r: Resolution) {
    NulFree(r.condition) && forall f :: f in r.scope ==> NulFree(f)
  }

  lemma PlainNames(scope: seq<string>)
    requires forall f :: f in scope ==> NulFree(f)
    ensures forall x :: x in Normalized(scope) ==> NulFree(x)
  {
    NormalizedNames(scope);
    forall x | x in Normalized(scope) ensures NulFree(x) {
      assert x in Elements(Normalized(scope));
      var f :| f in scope && TrimSpace(f) == x;
      TrimSpaceCharacters(f);
    }
  }

  // One side records no scope and the other's only file is spelled like the
  // marker for that.
  predicate MarkerClash(a: Resolution, b: Resolution) {
    || (Normalized(a.scope) == [] && Normalized(b.scope) == [NO_SCOPE])
    || (Normalized(b.scope) == [] && Normalized(a.scope) == [NO_SCOPE])
  }

  // What ScopeKey joins.
  ghost function KeyNames(scope: seq<string>): (r: seq<string>)
    ensures r != []
  {
    if Normalized(scope) == [] then [NO_SCOPE] else Normalized(scope)
  }

  lemma ScopeKeyJoins(scope: seq<string>)
    requires forall f :: f in scope ==> NulFree(f)
    ensures ScopeKey(scope) == Join(KeyNames(scope), "\0")
    ensures forall x :: x in KeyNames(scope) ==> NulFree(x)
  {
    PlainNames(scope);
  }

  lemma ScopeKeyEqual(a: seq<string>, b: seq<string>)
    requires forall f :: f in a ==> NulFree(f)
    requires forall f :: f in b ==> NulFree(f)
    ensures ScopeKey(a) == ScopeKey(b) <==> KeyNames(a) == KeyNames(b)
  {
    ScopeKeyJoins(a);
    ScopeKeyJoins(b);
    if ScopeKey(a) == ScopeKey(b) {
      JoinInjective(KeyNames(a), KeyNames(b), '\0');
    }
  }

  lemma KeyNamesEqual(a: seq<string>, b: seq<string>)
    ensures KeyNames(a) == KeyNames(b) <==>
            || Names(a) == Names(b)
            || (Normalized(a) == [] && Normalized(b) == [NO_SCOPE])
            || (Normalized(b) == [] && Normalized(a) == [NO_SCOPE])
  {
    NormalizedDetermined(a, b);
  }

  lemma KeyEqualParts(a: Resolution, b: Resolution)
    requires Plain(a) && Plain(b)
    ensures Key(a) == Key(b) <==>
            TrimSpace(a.condition) == TrimSpace(b.condition) && KeyNames(a.scope) == KeyNames(b.scope)
  {
    TrimSpaceCharacters(a.condition);
    TrimSpaceCharacters(b.condition);
    ScopeKeyEqual(a.scope, b.scope);
    if Key(a) == Key(b) {
      SplitAt(TrimSpace(a.condition), ScopeKey(a.scope), TrimSpace(b.condition), ScopeKey(b.scope), '\0');
    }
  }

  // The key is the identity of the question, up to the one spelling clash.
  lemma KeyEqualIffMutuallyCovering(a: Resolution, b: Resolution)
    requires Plain(a) && Plain(b)
    ensures Key(a) == Key(b) <==>
            || (Covers(a, b) && Covers(b, a))
            || (TrimSpace(a.condition) == TrimSpace(b.condition) && MarkerClash(a, b))
  {
    KeyEqualParts(a, b);
    KeyNamesEqual(a.scope, b.scope);
  }

  // With no file named like the marker the clash cannot arise.
  lemma KeyIsTheQuestion(a: Resolution, b: Resolution)
    requires Plain(a) && Plain(b)
    requires NO_SCOPE !in Names(a.scope) && NO_SCOPE !in Names(b.scope)
    ensures Key(a) == Key(b) <==> Covers(a, b) && Covers(b, a)
  {
    KeyEqualIffMutuallyCovering(a, b);
    NormalizedNames(a.scope);
    NormalizedNames(b.scope);
    assert NO_SCOPE in Elements([NO_SCOPE]);
  }

  lemma Unspaced(s: string)
    requires s != "" && !IsSpace(s[0]) && !IsSpace(s[|s| - 1])
    ensures TrimSpace(s) == s && !Blank(s)
  {
  }

  lemma NormalizedIs(scope: seq<string>, names: seq<string>)
    requires Sorted(names) && Distinct(names)
    requires forall f :: f in scope ==> TrimSpace(f) == f != ""
    requires Elements(names) == Elements(scope)
    ensures Normalized(scope) == names
  {
    assert Names(scope) == Elements(scope) by {
      forall x | x in Names(scope) ensures x in scope { }
      forall x | x in scope ensures x in Names(scope) { assert TrimSpace(x) == x; }
    }
    NormalizedShape(scope);
    SortedDistinctUnique(Normalized(scope), names);
  }

  // Both exclusions are needed. A NUL inside a condition gives two different
  // questions one key ...
  lemma NulInConditionCollides(p: string, q: string, r: string, a: Resolution, b: Resolution)
    requires TrimSpace(p) == p != "" && TrimSpace(q) == q != "" && TrimSpace(r) == r != ""
    requires Leq(q, r) && q != r
    requires a == Resolution(p + "\0" + q, [r]) && b == Resolution(p, [q, r])
    ensures Key(a) == Key(b) && !Covers(a, b) && !Covers(b, a)
  {
    Glued(p, q);
    OneKey(r);
    PairKey(q, r);
    assert Key(a) == p + "\0" + q + "\0" + r;
    assert Key(b) == p + "\0" + (q + "\0" + r);
    Reassociate(p, q, r);
    DifferentConditions(a, b);
  }

  lemma Reassociate(p: string, q: string, r: string)
    ensures p + "\0" + q + "\0" + r == p + "\0" + (q + "\0" + r)
  {
  }

  lemma DifferentConditions(a: Resolution, b: Resolution)
    requires TrimSpace(a.condition) != TrimSpace(b.condition)
    ensures !Covers(a, b) && !Covers(b, a)
  {
  }

  lemma Glued(p: string, q: string)
    requires TrimSpace(p) == p != "" && TrimSpace(q) == q != ""
    ensures TrimSpace(p + "\0" + q) == p + "\0" + q != p
  {
    var pq := p + "\0" + q;
    assert pq[0] == TrimSpace(p)[0] && pq[|pq| - 1] == TrimSpace(q)[|q| - 1];
    Unspaced(pq);
    assert |pq| > |p|;
  }

  lemma OneKey(r: string)
    requires TrimSpace(r) == r != ""
    ensures ScopeKey([r]) == r
  {
    NormalizedIs([r], [r]);
  }

  lemma PairKey(q: string, r: string)
    requires TrimSpace(q) == q != "" && TrimSpace(r) == r != ""
    requires Leq(q, r) && q != r
    ensures ScopeKey([q, r]) == q + "\0" + r
  {
    var names := [q, r];
    NormalizedIs(names, names);
    assert names[1..] == [r];
    assert Join(names, "\0") == q + "\0" + Join([r], "\0");
  }

  lemma NamesOfOne(q: string)
    requires TrimSpace(q) == q != ""
    ensures Names([q]) == {q}
  {
    assert [q][0] in [q];
  }

  lemma NamesOfTwo(q: string, r: string)
    requires TrimSpace(q) == q != "" && TrimSpace(r) == r != ""
    ensures Names([q, r]) == {q, r}
  {
    assert [q, r][0] in [q, r] && [q, r][1] in [q, r];
  }

  lemma LongerIsNeither(q: string, r: string, glued: string)
    requires |glued| > |q| && |glued| > |r|
    ensures !({glued} <= {q, r}) && !({q, r} <= {glued})
  {
    assert glued in {glued} && q in {q, r};
  }

  // ... a NUL inside a file name makes one file of two ...
  lemma NulInNameCollides(p: string, q: string, r: string)
    requires TrimSpace(q) == q != "" && TrimSpace(r) == r != ""
    requires Leq(q, r) && q != r
    ensures var a, b := Resolution(p, [q + "\0" + r]), Resolution(p, [q, r]);
            Key(a) == Key(b) && !Covers(a, b) && !Covers(b, a)
  {
    var glued := q + "\0" + r;
    Glued(q, r);
    OneKey(glued);
    PairKey(q, r);
    NamesOfOne(glued);
    NamesOfTwo(q, r);
    LongerIsNeither(q, r, glued);
  }

  // ... and so does a file spelled like the marker.
  lemma MarkerFileCollides(p: string)
    ensures var a, b := Resolution(p, []), Resolution(p, [NO_SCOPE]);
            Key(a) == Key(b) && !Covers(a, b) && !Covers(b, a)
  {
    Unspaced(NO_SCOPE);
    NormalizedIs([NO_SCOPE], [NO_SCOPE]);
    NormalizedNames([NO_SCOPE]);
    NormalizedNames([]);
  }
}
