/** The string library calls the repository rests on: trimming, prefixes and
    suffixes, and `sort.Strings`. A string is a sequence of characters; on valid
    UTF-8 text Go's byte order is the code-point order used here. */
module Text {

  // unicode.IsSpace
  predicate IsSpace(c: char) {
    || '\t' <= c <= '\r' || c == ' ' || c == '\U{0085}' || c == '\U{00A0}' || c == '\U{1680}'
    || '\U{2000}' <= c <= '\U{200A}' || c == '\U{2028}' || c == '\U{2029}' || c == '\U{202F}'
    || c == '\U{205F}' || c == '\U{3000}'
  }

  lemma AsciiSpace(c: char)
    requires c < '\U{0080}'
    ensures IsSpace(c) <==> c in {'\t', '\n', '\U{000B}', '\U{000C}', '\r', ' '}
  {
  }

  function TrimLeft(s: string): (r: string)
    ensures r != [] ==> !IsSpace(r[0])
  {
    if s != [] && IsSpace(s[0]) then TrimLeft(s[1..]) else s
  }

  function TrimRight(s: string): (r: string)
    ensures r <= s
    ensures r != [] ==> !IsSpace(r[|r| - 1])
  {
    if s != [] && IsSpace(s[|s| - 1]) then TrimRight(s[..|s| - 1]) else s
  }

  // strings.TrimSpace
  function TrimSpace(s: string): (r: string)
    ensures r != [] ==> !IsSpace(r[0]) && !IsSpace(r[|r| - 1])
  {
    TrimRight(TrimLeft(s))
  }

  predicate Blank(s: string) { TrimSpace(s) == "" }

  ghost predicate AllSpace(s: string) { forall c :: c in s ==> IsSpace(c) }

  lemma {:induction false} TrimLeftRemoves(s: string)
    ensures exists a :: s == a + TrimLeft(s) && AllSpace(a)
  {
    if s != [] && IsSpace(s[0]) {
      TrimLeftRemoves(s[1..]);
      var a :| s[1..] == a + TrimLeft(s[1..]) && AllSpace(a);
      assert s == ([s[0]] + a) + TrimLeft(s) && AllSpace([s[0]] + a);
    } else {
      assert s == "" + TrimLeft(s) && AllSpace("");
    }
  }

  lemma {:induction false} TrimRightRemoves(s: string)
    ensures exists b :: s == TrimRight(s) + b && AllSpace(b)
  {
    if s != [] && IsSpace(s[|s| - 1]) {
      var init := s[..|s| - 1];
      TrimRightRemoves(init);
      var b :| init == TrimRight(init) + b && AllSpace(b);
      assert s == TrimRight(s) + (b + [s[|s| - 1]]) && AllSpace(b + [s[|s| - 1]]);
    } else {
      assert s == TrimRight(s) + "" && AllSpace("");
    }
  }

  // Trimming takes white space off both ends and nothing else.
  lemma TrimSpaceRemoves(s: string)
    ensures exists a, b :: s == a + TrimSpace(s) + b && AllSpace(a) && AllSpace(b)
  {
    TrimLeftRemoves(s);
    var a :| s == a + TrimLeft(s) && AllSpace(a);
    TrimRightRemoves(TrimLeft(s));
    var b :| TrimLeft(s) == TrimSpace(s) + b && AllSpace(b);
    assert s == a + TrimSpace(s) + b;
  }

  lemma TrimSpaceIdempotent(s: string)
    ensures TrimSpace(TrimSpace(s)) == TrimSpace(s)
  {
  }

  lemma {:induction false} TrimLeftIsSuffix(s: string)
    ensures |TrimLeft(s)| <= |s| && TrimLeft(s) == s[|s| - |TrimLeft(s)|..]
  {
    if s != [] && IsSpace(s[0]) {
      TrimLeftIsSuffix(s[1..]);
      assert s[1..][|s| - 1 - |TrimLeft(s)|..] == s[|s| - |TrimLeft(s)|..];
    }
  }

  // Trimming introduces no character.
  lemma TrimSpaceCharacters(s: string)
    ensures forall c :: c in TrimSpace(s) ==> c in s
  {
    TrimLeftIsSuffix(s);
  }

  lemma BlankIs(s: string)
    ensures Blank(s) <==> AllSpace(s)
  {
    TrimSpaceRemoves(s);
    TrimSpaceCharacters(s);
    var t := TrimSpace(s);
    assert t != "" ==> t[0] in t;
  }

  // Does s read `word` at position i?
  predicate ReadsAt(s: string, i: nat, word: string) {
    i + |word| <= |s| && forall k :: 0 <= k < |word| ==> s[i + k] == word[k]
  }

  lemma ReadsFrom(s: string, i: nat, word: string)
    requires i <= |s|
    ensures ReadsAt(s, i, word) <==> word <= s[i..]
  {
    if ReadsAt(s, i, word) {
      forall k | 0 <= k < |word| ensures s[i..][k] == word[k] { assert s[i + k] == word[k]; }
    }
    if word <= s[i..] {
      forall k | 0 <= k < |word| ensures s[i + k] == word[k] { assert s[i..][k] == word[k]; }
    }
  }

  lemma ReadsAtStart(s: string, word: string)
    ensures ReadsAt(s, 0, word) <==> word <= s
  {
    if ReadsAt(s, 0, word) {
      forall k | 0 <= k < |word| ensures s[k] == word[k] { assert s[0 + k] == word[k]; }
    }
  }

  predicate HasSuffix(s: string, suffix: string) {
    |suffix| <= |s| && ReadsAt(s, |s| - |suffix|, suffix)
  }

  function TrimSuffix(s: string, suffix: string): string {
    if HasSuffix(s, suffix) then s[..|s| - |suffix|] else s
  }

  lemma SuffixIs(s: string, suffix: string)
    ensures HasSuffix(s, suffix) <==> |suffix| <= |s| && s[|s| - |suffix|..] == suffix
  {
    if HasSuffix(s, suffix) {
      var i := |s| - |suffix|;
      forall k | 0 <= k < |suffix| ensures s[i..][k] == suffix[k] { assert s[i + k] == suffix[k]; }
    } else if |suffix| <= |s| {
      var i := |s| - |suffix|;
      var k :| 0 <= k < |suffix| && s[i + k] != suffix[k];
      assert s[i..][k] != suffix[k];
    }
  }

  lemma SuffixOf(b: string, suffix: string)
    ensures HasSuffix(b + suffix, suffix) && TrimSuffix(b + suffix, suffix) == b
  {
    SuffixIs(b + suffix, suffix);
  }

  lemma SuffixSplits(s: string, suffix: string)
    requires HasSuffix(s, suffix)
    ensures s == s[..|s| - |suffix|] + suffix
  {
    SuffixIs(s, suffix);
  }

  // The order sort.Strings uses.
  predicate Leq(a: string, b: string) {
    a == [] || (b != [] && (a[0] < b[0] || (a[0] == b[0] && Leq(a[1..], b[1..]))))
  }

  // At the first place where two strings differ the smaller character decides,
  // and what another string begins with comes first.
  lemma {:induction false} LeqIsLexicographic(a: string, b: string, k: nat)
    requires k <= |a| && k <= |b| && a[..k] == b[..k]
    ensures k == |a| ==> Leq(a, b)
    ensures k < |a| && k < |b| && a[k] != b[k] ==> (Leq(a, b) <==> a[k] < b[k])
  {
    if k == 0 {
    } else {
      assert a[0] == a[..k][0] == b[..k][0] == b[0];
      assert a[1..][..k - 1] == a[..k][1..] == b[..k][1..] == b[1..][..k - 1];
      LeqIsLexicographic(a[1..], b[1..], k - 1);
    }
  }

  lemma LeqTotal(a: string, b: string)
    ensures Leq(a, b) || Leq(b, a)
  {
  }

  lemma {:induction false} LeqAntisymmetric(a: string, b: string)
    requires Leq(a, b) && Leq(b, a)
    ensures a == b
  {
    if a == [] {
    } else {
      LeqAntisymmetric(a[1..], b[1..]);
      assert a == [a[0]] + a[1..] && b == [b[0]] + b[1..];
    }
  }

  lemma {:induction false} LeqTransitive(a: string, b: string, c: string)
    requires Leq(a, b) && Leq(b, c)
    ensures Leq(a, c)
  {
    if a != [] && a[0] == b[0] == c[0] {
      LeqTransitive(a[1..], b[1..], c[1..]);
    }
  }

  ghost predicate Sorted(xs: seq<string>) {
    forall i, j :: 0 <= i < j < |xs| ==> Leq(xs[i], xs[j])
  }

  // No element occurs twice.
  ghost predicate Distinct<T>(xs: seq<T>) {
    forall x | x in xs :: multiset(xs)[x] == 1
  }

  function Elements<T>(xs: seq<T>): set<T> {
    set x | x in xs
  }

  function InsertSorted(x: string, xs: seq<string>): (r: seq<string>)
    ensures multiset(r) == multiset(xs) + multiset{x}
  {
    if xs == [] then [x]
    else if Leq(x, xs[0]) then [x] + xs
    else
      assert xs == [xs[0]] + xs[1..];
      [xs[0]] + InsertSorted(x, xs[1..])
  }

  lemma SortedCons(x: string, xs: seq<string>)
    requires Sorted(xs) && forall y :: y in xs ==> Leq(x, y)
    ensures Sorted([x] + xs)
  {
  }

  lemma {:induction false} InsertSortedIsSorted(x: string, xs: seq<string>)
    requires Sorted(xs)
    ensures Sorted(InsertSorted(x, xs))
  {
    if xs == [] {
    } else if Leq(x, xs[0]) {
      forall y | y in xs ensures Leq(x, y) {
        var j :| 0 <= j < |xs| && xs[j] == y;
        if j > 0 { LeqTransitive(x, xs[0], y); }
      }
      SortedCons(x, xs);
    } else {
      LeqTotal(x, xs[0]);
      InsertSortedIsSorted(x, xs[1..]);
      var rest := InsertSorted(x, xs[1..]);
      forall y | y in rest ensures Leq(xs[0], y) {
        assert y in multiset(rest);
        if y != x { assert y in xs[1..]; }
      }
      SortedCons(xs[0], rest);
    }
  }

  // sort.Strings
  function SortStrings(xs: seq<string>): (r: seq<string>)
    ensures Sorted(r)
    ensures multiset(r) == multiset(xs)
  {
    if xs == [] then []
    else
      assert xs == [xs[0]] + xs[1..];
      var rest := SortStrings(xs[1..]);
      InsertSortedIsSorted(xs[0], rest);
      InsertSorted(xs[0], rest)
  }

  lemma TailsMatch<T>(a: seq<T>, b: seq<T>)
    requires a != [] && b != [] && a[0] == b[0] && multiset(a) == multiset(b)
    ensures multiset(a[1..]) == multiset(b[1..])
    ensures a[1..] == b[1..] ==> a == b
  {
    assert a == [a[0]] + a[1..] && b == [b[0]] + b[1..];
    assert multiset(a[1..]) == multiset(a) - multiset{a[0]};
    assert multiset(b[1..]) == multiset(b) - multiset{b[0]};
  }

  // A sorted arrangement is determined by what it arranges: no sort.Strings
  // implementation has a choice.
  lemma {:induction false} SortedUnique(a: seq<string>, b: seq<string>)
    requires Sorted(a) && Sorted(b) && multiset(a) == multiset(b)
    ensures a == b
  {
    if a == [] {
      assert |multiset(b)| == |multiset(a)| == 0;
    } else {
      assert a[0] in multiset(b) && b != [];
      assert b[0] in multiset(a);
      if a[0] != b[0] {
        LeqAntisymmetric(a[0], b[0]);
      }
      TailsMatch(a, b);
      SortedUnique(a[1..], b[1..]);
    }
  }

  lemma DistinctMultiset<T>(xs: seq<T>)
    requires Distinct(xs)
    ensures multiset(xs) == multiset(Elements(xs))
  {
    forall x ensures multiset(xs)[x] == multiset(Elements(xs))[x] {
      if x in xs { assert x in Elements(xs); }
    }
  }

  lemma SortedDistinctUnique(a: seq<string>, b: seq<string>)
    requires Sorted(a) && Sorted(b) && Distinct(a) && Distinct(b)
    requires Elements(a) == Elements(b)
    ensures a == b
  {
    DistinctMultiset(a);
    DistinctMultiset(b);
    SortedUnique(a, b);
  }

  // strings.Join
  function Join(xs: seq<string>, sep: string): string {
    if xs == [] then "" else if |xs| == 1 then xs[0] else xs[0] + sep + Join(xs[1..], sep)
  }

  ghost predicate AllLack(xs: seq<string>, c: char) {
    forall x :: x in xs ==> c !in x
  }

  lemma SplitAt(a: string, x: string, b: string, y: string, c: char)
    requires c !in a && c !in b
    requires a + [c] + x == b + [c] + y
    ensures a == b && x == y
  {
    var s := a + [c] + x;
    assert s[|a|] == c && s[|b|] == c;
    assert a == s[..|a|] && b == s[..|b|];
    assert x == s[|a| + 1..] && y == s[|b| + 1..];
  }

  lemma JoinHas(xs: seq<string>, c: char)
    requires xs != [] && c !in xs[0]
    ensures c in Join(xs, [c]) <==> |xs| > 1
    ensures |xs| == 1 ==> xs == [Join(xs, [c])]
  {
    if |xs| > 1 { assert Join(xs, [c])[|xs[0]|] == c; }
  }

  // What was joined can be told from the whole when no part holds the separator.
  lemma {:induction false} JoinInjective(xs: seq<string>, ys: seq<string>, c: char)
    requires xs != [] && ys != [] && AllLack(xs, c) && AllLack(ys, c)
    requires Join(xs, [c]) == Join(ys, [c])
    ensures xs == ys
  {
    if |xs| > 1 && |ys| > 1 {
      SplitAt(xs[0], Join(xs[1..], [c]), ys[0], Join(ys[1..], [c]), c);
      JoinInjective(xs[1..], ys[1..], c);
      assert xs == [xs[0]] + xs[1..] && ys == [ys[0]] + ys[1..];
    } else {
      JoinHas(xs, c);
      JoinHas(ys, c);
    }
  }

  predicate IsDigit(c: char) { '0' <= c <= '9' }

  ghost predicate AllDigits(s: string) { forall c :: c in s ==> IsDigit(c) }

  // The length of the longest run of digits s starts with.
  function DigitRun(s: string): (n: nat)
    ensures n <= |s| && AllDigits(s[..n])
    ensures n < |s| ==> !IsDigit(s[n])
  {
    if s != [] && IsDigit(s[0]) then
      assert forall n :: 0 <= n <= |s| - 1 ==> s[..n + 1] == [s[0]] + s[1..][..n];
      1 + DigitRun(s[1..])
    else 0
  }

  lemma {:induction false} DigitRunIs(s: string, a: string, rest: string)
    requires s == a + rest && AllDigits(a) && (rest == [] || !IsDigit(rest[0]))
    ensures DigitRun(s) == |a|
  {
    if a == [] {
      assert s == rest;
    } else {
      assert s[0] == a[0] && s[1..] == a[1..] + rest;
      DigitRunIs(s[1..], a[1..], rest);
    }
  }
}
