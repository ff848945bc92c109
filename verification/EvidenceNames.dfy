/** What a physical evidence file name claims to be (cmd/corpus/evidence.go):
    a stream, an ordered piece of one, or a run artifact beside one. */
module EvidenceNames {
  import opened Wrappers
  import opened Text

  const MARK := ".part-"

  // The largest int; strconv.Atoi saturates there and its error is dropped.
  const MAX_INT := 0x7fff_ffff_ffff_ffff

  predicate IsStreamName(name: string) {
    !HasSuffix(name, ".receipts.jsonl") && (HasSuffix(name, ".log") || HasSuffix(name, ".jsonl"))
  }

  function StreamBase(stream: string): string {
    TrimSuffix(TrimSuffix(stream, ".log"), ".jsonl")
  }

  lemma OtherLastLetter(s: string, suffix: string)
    requires s != "" && suffix != "" && s[|s| - 1] != suffix[|suffix| - 1]
    ensures !HasSuffix(s, suffix) && TrimSuffix(s, suffix) == s
  {
    if |suffix| <= |s| { assert s[|s| - |suffix| + (|suffix| - 1)] == s[|s| - 1]; }
  }

  lemma SameEnd(a: string, b: string, end: string)
    requires a + end == b + end
    ensures a == b
  {
    assert a == (a + end)[..|a|] && b == (b + end)[..|b|];
  }

  lemma TwoSuffixes(b: string, first: string, second: string)
    ensures HasSuffix(b + second, first + second) <==> HasSuffix(b, first)
  {
    SuffixIs(b + second, first + second);
    SuffixIs(b, first);
    if |first| <= |b| {
      var i := |b| - |first|;
      assert (b + second)[i..] == b[i..] + second;
      if b[i..] + second == first + second { SameEnd(b[i..], first, second); }
    }
  }

  lemma LogIsNoReceipts(b: string)
    ensures !HasSuffix(b + ".log", ".receipts.jsonl")
    ensures !HasSuffix(b + ".jsonl", ".log")
  {
    OtherLastLetter(b + ".log", ".receipts.jsonl");
    OtherLastLetter(b + ".jsonl", ".log");
  }

  lemma ReceiptsEnd(b: string)
    ensures HasSuffix(b + ".jsonl", ".receipts.jsonl") <==> HasSuffix(b, ".receipts")
  {
    TwoSuffixes(b, ".receipts", ".jsonl");
    assert ".receipts" + ".jsonl" == ".receipts.jsonl";
  }

  // The streams are the names that end in ".log", and those that end in
  // ".jsonl" but not in ".receipts.jsonl".
  lemma StreamNames(b: string)
    ensures IsStreamName(b + ".log")
    ensures IsStreamName(b + ".jsonl") <==> !HasSuffix(b, ".receipts")
  {
    SuffixOf(b, ".log");
    SuffixOf(b, ".jsonl");
    LogIsNoReceipts(b);
    ReceiptsEnd(b);
  }

  lemma StreamNamesOnly(name: string)
    requires IsStreamName(name)
    ensures exists b :: name == b + ".log" || name == b + ".jsonl"
  {
    if HasSuffix(name, ".log") { SuffixSplits(name, ".log"); } else { SuffixSplits(name, ".jsonl"); }
  }

  // What a stream's artifacts are named from: the stream without its
  // extension, and without both where it carries both.
  lemma BaseOfStream(b: string)
    ensures StreamBase(b + ".jsonl") == b
    ensures !HasSuffix(b, ".jsonl") ==> StreamBase(b + ".log") == b
    ensures StreamBase(b + ".jsonl" + ".log") == b
  {
    LogIsNoReceipts(b);
    SuffixOf(b, ".jsonl");
    SuffixOf(b, ".log");
    SuffixOf(b + ".jsonl", ".log");
  }

  // `s` is `b` with a stream's extension, or with both.
  ghost predicate StreamFrom(b: string, s: string) {
    s == b + ".jsonl" || s == b + ".jsonl" + ".log" || (s == b + ".log" && !HasSuffix(b, ".jsonl"))
  }

  lemma BaseIs(b: string, s: string)
    requires IsStreamName(s)
    ensures StreamFrom(b, s) <==> b == StreamBase(s)
  {
    BaseOfStream(b);
    StreamIsFromItsBase(s);
  }

  lemma StreamIsFromItsBase(s: string)
    requires IsStreamName(s)
    ensures StreamFrom(StreamBase(s), s)
  {
    if HasSuffix(s, ".log") {
      var b := s[..|s| - 4];
      SuffixSplits(s, ".log");
      if HasSuffix(b, ".jsonl") { SuffixSplits(b, ".jsonl"); }
    } else {
      SuffixSplits(s, ".jsonl");
    }
  }

  // ----- The stream a name claims to be a piece of -----

  predicate MarkAt(name: string, i: nat) { ReadsAt(name, i, MARK) }

  predicate SplitsAt(name: string, i: nat) {
    MarkAt(name, i) && IsStreamName(name[..i])
  }

  // The last split before n, or 0, where no name splits.
  function LastSplit(name: string, n: nat): nat {
    if n == 0 then 0 else if SplitsAt(name, n - 1) then n - 1 else LastSplit(name, n - 1)
  }

  function PartOf(name: string): string {
    if IsStreamName(name) then "" else Prefix(name, LastSplit(name, |name|))
  }

  function Prefix(name: string, i: nat): string {
    if i <= |name| then name[..i] else ""
  }

  lemma {:induction false} LastSplitIsLast(name: string, n: nat)
    ensures var i := LastSplit(name, n);
            && (i == 0 || (i < n && SplitsAt(name, i)))
            && forall j :: i < j < n ==> !SplitsAt(name, j)
  {
    if n > 0 { LastSplitIsLast(name, n - 1); }
  }

  // A name is a stream or a piece of one, never both; among the prefixes that
  // qualify the longest wins.
  lemma PartOfIsTheLongest(name: string)
    ensures var r := PartOf(name);
            && (r != "" ==> !IsStreamName(name) && r <= name && SplitsAt(name, |r|)
                            && forall j :: |r| < j ==> !SplitsAt(name, j))
            && (r == "" ==> IsStreamName(name) || forall j: nat :: !SplitsAt(name, j))
  {
    LastSplitIsLast(name, |name|);
    EmptyIsNoStream();
    assert name[..0] == "";
  }

  lemma EmptyIsNoStream()
    ensures !IsStreamName("")
  {
  }

  lemma PartOfIs(name: string, i: nat)
    requires !IsStreamName(name) && 0 < i && SplitsAt(name, i)
    requires forall j :: i < j < |name| ==> !SplitsAt(name, j)
    ensures PartOf(name) == name[..i]
  {
    LastSplitIsLast(name, |name|);
  }

  method ComputePartOf(name: string) returns (logical: string)
    ensures logical == PartOf(name)
  {
    if IsStreamName(name) { return ""; }
    logical := "";
    var i := 0;
    while i + |MARK| <= |name|
      invariant i <= |name|
      invariant logical == Prefix(name, LastSplit(name, i))
    {
      if MarkAt(name, i) && IsStreamName(name[..i]) {
        logical := name[..i];
      }
      i := i + 1;
    }
    NoSplitAtTheEnd(name, i, |name|);
  }

  lemma {:induction false} NoSplitAtTheEnd(name: string, i: nat, n: nat)
    requires i <= n && |name| < i + |MARK|
    ensures LastSplit(name, n) == LastSplit(name, i)
  {
    if i < n { NoSplitAtTheEnd(name, i, n - 1); }
  }

  // ----- The sequence a piece declares -----

  // Decimal value.
  function Value(digits: string): nat {
    if digits == [] then 0
    else
      var c := digits[|digits| - 1];
      10 * Value(digits[..|digits| - 1]) + (if IsDigit(c) then (c - '0') as nat else 0)
  }

  function Number(digits: string): nat {
    if Value(digits) <= MAX_INT then Value(digits) else MAX_INT
  }

  datatype Part = Part(name: string, index: nat, total: nat)

  const OF := "-of-"

  // The tail of a piece: three or more digits, "-of-", three or more digits.
  function ParseSequence(tail: string): Option<(nat, nat)> {
    Decode(tail, DigitRun(tail))
  }

  function Decode(tail: string, d: nat): Option<(nat, nat)> {
    if d >= 3 && d + |OF| + 3 <= |tail| && ReadsAt(tail, d, OF)
       && DigitRun(tail[d + |OF|..]) == |tail| - (d + |OF|)
    then Some((Number(tail[..d]), Number(tail[d + |OF|..])))
    else None
  }

  // The scanner accepts exactly the declared grammar.
  lemma SequenceGrammar(tail: string, a: string, b: string)
    requires tail == a + OF + b && |a| >= 3 && |b| >= 3 && AllDigits(a) && AllDigits(b)
    ensures ParseSequence(tail) == Some((Number(a), Number(b)))
    ensures Number(a) == (if Value(a) < 0x8000_0000_0000_0000 then Value(a) else 0x7fff_ffff_ffff_ffff)
    ensures Number(b) == (if Value(b) < 0x8000_0000_0000_0000 then Value(b) else 0x7fff_ffff_ffff_ffff)
  {
    assert tail == a + (OF + b) && b == b + "";
    DigitRunIs(tail, a, OF + b);
    DigitRunIs(b, b, "");
    DecodeIs(tail, a, b);
  }

  lemma DecodeIs(tail: string, a: string, b: string)
    requires tail == a + OF + b && |a| >= 3 && |b| >= 3 && DigitRun(b) == |b|
    ensures Decode(tail, |a|) == Some((Number(a), Number(b)))
  {
    assert tail[..|a|] == a && tail[|a| + |OF|..] == b;
  }

  lemma SequenceGrammarOnly(tail: string)
    requires ParseSequence(tail).Some?
    ensures exists a, b :: tail == a + OF + b && |a| >= 3 && |b| >= 3 && AllDigits(a) && AllDigits(b)
  {
    var d := DigitRun(tail);
    var a, b := tail[..d], tail[d + |OF|..];
    assert b[..|b|] == b;
    assert tail == a + OF + b;
  }

  function WellFormedPart(name: string): Option<Part> {
    var logical := PartOf(name);
    if logical == "" || |logical| + |MARK| > |name| then None
    else
      match ParseSequence(name[|logical| + |MARK|..])
      case None => None
      case Some((index, total)) => if 1 <= index <= total then Some(Part(name, index, total)) else None
  }

  // ----- The streams a name is a run artifact of -----

  predicate HasPrefix(s: string, prefix: string) { prefix <= s }

  ghost predicate ContainsMark(s: string) { exists i :: 0 <= i <= |s| && MarkAt(s, i) }

  ghost predicate Beside(name: string, stream: string) {
    && name != stream
    && StreamBase(stream) + "." <= name
    && !ContainsMark(name[|StreamBase(stream)|..])
  }

  // The longest base wins; a tie is two owners.
  ghost function Owners(name: string, streams: set<string>): set<string> {
    set s | s in streams && Beside(name, s)
            && forall t :: t in streams && Beside(name, t) ==> |StreamBase(t)| <= |StreamBase(s)|
  }

  // Some stream of these is `c` with its extension.
  ghost predicate HasStreamFrom(c: string, streams: set<string>) {
    exists s :: s in streams && StreamFrom(c, s)
  }

  // No stream with a longer name without its extension precedes `name`.
  ghost predicate NoneLonger(name: string, streams: set<string>, b: string) {
    forall c :: HasStreamFrom(c, streams) && c + "." <= name ==> |c| <= |b|
  }

  lemma LongestBase(name: string, streams: set<string>, b: string)
    requires !IsStreamName(name) && (forall t :: t in streams ==> IsStreamName(t))
    requires b + "." <= name && !ContainsMark(name[|b|..])
    ensures NoneLonger(name, streams, b) ==> forall t :: t in streams && Beside(name, t) ==> |StreamBase(t)| <= |b|
  {
    forall t | t in streams && Beside(name, t) ensures HasStreamFrom(StreamBase(t), streams) {
      BaseIs(StreamBase(t), t);
    }
  }

  lemma BesideLonger(name: string, streams: set<string>, b: string, c: string)
    requires !IsStreamName(name) && (forall t :: t in streams ==> IsStreamName(t))
    requires b + "." <= name && !ContainsMark(name[|b|..])
    requires HasStreamFrom(c, streams) && c + "." <= name && |c| > |b|
    ensures exists t :: t in streams && Beside(name, t) && |StreamBase(t)| > |b|
  {
    var t :| t in streams && StreamFrom(c, t);
    BaseIs(c, t);
    NoMarkFurther(name, |b|, |c|);
  }

  // The artifacts of streams: a name of the form b.x, with no marker behind b,
  // belongs to every stream whose name without its extension is b, for the
  // longest b there is.
  lemma OwnersAre(name: string, streams: set<string>, b: string, s: string)
    requires !IsStreamName(name) && (forall t :: t in streams ==> IsStreamName(t))
    requires s in streams && StreamFrom(b, s)
    ensures s in Owners(name, streams) <==>
              b + "." <= name && !ContainsMark(name[|b|..]) && NoneLonger(name, streams, b)
  {
    BaseIs(b, s);
    if b + "." <= name && !ContainsMark(name[|b|..]) {
      LongestBase(name, streams, b);
      if !NoneLonger(name, streams, b) {
        var c :| HasStreamFrom(c, streams) && c + "." <= name && |c| > |b|;
        BesideLonger(name, streams, b, c);
      }
    }
  }

  lemma SamePrefix(a: string, b: string, name: string)
    requires a + "." <= name && b + "." <= name && |a| == |b|
    ensures a == b
  {
    assert a == (a + ".")[..|a|] == name[..|a|];
    assert b == (b + ".")[..|b|] == name[..|b|];
  }

  // Two owners of one artifact differ in their extension only.
  lemma OwnersHaveOneBase(name: string, streams: set<string>, s: string, t: string)
    requires s in Owners(name, streams) && t in Owners(name, streams)
    ensures StreamBase(s) == StreamBase(t)
  {
    assert Beside(name, s) && Beside(name, t);
    SamePrefix(StreamBase(s), StreamBase(t), name);
  }

  lemma NoMarkFurther(name: string, i: nat, j: nat)
    requires i <= j <= |name| && !ContainsMark(name[i..])
    ensures !ContainsMark(name[j..])
  {
    if ContainsMark(name[j..]) {
      var k :| 0 <= k <= |name[j..]| && MarkAt(name[j..], k);
      assert MarkAt(name[i..], k + (j - i));
    }
  }

  method FindMark(s: string) returns (found: bool)
    ensures found <==> ContainsMark(s)
  {
    for i := 0 to |s|
      invariant forall j :: 0 <= j < i ==> !MarkAt(s, j)
    {
      if MarkAt(s, i) { return true; }
    }
    found := false;
  }

  ghost predicate NoRepeats(xs: seq<string>) {
    forall i, j :: 0 <= i < j < |xs| ==> xs[i] != xs[j]
  }

  // The owners among the streams seen so far, and the length of their bases.
  ghost predicate Best(name: string, seen: set<string>, longest: int, owners: seq<string>) {
    && (longest == -1 <==> owners == []) && -1 <= longest
    && (forall t :: t in seen && Beside(name, t) ==> |StreamBase(t)| <= longest)
    && (forall t :: t in owners <==> t in seen && Beside(name, t) && |StreamBase(t)| == longest)
  }

  lemma BestStep(name: string, seen: set<string>, longest: int, owners: seq<string>, s: string)
    requires Best(name, seen, longest, owners)
    ensures !Beside(name, s) ==> Best(name, seen + {s}, longest, owners)
    ensures Beside(name, s) && |StreamBase(s)| > longest ==> Best(name, seen + {s}, |StreamBase(s)|, [s])
    ensures Beside(name, s) && |StreamBase(s)| == longest ==> Best(name, seen + {s}, longest, owners + [s])
    ensures Beside(name, s) && |StreamBase(s)| < longest ==> Best(name, seen + {s}, longest, owners)
  {
  }

  lemma BestAre(name: string, streams: set<string>, longest: int, owners: seq<string>)
    requires Best(name, streams, longest, owners)
    ensures Elements(owners) == Owners(name, streams)
  {
    if owners != [] { assert owners[0] in owners; }
  }

  method IsBeside(name: string, stream: string) returns (b: bool)
    ensures b <==> Beside(name, stream)
  {
    if name == stream { return false; }
    var base := StreamBase(stream);
    if !HasPrefix(name, base + ".") { return false; }
    var marked := FindMark(name[|base|..]);
    return !marked;
  }

  method ArtifactOwners(name: string, streams: seq<string>) returns (owners: seq<string>)
    ensures Elements(owners) == Owners(name, Elements(streams))
    ensures NoRepeats(streams) ==> NoRepeats(owners)
  {
    var longest := -1;
    owners := [];
    for i := 0 to |streams|
      invariant Best(name, Elements(streams[..i]), longest, owners)
      invariant NoRepeats(streams) ==> NoRepeats(owners) && forall o :: o in owners ==> o in streams[..i]
    {
      assert Elements(streams[..i + 1]) == Elements(streams[..i]) + {streams[i]};
      BestStep(name, Elements(streams[..i]), longest, owners, streams[i]);
      var beside := IsBeside(name, streams[i]);
      if !beside { continue; }
      var base := StreamBase(streams[i]);
      if |base| > longest {
        longest, owners := |base|, [streams[i]];
      } else if |base| == longest {
        owners := owners + [streams[i]];
      }
    }
    assert streams[..|streams|] == streams;
    BestAre(name, Elements(streams), longest, owners);
  }

  // A well-formed piece is never an artifact, of any streams whatever: behind
  // its last marker it has no further '.' for a longer base to end at.
  lemma PieceIsNoArtifact(name: string, streams: set<string>)
    requires WellFormedPart(name).Some?
    ensures Owners(name, streams) == {}
  {
    var n := |PartOf(name)|;
    PartOfIsTheLongest(name);
    PieceTailHasNoDot(name);
    forall s | s in streams ensures !Beside(name, s) {
      var base := StreamBase(s);
      if base + "." <= name {
        assert name[|base|] == (base + ".")[|base|] == '.';
        assert |base| <= n;
        MarkBehind(name, |base|, n);
      }
    }
  }

  lemma MarkBehind(name: string, from: nat, i: nat)
    requires from <= i && MarkAt(name, i)
    ensures ContainsMark(name[from..])
  {
    assert MarkAt(name[from..], i - from);
  }

  lemma SequenceHasNoDot(tail: string)
    requires ParseSequence(tail).Some?
    ensures '.' !in tail
  {
    SequenceGrammarOnly(tail);
  }

  lemma PieceTailHasNoDot(name: string)
    requires WellFormedPart(name).Some?
    ensures forall i :: |PartOf(name)| < i < |name| ==> name[i] != '.'
  {
    PartOfIsTheLongest(name);
    var n := |PartOf(name)|;
    SequenceHasNoDot(name[n + |MARK|..]);
    NoDotBehind(name, n);
  }

  lemma NoDotBehind(name: string, n: nat)
    requires MarkAt(name, n) && '.' !in name[n + |MARK|..]
    ensures forall i :: n < i < |name| ==> name[i] != '.'
  {
    forall i | n < i < |name| ensures name[i] != '.' {
      if i < n + |MARK| {
        assert name[n + (i - n)] == MARK[i - n];
      } else {
        assert name[i] == name[n + |MARK|..][i - n - |MARK|];
      }
    }
  }

  // ----- Splitting a stream into zero-padded pieces -----

  function Digit(d: nat): char requires d < 10 { '0' + d as char }

  function Decimal(k: nat): (s: string)
    ensures AllDigits(s) && |s| >= 1 && Value(s) == k
  {
    if k < 10 then [Digit(k)] else
      var s := Decimal(k / 10) + [Digit(k % 10)];
      assert s[..|s| - 1] == Decimal(k / 10);
      s
  }

  // fmt.Sprintf("%03d", k)
  function Padded(k: nat): (s: string)
    ensures AllDigits(s) && |s| >= 3 && Value(s) == k
  {
    var s := Decimal(k);
    if |s| >= 3 then s
    else if |s| == 2 then ZeroInFront(s); "0" + s
    else ZeroInFront(s); ZeroInFront("0" + s); "0" + ("0" + s)
  }

  lemma {:induction false} ZeroInFront(s: string)
    ensures Value("0" + s) == Value(s)
  {
    if s == [] {
      assert "0" + s == "0";
      assert Value("0"[..0]) == 0;
    } else {
      var init := s[..|s| - 1];
      ZeroInFront(init);
      assert ("0" + s)[..|s|] == "0" + init;
    }
  }

  function PieceName(stream: string, k: nat, n: nat): string {
    stream + MARK + (Padded(k) + OF + Padded(n))
  }

  // A name is piece number k of the n of this stream.
  predicate IsPieceOf(stream: string, n: nat, name: string, k: nat) {
    !IsStreamName(name) && PartOf(name) == stream && WellFormedPart(name) == Some(Part(name, k, n))
  }

  lemma PieceReads(stream: string, k: nat, n: nat)
    requires IsStreamName(stream) && 1 <= k <= n <= MAX_INT
    ensures IsPieceOf(stream, n, PieceName(stream, k, n), k)
  {
    var tail := Padded(k) + OF + Padded(n);
    TailReads(k, n);
    TailSplits(stream, tail);
    EmptyIsNoStream();
    WellFormedIs(PieceName(stream, k, n), stream, tail, k, n);
  }

  // The same name with numbers out of range, piece 0 or one beyond the last,
  // is a malformed piece of that stream.
  lemma OutOfRangeIsMalformed(stream: string, k: nat, n: nat)
    requires IsStreamName(stream) && k <= MAX_INT && n <= MAX_INT && !(1 <= k <= n)
    ensures !IsStreamName(PieceName(stream, k, n)) && PartOf(PieceName(stream, k, n)) == stream
    ensures WellFormedPart(PieceName(stream, k, n)).None?
  {
    var tail := Padded(k) + OF + Padded(n);
    TailReads(k, n);
    TailSplits(stream, tail);
    var name := stream + MARK + tail;
    assert name[|stream| + |MARK|..] == tail;
  }

  lemma WellFormedIs(name: string, stream: string, tail: string, index: nat, total: nat)
    requires name == stream + MARK + tail && stream != "" && PartOf(name) == stream
    requires ParseSequence(tail) == Some((index, total)) && 1 <= index <= total
    ensures WellFormedPart(name) == Some(Part(name, index, total))
  {
    assert name[|stream| + |MARK|..] == tail;
  }

  lemma TailReads(k: nat, n: nat)
    requires k <= MAX_INT && n <= MAX_INT
    ensures var tail := Padded(k) + OF + Padded(n);
            ParseSequence(tail) == Some((k, n)) && tail != "" && IsDigit(tail[|tail| - 1])
  {
    SequenceGrammar(Padded(k) + OF + Padded(n), Padded(k), Padded(n));
    LastDigit(Padded(k) + OF, Padded(n));
  }

  lemma LastDigit(a: string, b: string)
    requires b != "" && AllDigits(b)
    ensures a + b != "" && IsDigit((a + b)[|a + b| - 1])
  {
    assert (a + b)[|a + b| - 1] == b[|b| - 1];
  }

  lemma TailSplits(stream: string, tail: string)
    requires IsStreamName(stream) && ParseSequence(tail).Some? && tail != "" && IsDigit(tail[|tail| - 1])
    ensures var name := stream + MARK + tail; !IsStreamName(name) && PartOf(name) == stream
  {
    var name := stream + MARK + tail;
    PieceShape(stream, tail);
    EndsInLetter(name);
    EndsInLetter(stream);
    SequenceHasNoDot(tail);
    NoDotBehind(name, |stream|);
    forall j | |stream| < j < |name| ensures !SplitsAt(name, j) {
      NoMarkWithoutDot(name, j);
    }
    PartOfIs(name, |stream|);
  }

  lemma PieceShape(stream: string, tail: string)
    ensures var name := stream + MARK + tail;
            && name[..|stream|] == stream && MarkAt(name, |stream|) && name[|stream| + |MARK|..] == tail
            && (tail != "" ==> name[|name| - 1] == tail[|tail| - 1])
  {
  }

  lemma NoMarkWithoutDot(name: string, j: nat)
    requires j < |name| && name[j] != '.'
    ensures !MarkAt(name, j)
  {
    assert MARK[0] == '.' && name[j + 0] != MARK[0];
  }

  lemma EndsInLetter(name: string)
    ensures IsStreamName(name) ==> name != "" && !IsDigit(name[|name| - 1])
  {
    if HasSuffix(name, ".log") {
      assert name[|name| - 4 + 3] == ".log"[3];
    }
    if HasSuffix(name, ".jsonl") {
      assert name[|name| - 6 + 5] == ".jsonl"[5];
    }
  }
}
