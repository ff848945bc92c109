/** The scanner for citation artifacts in a model's answer
    (internal/answerer/answerer.go, citationArtifact), against the four
    citation grammars stated without any scanning order. Text is bytes here,
    one character each, as the scanner reads it. */
module Citation {
  import opened Wrappers
  import opened Text

  const TURN := "citeturn"
  const OAICITE := "[oaicite:"
  const OPEN := "\U{EE}\U{88}\U{80}"      // U+E200
  const CLOSE := "\U{EE}\U{88}\U{81}"     // U+E201
  const SEPARATOR := "\U{EE}\U{88}\U{82}" // U+E202
  const LEFT := "\U{E3}\U{80}\U{90}"      // left lenticular bracket
  const RIGHT := "\U{E3}\U{80}\U{91}"     // right lenticular bracket
  const DAGGER := "\U{E2}\U{80}\U{A0}"

  predicate IsLetter(c: char) { 'a' <= c <= 'z' }

  // ----- The grammars: s[i..j] is a citation -----

  ghost predicate Digits(s: string, i: nat, j: nat) {
    i < j <= |s| && forall k :: i <= k < j ==> IsDigit(s[k])
  }

  ghost predicate Letters(s: string, i: nat, j: nat) {
    i < j <= |s| && forall k :: i <= k < j ==> IsLetter(s[k])
  }

  // citeturn<digits><letters><digits>
  ghost predicate TurnCitation(s: string, i: nat, j: nat) {
    ReadsAt(s, i, TURN) && exists a: nat, b: nat :: Digits(s, i + 8, a) && Letters(s, a, b) && Digits(s, b, j)
  }

  // [oaicite:<digits>]
  ghost predicate OaiCitation(s: string, i: nat, j: nat) {
    ReadsAt(s, i, OAICITE) && exists a: nat :: Digits(s, i + 9, a) && ReadsAt(s, a, "]") && j == a + 1
  }

  ghost predicate FrameRune(s: string, i: nat, j: nat) {
    (ReadsAt(s, i, OPEN) || ReadsAt(s, i, CLOSE) || ReadsAt(s, i, SEPARATOR)) && j == i + 3
  }

  // <left><digits>:<digits><dagger>...<right>
  ghost predicate BracketCitation(s: string, i: nat, j: nat) {
    && ReadsAt(s, i, LEFT)
    && exists a: nat, b: nat, c: nat :: Digits(s, i + 3, a) && ReadsAt(s, a, ":") && Digits(s, a + 1, b)
                         && ReadsAt(s, b, DAGGER) && b + 3 <= c && ReadsAt(s, c, RIGHT) && j == c + 3
  }

  ghost predicate IsCitation(s: string, i: nat, j: nat) {
    TurnCitation(s, i, j) || OaiCitation(s, i, j) || FrameRune(s, i, j) || BracketCitation(s, i, j)
  }

  ghost predicate CitationAt(s: string, i: nat) {
    exists j: nat :: i <= j <= |s| && IsCitation(s, i, j)
  }

  // ----- The same, of the text a citation is -----

  ghost predicate SomeDigits(t: string) { t != "" && AllDigits(t) }

  ghost predicate SomeLetters(t: string) { t != "" && forall c :: c in t ==> 'a' <= c <= 'z' }

  ghost predicate TurnText(t: string, a: string, w: string, b: string) {
    t == "citeturn" + (a + (w + b)) && SomeDigits(a) && SomeLetters(w) && SomeDigits(b)
  }

  ghost predicate OaiText(t: string, a: string) {
    t == "[oaicite:" + (a + "]") && SomeDigits(a)
  }

  ghost predicate BracketText(t: string, a: string, b: string, source: string) {
    t == LEFT + (a + (":" + (b + (DAGGER + (source + RIGHT))))) && SomeDigits(a) && SomeDigits(b)
  }

  // What a reading at i means for the text from i on.
  lemma ReadHead(s: string, i: nat, j: nat, word: string)
    requires ReadsAt(s, i, word) && i + |word| <= j <= |s|
    ensures s[i..j] == word + s[i + |word|..j]
  {
    ReadsFrom(s, i, word);
    assert s[i..j] == s[i..][..j - i];
  }

  lemma HeadRead(s: string, i: nat, j: nat, word: string, rest: string)
    requires i <= j <= |s| && s[i..j] == word + rest
    ensures ReadsAt(s, i, word) && i + |word| <= j && s[i + |word|..j] == rest
  {
    assert word <= s[i..];
    ReadsFrom(s, i, word);
    assert s[i + |word|..j] == s[i..j][|word|..];
  }

  lemma RunHead(s: string, i: nat, m: nat, j: nat)
    requires i <= m <= j <= |s|
    ensures s[i..j] == s[i..m] + s[m..j]
    ensures Digits(s, i, m) <==> SomeDigits(s[i..m])
    ensures Letters(s, i, m) <==> SomeLetters(s[i..m])
  {
    var t := s[i..m];
    assert forall k :: i <= k < m ==> s[k] == t[k - i];
    assert forall c :: c in t ==> exists k :: i <= k < m && s[k] == c;
    assert forall k :: i <= k < m ==> s[k] in t;
  }

  lemma HeadRun(s: string, i: nat, j: nat, run: string, rest: string)
    requires i <= j <= |s| && s[i..j] == run + rest
    ensures i + |run| <= j && s[i..i + |run|] == run && s[i + |run|..j] == rest
    ensures Digits(s, i, i + |run|) <==> SomeDigits(run)
    ensures Letters(s, i, i + |run|) <==> SomeLetters(run)
  {
    assert s[i..i + |run|] == s[i..j][..|run|];
    assert s[i + |run|..j] == s[i..j][|run|..];
    RunHead(s, i, i + |run|, j);
  }

  lemma TurnReads(s: string, i: nat, j: nat)
    requires i <= j <= |s| && TurnCitation(s, i, j)
    ensures exists a, w, b :: TurnText(s[i..j], a, w, b)
  {
    var a: nat, b: nat :| Digits(s, i + 8, a) && Letters(s, a, b) && Digits(s, b, j);
    ReadHead(s, i, j, TURN);
    RunHead(s, i + 8, a, j);
    RunHead(s, a, b, j);
    RunHead(s, b, j, j);
    assert TurnText(s[i..j], s[i + 8..a], s[a..b], s[b..j]);
  }

  lemma TurnWritten(s: string, i: nat, j: nat, a: string, w: string, b: string)
    requires i <= j <= |s| && TurnText(s[i..j], a, w, b)
    ensures TurnCitation(s, i, j)
  {
    HeadRead(s, i, j, TURN, a + (w + b));
    HeadRun(s, i + 8, j, a, w + b);
    HeadRun(s, i + 8 + |a|, j, w, b);
    assert b + "" == b;
    HeadRun(s, i + 8 + |a| + |w|, j, b, "");
  }

  lemma TurnIs(s: string, i: nat, j: nat)
    requires i <= j <= |s|
    ensures TurnCitation(s, i, j) <==> exists a, w, b :: TurnText(s[i..j], a, w, b)
  {
    if TurnCitation(s, i, j) { TurnReads(s, i, j); }
    if a, w, b :| TurnText(s[i..j], a, w, b) { TurnWritten(s, i, j, a, w, b); }
  }

  lemma OaiIs(s: string, i: nat, j: nat)
    requires i <= j <= |s|
    ensures OaiCitation(s, i, j) <==> exists a :: OaiText(s[i..j], a)
  {
    if OaiCitation(s, i, j) {
      var a: nat :| Digits(s, i + 9, a) && ReadsAt(s, a, "]") && j == a + 1;
      ReadHead(s, i, j, OAICITE);
      RunHead(s, i + 9, a, j);
      ReadHead(s, a, j, "]");
      assert OaiText(s[i..j], s[i + 9..a]);
    }
    if a :| OaiText(s[i..j], a) {
      HeadRead(s, i, j, OAICITE, a + "]");
      HeadRun(s, i + 9, j, a, "]");
      assert "]" + "" == "]";
      HeadRead(s, i + 9 + |a|, j, "]", "");
    }
  }

  lemma FrameIs(s: string, i: nat, j: nat)
    requires i <= j <= |s|
    ensures FrameRune(s, i, j) <==> s[i..j] == OPEN || s[i..j] == CLOSE || s[i..j] == SEPARATOR
  {
    FrameWord(s, i, j, OPEN);
    FrameWord(s, i, j, CLOSE);
    FrameWord(s, i, j, SEPARATOR);
  }

  lemma FrameWord(s: string, i: nat, j: nat, word: string)
    requires i <= j <= |s| && |word| == 3
    ensures ReadsAt(s, i, word) && j == i + 3 <==> s[i..j] == word
  {
    if ReadsAt(s, i, word) && j == i + 3 { ReadHead(s, i, j, word); }
    if s[i..j] == word {
      assert word + "" == word;
      HeadRead(s, i, j, word, "");
    }
  }

  lemma BracketIs(s: string, i: nat, j: nat)
    requires i <= j <= |s|
    ensures BracketCitation(s, i, j) <==> exists a, b, source :: BracketText(s[i..j], a, b, source)
  {
    if BracketCitation(s, i, j) { BracketReads(s, i, j); }
    if a, b, source :| BracketText(s[i..j], a, b, source) { BracketWritten(s, i, j, a, b, source); }
  }

  lemma BracketReads(s: string, i: nat, j: nat)
    requires i <= j <= |s| && BracketCitation(s, i, j)
    ensures exists a, b, source :: BracketText(s[i..j], a, b, source)
  {
    var a: nat, b: nat, c: nat :| Digits(s, i + 3, a) && ReadsAt(s, a, ":") && Digits(s, a + 1, b)
                                  && ReadsAt(s, b, DAGGER) && b + 3 <= c && ReadsAt(s, c, RIGHT) && j == c + 3;
    BracketParts(s, i, a, b, c, j);
    assert BracketText(s[i..j], s[i + 3..a], s[a + 1..b], s[b + 3..c]);
  }

  lemma BracketParts(s: string, i: nat, a: nat, b: nat, c: nat, j: nat)
    requires ReadsAt(s, i, LEFT) && Digits(s, i + 3, a) && ReadsAt(s, a, ":") && Digits(s, a + 1, b)
    requires ReadsAt(s, b, DAGGER) && b + 3 <= c && ReadsAt(s, c, RIGHT) && j == c + 3
    ensures j <= |s| && BracketText(s[i..j], s[i + 3..a], s[a + 1..b], s[b + 3..c])
  {
    BracketTail(s, b, c, j);
    BracketMiddle(s, a, b, j);
    BracketHead(s, i, a, j);
    RunHead(s, a + 1, b, j);
    RunHead(s, i + 3, a, j);
  }

  lemma BracketHead(s: string, i: nat, a: nat, j: nat)
    requires ReadsAt(s, i, LEFT) && i + 3 <= a <= j <= |s|
    ensures s[i..j] == LEFT + (s[i + 3..a] + s[a..j])
  {
    ReadHead(s, i, j, LEFT);
    RunHead(s, i + 3, a, j);
  }

  lemma BracketMiddle(s: string, a: nat, b: nat, j: nat)
    requires ReadsAt(s, a, ":") && a + 1 <= b <= j <= |s|
    ensures s[a..j] == ":" + (s[a + 1..b] + s[b..j])
  {
    ReadHead(s, a, j, ":");
    RunHead(s, a + 1, b, j);
  }

  lemma BracketTail(s: string, b: nat, c: nat, j: nat)
    requires ReadsAt(s, b, DAGGER) && b + 3 <= c && ReadsAt(s, c, RIGHT) && j == c + 3
    ensures j <= |s| && s[b..j] == DAGGER + (s[b + 3..c] + RIGHT)
  {
    ReadHead(s, b, j, DAGGER);
    RunHead(s, b + 3, c, j);
    ReadHead(s, c, j, RIGHT);
    assert s[c..j] == RIGHT;
  }

  lemma BracketWritten(s: string, i: nat, j: nat, a: string, b: string, source: string)
    requires i <= j <= |s| && BracketText(s[i..j], a, b, source)
    ensures BracketCitation(s, i, j)
  {
    var rest := ":" + (b + (DAGGER + (source + RIGHT)));
    HeadRead(s, i, j, LEFT, a + rest);
    HeadRun(s, i + 3, j, a, rest);
    var p := i + 3 + |a|;
    HeadRead(s, p, j, ":", b + (DAGGER + (source + RIGHT)));
    HeadRun(s, p + 1, j, b, DAGGER + (source + RIGHT));
    TailWritten(s, p + 1 + |b|, j, source);
  }

  lemma TailWritten(s: string, q: nat, j: nat, source: string)
    requires q <= j <= |s| && s[q..j] == DAGGER + (source + RIGHT)
    ensures ReadsAt(s, q, DAGGER) && j == q + 3 + |source| + 3 && ReadsAt(s, q + 3 + |source|, RIGHT)
  {
    HeadRead(s, q, j, DAGGER, source + RIGHT);
    HeadRun(s, q + 3, j, source, RIGHT);
    assert RIGHT + "" == RIGHT;
    HeadRead(s, q + 3 + |source|, j, RIGHT, "");
  }

  // A citation is a text of one of these forms, wherever it stands.
  lemma CitationIs(s: string, i: nat, j: nat)
    requires i <= j <= |s|
    ensures IsCitation(s, i, j) <==>
              || (exists a, w, b :: TurnText(s[i..j], a, w, b))
              || (exists a :: OaiText(s[i..j], a))
              || s[i..j] in {OPEN, CLOSE, SEPARATOR}
              || (exists a, b, source :: BracketText(s[i..j], a, b, source))
  {
    TurnIs(s, i, j);
    OaiIs(s, i, j);
    FrameIs(s, i, j);
    BracketIs(s, i, j);
  }

  // ----- What the scanner reads -----

  // The end of the run of digits from i, and of the run of letters.
  function DigitEnd(s: string, i: nat): (r: nat)
    requires i <= |s|
    ensures i <= r <= |s| && (r < |s| ==> !IsDigit(s[r]))
    ensures forall k :: i <= k < r ==> IsDigit(s[k])
    decreases |s| - i
  {
    if i < |s| && IsDigit(s[i]) then DigitEnd(s, i + 1) else i
  }

  function LetterEnd(s: string, i: nat): (r: nat)
    requires i <= |s|
    ensures i <= r <= |s| && (r < |s| ==> !IsLetter(s[r]))
    ensures forall k :: i <= k < r ==> IsLetter(s[k])
    decreases |s| - i
  {
    if i < |s| && IsLetter(s[i]) then LetterEnd(s, i + 1) else i
  }

  // The first place s reads `word` at or after i (strings.Index).
  function IndexFrom(s: string, word: string, i: nat): (at: Option<nat>)
    ensures at.Some? ==> i <= at.value && ReadsAt(s, at.value, word)
    ensures forall k :: i <= k && (at.Some? ==> k < at.value) ==> !ReadsAt(s, k, word)
    decreases |s| - i
  {
    if i > |s| then None else if ReadsAt(s, i, word) then Some(i) else IndexFrom(s, word, i + 1)
  }

  // Each returns the end of the citation it reads at i.
  function TurnEnd(s: string, i: nat): Option<nat> {
    if !ReadsAt(s, i, TURN) then None
    else
      var a := DigitEnd(s, i + 8);
      if a == i + 8 then None
      else
        var b := LetterEnd(s, a);
        if b == a then None
        else
          var j := DigitEnd(s, b);
          if j == b then None else Some(j)
  }

  function OaiEnd(s: string, i: nat): Option<nat> {
    if !ReadsAt(s, i, OAICITE) then None
    else
      var a := DigitEnd(s, i + 9);
      if a > i + 9 && ReadsAt(s, a, "]") then Some(a + 1) else None
  }

  function FrameEnd(s: string, i: nat): Option<nat> {
    if ReadsAt(s, i, OPEN) || ReadsAt(s, i, CLOSE) || ReadsAt(s, i, SEPARATOR) then Some(i + 3) else None
  }

  function BracketEnd(s: string, i: nat): Option<nat> {
    if !ReadsAt(s, i, LEFT) then None
    else
      var a := DigitEnd(s, i + 3);
      if a == i + 3 || !ReadsAt(s, a, ":") then None
      else
        var b := DigitEnd(s, a + 1);
        if b == a + 1 || !ReadsAt(s, b, DAGGER) then None
        else
          match IndexFrom(s, RIGHT, i)
          case Some(c) => if c > i then Some(c + 3) else None
          case None => None
  }

  // The opening chooses the grammar.
  function CitationEnd(s: string, i: nat): Option<nat> {
    if ReadsAt(s, i, TURN) then TurnEnd(s, i)
    else if ReadsAt(s, i, OAICITE) then OaiEnd(s, i)
    else if FrameEnd(s, i).Some? then FrameEnd(s, i)
    else BracketEnd(s, i)
  }

  // ----- What is read is a citation, and every citation is read -----

  lemma TurnExact(s: string, i: nat)
    ensures TurnEnd(s, i).Some? ==> TurnCitation(s, i, TurnEnd(s, i).value) && TurnEnd(s, i).value <= |s|
    ensures forall j: nat :: TurnCitation(s, i, j) ==> TurnEnd(s, i).Some?
  {
    if TurnEnd(s, i).Some? {
      var a := DigitEnd(s, i + 8);
      var b := LetterEnd(s, a);
      assert Digits(s, i + 8, a) && Letters(s, a, b) && Digits(s, b, DigitEnd(s, b));
    }
    forall j: nat | TurnCitation(s, i, j) ensures TurnEnd(s, i).Some? {
      var a: nat, b: nat :| Digits(s, i + 8, a) && Letters(s, a, b) && Digits(s, b, j);
      assert IsLetter(s[a]) && IsDigit(s[b]);
      assert DigitEnd(s, i + 8) == a && LetterEnd(s, a) == b;
    }
  }

  lemma OaiExact(s: string, i: nat)
    ensures OaiEnd(s, i).Some? ==> OaiCitation(s, i, OaiEnd(s, i).value) && OaiEnd(s, i).value <= |s|
    ensures forall j: nat :: OaiCitation(s, i, j) ==> OaiEnd(s, i).Some?
  {
    if OaiEnd(s, i).Some? {
      assert Digits(s, i + 9, DigitEnd(s, i + 9));
    }
    forall j: nat | OaiCitation(s, i, j) ensures OaiEnd(s, i).Some? {
      var a: nat :| Digits(s, i + 9, a) && ReadsAt(s, a, "]") && j == a + 1;
      assert s[a + 0] == "]"[0];
      assert DigitEnd(s, i + 9) == a;
    }
  }

  // A closing bracket found behind the opening one lies behind the dagger.
  lemma RightIsBehind(s: string, i: nat, a: nat, b: nat, c: nat)
    requires ReadsAt(s, i, LEFT) && Digits(s, i + 3, a) && ReadsAt(s, a, ":") && Digits(s, a + 1, b) &&
        ReadsAt(s, b, DAGGER)
    requires i <= c && ReadsAt(s, c, RIGHT)
    ensures b + 3 <= c
  {
    assert s[c + 0] == RIGHT[0] && s[c + 2] == RIGHT[2];
    assert s[i + 1] == LEFT[1] && s[i + 2] == LEFT[2] && s[a + 0] == ":"[0];
    assert s[b + 0] == DAGGER[0] && s[b + 1] == DAGGER[1] && s[b + 2] == DAGGER[2];
  }

  lemma BracketSound(s: string, i: nat)
    requires BracketEnd(s, i).Some?
    ensures BracketCitation(s, i, BracketEnd(s, i).value) && BracketEnd(s, i).value <= |s|
  {
    var a := DigitEnd(s, i + 3);
    var b := DigitEnd(s, a + 1);
    assert Digits(s, i + 3, a) && Digits(s, a + 1, b);
    RightIsBehind(s, i, a, b, IndexFrom(s, RIGHT, i).value);
  }

  lemma BracketIsRead(s: string, i: nat, a: nat, b: nat, c: nat)
    requires ReadsAt(s, i, LEFT) && Digits(s, i + 3, a) && ReadsAt(s, a, ":") && Digits(s, a + 1, b) &&
        ReadsAt(s, b, DAGGER)
    requires b + 3 <= c && ReadsAt(s, c, RIGHT)
    ensures BracketEnd(s, i).Some?
  {
    assert s[a + 0] == ":"[0] && s[b + 0] == DAGGER[0];
    assert DigitEnd(s, i + 3) == a && DigitEnd(s, a + 1) == b;
    var right := IndexFrom(s, RIGHT, i);
    assert right.Some?;
    RightIsBehind(s, i, a, b, right.value);
  }

  lemma BracketComplete(s: string, i: nat, j: nat)
    requires BracketCitation(s, i, j)
    ensures BracketEnd(s, i).Some?
  {
    var a: nat, b: nat, c: nat :| Digits(s, i + 3, a) && ReadsAt(s, a, ":") && Digits(s, a + 1, b) &&
        ReadsAt(s, b, DAGGER)
                                  && b + 3 <= c && ReadsAt(s, c, RIGHT) && j == c + 3;
    BracketIsRead(s, i, a, b, c);
  }

  lemma OpeningsDiffer(s: string, i: nat)
    ensures ReadsAt(s, i, TURN) ==> !ReadsAt(s, i, OAICITE) && FrameEnd(s, i).None? && !ReadsAt(s, i, LEFT)
    ensures ReadsAt(s, i, OAICITE) ==> FrameEnd(s, i).None? && !ReadsAt(s, i, LEFT)
    ensures FrameEnd(s, i).Some? ==> !ReadsAt(s, i, LEFT)
  {
    FirstByte(s, i, TURN);
    FirstByte(s, i, OAICITE);
    FirstByte(s, i, OPEN);
    FirstByte(s, i, CLOSE);
    FirstByte(s, i, SEPARATOR);
    FirstByte(s, i, LEFT);
  }

  lemma FirstByte(s: string, i: nat, word: string)
    requires word != ""
    ensures ReadsAt(s, i, word) ==> i < |s| && s[i] == word[0]
  {
    if ReadsAt(s, i, word) { assert s[i + 0] == word[0]; }
  }

  // At one position the scanner reads a citation exactly when the grammars
  // have one starting there, and what it reads is one.
  lemma ReadsExactlyCitations(s: string, i: nat)
    ensures CitationEnd(s, i).Some? <==> CitationAt(s, i)
    ensures CitationEnd(s, i).Some? ==> i < CitationEnd(s, i).value <= |s| && IsCitation(s, i, CitationEnd(s, i).value)
  {
    OpeningsDiffer(s, i);
    TurnExact(s, i);
    OaiExact(s, i);
    if BracketEnd(s, i).Some? { BracketSound(s, i); }
    if CitationEnd(s, i).Some? {
      var j := CitationEnd(s, i).value;
      assert IsCitation(s, i, j) && i <= j <= |s|;
      assert CitationAt(s, i);
    }
    forall j: nat | IsCitation(s, i, j) ensures CitationEnd(s, i).Some? {
      if BracketCitation(s, i, j) { BracketComplete(s, i, j); }
    }
  }

  // ----- The scan -----

  // digitRun and letterRun, over s from i on.
  method DigitRunFrom(s: string, i: nat) returns (n: nat)
    requires i <= |s|
    ensures i + n == DigitEnd(s, i)
  {
    n := 0;
    while i + n < |s| && '0' <= s[i + n] <= '9'
      invariant i + n <= |s| && DigitEnd(s, i) == DigitEnd(s, i + n)
    {
      n := n + 1;
    }
  }

  method LetterRunFrom(s: string, i: nat) returns (n: nat)
    requires i <= |s|
    ensures i + n == LetterEnd(s, i)
  {
    n := 0;
    while i + n < |s| && 'a' <= s[i + n] <= 'z'
      invariant i + n <= |s| && LetterEnd(s, i) == LetterEnd(s, i + n)
    {
      n := n + 1;
    }
  }

  method ReadTurn(s: string, i: nat) returns (end: Option<nat>)
    requires ReadsAt(s, i, TURN)
    ensures end == TurnEnd(s, i)
  {
    var n := i + 8;
    var d := DigitRunFrom(s, n);
    if d > 0 {
      n := n + d;
      var l := LetterRunFrom(s, n);
      if l > 0 {
        n := n + l;
        d := DigitRunFrom(s, n);
        if d > 0 { return Some(n + d); }
      }
    }
    end := None;
  }

  method ReadBracket(s: string, i: nat) returns (end: Option<nat>)
    requires ReadsAt(s, i, LEFT)
    ensures end == BracketEnd(s, i)
  {
    var n := i + 3;
    var d := DigitRunFrom(s, n);
    if d > 0 && ReadsAt(s, n + d, ":") {
      n := n + d + 1;
      d := DigitRunFrom(s, n);
      if d > 0 && ReadsAt(s, n + d, DAGGER) {
        var right := IndexFrom(s, RIGHT, i);
        if right.Some? && right.value > i { return Some(right.value + 3); }
      }
    }
    end := None;
  }

  // One pass of the scanning loop's body.
  method ReadHere(s: string, i: nat) returns (end: Option<nat>)
    ensures end == CitationEnd(s, i)
  {
    if ReadsAt(s, i, TURN) {
      end := ReadTurn(s, i);
    } else if ReadsAt(s, i, OAICITE) {
      var d := DigitRunFrom(s, i + 9);
      end := if d > 0 && ReadsAt(s, i + 9 + d, "]") then Some(i + 9 + d + 1) else None;
    } else if ReadsAt(s, i, OPEN) || ReadsAt(s, i, CLOSE) || ReadsAt(s, i, SEPARATOR) {
      end := Some(i + 3);
    } else if ReadsAt(s, i, LEFT) {
      end := ReadBracket(s, i);
    } else {
      end := None;
    }
  }

  // "" when the answer carries no citation, else the first one.
  method CitationArtifact(out: string) returns (artifact: string)
    ensures artifact == "" <==> forall k: nat :: k <= |out| ==> !CitationAt(out, k)
    ensures artifact != "" ==>
              exists k: nat, j: nat :: k < j <= |out| && artifact == out[k..j] && IsCitation(out, k, j)
                                       && forall m: nat :: m < k ==> !CitationAt(out, m)
  {
    for i := 0 to |out|
      invariant forall m: nat :: m < i ==> !CitationAt(out, m)
    {
      var end := ReadHere(out, i);
      ReadsExactlyCitations(out, i);
      if end.Some? {
        return out[i..end.value];
      }
    }
    ReadsExactlyCitations(out, |out|);
    artifact := "";
  }
}
