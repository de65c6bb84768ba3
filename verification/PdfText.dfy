/** Searching PDF text (packages/esig-core/src/pq-embed.ts:28-75). A file is modelled by its
    latin1 text, so that an index into the text is a byte offset. */
module PdfText {
  import opened Domain
  import Decimal
  import Base64

  /** The character classes of the program's patterns. */
  datatype Class = Space | Digit | Base64Text

  predicate In(k: Class, c: char) {
    match k
    case Space => c as int in {9, 10, 11, 12, 13, 32, 160}
    case Digit => Decimal.IsDigit(c)
    case Base64Text => Base64.InText(c)
  }

  predicate All(k: Class, s: string) {
    forall i :: 0 <= i < |s| ==> In(k, s[i])
  }

  /** Where the longest run of a class that starts at `i` ends. */
  function RunEnd(k: Class, s: string, i: nat): (e: nat)
    requires i <= |s|
    ensures i <= e <= |s|
    ensures forall j :: i <= j < e ==> In(k, s[j])
    ensures e < |s| ==> !In(k, s[e])
    decreases |s| - i
  {
    if i < |s| && In(k, s[i]) then RunEnd(k, s, i + 1) else i
  }

  predicate At(s: string, i: nat, word: string) {
    i + |word| <= |s| && s[i..i + |word|] == word
  }

  /** `lastIndexOf`: the last occurrence at `i` or before, -1 if there is none. */
  function LastIndexFrom(s: string, word: string, i: int): (r: int)
    requires i <= |s|
    ensures -1 <= r && (r >= 0 ==> At(s, r, word))
    decreases i + 1
  {
    if i < 0 then -1
    else if At(s, i, word) then i
    else LastIndexFrom(s, word, i - 1)
  }

  function LastIndexOf(s: string, word: string): (r: int)
    ensures -1 <= r && (r >= 0 ==> At(s, r, word))
  {
    LastIndexFrom(s, word, |s|)
  }

  /** The patterns that the program searches for, by name or literally. */
  datatype Pattern = RefAfter(name: string) | NumberAfter(name: string) | Number | SealObject | ByteRangeArray

  const TYPE := "/Type"
  const SEAL_TYPE := "/ESigPQSeal/V"
  const SEAL_OPEN := "1/Seal("

  function MatchNumberAfter(name: string, s: string, i: nat): Option<seq<string>>
    requires i <= |s|
  {
    if !At(s, i, name) then None
    else
      var a := RunEnd(Space, s, i + |name|);
      var b := RunEnd(Digit, s, a);
      if a > i + |name| && b > a then Some([s[a..b]]) else None
  }

  function MatchRef(name: string, s: string, i: nat): Option<seq<string>>
    requires i <= |s|
  {
    if !At(s, i, name) then None
    else
      var a := RunEnd(Space, s, i + |name|);
      var b := RunEnd(Digit, s, a);
      var c := RunEnd(Space, s, b);
      var d := RunEnd(Digit, s, c);
      var e := RunEnd(Space, s, d);
      if a > i + |name| && b > a && c > b && d > c && e > d && At(s, e, "R")
      then Some([s[a..b], s[c..d]]) else None
  }

  function MatchSeal(s: string, i: nat): Option<seq<string>>
    requires i <= |s|
  {
    if !At(s, i, TYPE) then None
    else
      var a := RunEnd(Space, s, i + |TYPE|);
      if !At(s, a, SEAL_TYPE) then None
      else
        var b := a + |SEAL_TYPE|;
        var c := RunEnd(Space, s, b);
        if c == b || !At(s, c, SEAL_OPEN) then None
        else
          var d := c + |SEAL_OPEN|;
          var e := RunEnd(Base64Text, s, d);
          if e > d && At(s, e, ")") then Some([s[d..e]]) else None
  }

  const BYTE_RANGE := "/ByteRange"

  /** Some numerals with white space between them, and where they end. */
  function Numerals(s: string, i: nat, n: nat): (r: Option<(seq<string>, nat)>)
    requires i <= |s|
    ensures r.Some? ==> |r.value.0| == n && i <= r.value.1 <= |s|
    decreases n
  {
    if n == 0 then Some(([], i))
    else
      var e := RunEnd(Digit, s, i);
      var next := if n == 1 then e else RunEnd(Space, s, e);
      if e == i || (n > 1 && next == e) then None
      else
        var rest := Numerals(s, next, n - 1);
        if rest.None? then None else Some(([s[i..e]] + rest.value.0, rest.value.1))
  }

  /** Four numerals in brackets. */
  function MatchByteRange(s: string, i: nat): Option<seq<string>>
    requires i <= |s|
  {
    if !At(s, i, BYTE_RANGE) then None
    else
      var open := RunEnd(Space, s, i + |BYTE_RANGE|);
      if !At(s, open, "[") then None
      else
        var four := Numerals(s, RunEnd(Space, s, open + 1), 4);
        if four.Some? && At(s, RunEnd(Space, s, four.value.1), "]") then Some(four.value.0) else None
  }

  /** The captured groups of a match that starts at `i`. All runs are followed by something
      outside their class, so the longest run is the only one that can match. */
  function MatchAt(p: Pattern, s: string, i: nat): Option<seq<string>>
    requires i <= |s|
  {
    match p
    case Number =>
      var e := RunEnd(Digit, s, i);
      if e > i then Some([s[i..e]]) else None
    case NumberAfter(name) => MatchNumberAfter(name, s, i)
    case RefAfter(name) => MatchRef(name, s, i)
    case SealObject => MatchSeal(s, i)
    case ByteRangeArray => MatchByteRange(s, i)
  }

  /** `match` and `exec`: the leftmost match. */
  function FirstMatch(p: Pattern, s: string, i: nat): Option<seq<string>>
    requires i <= |s|
    decreases |s| - i
  {
    if MatchAt(p, s, i).Some? then MatchAt(p, s, i)
    else if i < |s| then FirstMatch(p, s, i + 1)
    else None
  }

  function Search(p: Pattern, s: string): Option<seq<string>> {
    FirstMatch(p, s, 0)
  }

  // ---------------------------------------------------------------------------
  // Where searches end
  // ---------------------------------------------------------------------------

  lemma {:induction false} RunEndIs(k: Class, s: string, i: nat, e: nat)
    requires i <= e <= |s| && All(k, s[i..e]) && (e < |s| ==> !In(k, s[e]))
    ensures RunEnd(k, s, i) == e
    decreases e - i
  {
    if i < e {
      assert In(k, s[i..e][0]);
      assert forall j :: i + 1 <= j < e ==> s[j] == s[i..e][j - i];
      RunEndIs(k, s, i + 1, e);
    }
  }

  lemma {:induction false} LastIndexFromIs(s: string, word: string, i: nat, p: nat)
    requires p <= i <= |s| && At(s, p, word)
    requires forall j :: p < j <= i ==> !At(s, j, word)
    ensures LastIndexFrom(s, word, i) == p
    decreases i
  {
    if i > p { LastIndexFromIs(s, word, i - 1, p); }
  }

  lemma {:induction false} FirstMatchIs(p: Pattern, s: string, i: nat, k: nat)
    requires i <= k <= |s| && MatchAt(p, s, k).Some?
    requires forall j :: i <= j < k ==> MatchAt(p, s, j).None?
    ensures FirstMatch(p, s, i) == MatchAt(p, s, k)
    decreases k - i
  {
    hide MatchAt;
    if i < k { FirstMatchIs(p, s, i + 1, k); }
  }

  lemma {:induction false} FirstMatchNone(p: Pattern, s: string, i: nat)
    requires i <= |s|
    ensures FirstMatch(p, s, i).None? <==> forall j :: i <= j <= |s| ==> MatchAt(p, s, j).None?
    decreases |s| - i
  {
    hide MatchAt;
    if i < |s| && MatchAt(p, s, i).None? { FirstMatchNone(p, s, i + 1); }
  }

  // ---------------------------------------------------------------------------
  // Words that do not occur
  // ---------------------------------------------------------------------------

  /** `a` is never followed by `b`. */
  predicate NoPair(s: string, a: char, b: char) {
    forall i :: 0 <= i < |s| - 1 ==> !(s[i] == a && s[i + 1] == b)
  }

  lemma NoPairConcat(s: string, t: string, a: char, b: char)
    requires NoPair(s, a, b) && NoPair(t, a, b)
    requires s == "" || t == "" || !(s[|s| - 1] == a && t[0] == b)
    ensures NoPair(s + t, a, b)
  {
    forall i | 0 <= i < |s + t| - 1 ensures !((s + t)[i] == a && (s + t)[i + 1] == b) {
      if i + 1 >= |s| && i >= |s| { assert (s + t)[i] == t[i - |s|] && (s + t)[i + 1] == t[i - |s| + 1]; }
    }
  }

  lemma WordShowsPair(s: string, word: string, i: nat, j: nat)
    requires |word| >= 2 && j <= i && At(s, i, word)
    ensures s[j..][i - j] == word[0] && s[j..][i - j + 1] == word[1]
  {
    assert s[i..i + |word|][0] == s[i] && s[i..i + |word|][1] == s[i + 1];
  }

  /** A word is found only where its first two characters are. */
  lemma NoPairNoWord(s: string, word: string, j: nat)
    requires |word| >= 2 && j <= |s| && NoPair(s[j..], word[0], word[1])
    ensures forall i :: j <= i <= |s| ==> !At(s, i, word)
  {
    forall i | j <= i <= |s| ensures !At(s, i, word) {
      if At(s, i, word) { WordShowsPair(s, word, i, j); }
    }
  }

  lemma AtMiddle(before: string, word: string, after: string)
    ensures At(before + word + after, |before|, word)
  {
    assert (before + word + after)[|before|..|before| + |word|] == word;
  }

  /** Two words stand after one another exactly when their concatenation stands there. */
  lemma AtSplit(s: string, i: nat, v: string, w: string)
    ensures At(s, i, v + w) <==> At(s, i, v) && At(s, i + |v|, w)
  {
    if i + |v + w| <= |s| {
      assert s[i..i + |v + w|] == s[i..i + |v|] + s[i + |v|..i + |v| + |w|];
      assert (v + w)[..|v|] == v && (v + w)[|v|..] == w;
    }
  }

  lemma AtChar(s: string, i: nat, word: string, k: nat)
    requires At(s, i, word) && k < |word|
    ensures s[i + k] == word[k]
  {
    assert s[i..i + |word|][k] == s[i + k];
  }

  /** A run that stands before something outside its class. */
  lemma RunAt(k: Class, s: string, i: nat, run: string)
    requires At(s, i, run) && All(k, run) && (i + |run| < |s| ==> !In(k, s[i + |run|]))
    ensures RunEnd(k, s, i) == i + |run|
  {
    RunEndIs(k, s, i, i + |run|);
  }

  /** A word that does not occur again behind its own start is the last one. */
  lemma LastWord(before: string, word: string, tail: string)
    requires |word| >= 2 && |tail| >= |word| && tail[..|word|] == word && NoPair(tail[1..], word[0], word[1])
    ensures LastIndexOf(before + tail, word) == |before|
  {
    var s := before + tail;
    assert s[|before|..|before| + |word|] == tail[..|word|];
    assert s[|before| + 1..] == tail[1..];
    hide NoPair;
    NoPairNoWord(s, word, |before| + 1);
    LastIndexFromIs(s, word, |s|, |before|);
  }

  lemma LastWordOfTwo(before: string, word: string, tail: string, end: string)
    requires |word| >= 2 && |tail| >= |word| && tail[..|word|] == word
    requires NoPair(tail[1..] + end, word[0], word[1])
    ensures LastIndexOf(before + tail + end, word) == |before|
  {
    assert (tail + end)[1..] == tail[1..] + end && (tail + end)[..|word|] == tail[..|word|];
    hide NoPair, LastIndexOf;
    LastWord(before, word, tail + end);
    assert before + tail + end == before + (tail + end);
  }

  // ---------------------------------------------------------------------------
  // Matches and appended text
  // ---------------------------------------------------------------------------

  lemma AtPrefix(s: string, u: string, i: nat, word: string)
    requires i + |word| <= |s|
    ensures At(s + u, i, word) <==> At(s, i, word)
  {
    assert (s + u)[i..i + |word|] == s[i..i + |word|];
  }

  lemma RunPrefix(k: Class, s: string, u: string, i: nat)
    requires i <= |s| && RunEnd(k, s + u, i) < |s|
    ensures RunEnd(k, s, i) == RunEnd(k, s + u, i)
  {
    var e := RunEnd(k, s + u, i);
    assert forall j :: i <= j < |s| ==> (s + u)[j] == s[j];
    RunEndIs(k, s, i, e);
  }

  /** Text that cannot continue a seal object begun before it: a line feed, a digit, and a
      digit or a space. */
  predicate Breaks(u: string) {
    |u| >= 3 && u[0] == '\n' && In(Digit, u[1]) && (In(Digit, u[2]) || u[2] == ' ')
  }

  /** A word without line feeds that starts before the break ends before it. */
  lemma WordBeforeBreak(s: string, u: string, i: nat, word: string)
    requires i <= |s| && Breaks(u) && At(s + u, i, word) && (forall k :: 0 <= k < |word| ==> word[k] != '\n')
    ensures i + |word| <= |s|
  {
    if i + |word| > |s| { AtChar(s + u, i, word, |s| - i); }
  }

  /** White space that starts before the break ends before it or right behind its line feed. */
  lemma SpaceBeforeBreak(s: string, u: string, i: nat)
    requires i <= |s| && Breaks(u)
    ensures RunEnd(Space, s + u, i) != |s| && RunEnd(Space, s + u, i) <= |s| + 1
  {
    assert (s + u)[|s|] == u[0] && (s + u)[|s| + 1] == u[1];
  }

  lemma DigitIsNo(c: char)
    ensures In(Digit, c) || c == ' ' ==> c != '/' && c != ')'
  {
  }

  /** White space and then a word with a slash among its first two characters: neither the
      line feed nor the digits behind it can be part of that. */
  lemma SpaceThenWord(s: string, u: string, i: nat, word: string)
    requires i <= |s| && Breaks(u) && |word| >= 2 && (word[0] == '/' || word[1] == '/')
    requires At(s + u, RunEnd(Space, s + u, i), word) && (forall k :: 0 <= k < |word| ==> word[k] != '\n')
    ensures RunEnd(Space, s + u, i) + |word| <= |s|
  {
    var a := RunEnd(Space, s + u, i);
    SpaceBeforeBreak(s, u, i);
    AtChar(s + u, a, word, 0);
    AtChar(s + u, a, word, 1);
    DigitIsNo(u[1]);
    DigitIsNo(u[2]);
    hide At, RunEnd, In;
    assert (s + u)[|s| + 1] == u[1] && (s + u)[|s| + 2] == u[2];
    WordBeforeBreak(s, u, a, word);
  }

  lemma TextThenClose(s: string, u: string, i: nat)
    requires i <= |s| && Breaks(u) && At(s + u, RunEnd(Base64Text, s + u, i), ")")
    ensures RunEnd(Base64Text, s + u, i) < |s|
  {
    assert (s + u)[|s|] == u[0];
    AtChar(s + u, RunEnd(Base64Text, s + u, i), ")", 0);
  }

  lemma SameMatchBefore(s: string, u: string, i: nat, a: nat, c: nat, e: nat)
    requires i + |TYPE| <= a && a + |SEAL_TYPE| < c && c + |SEAL_OPEN| < e < |s|
    requires RunEnd(Space, s + u, i + |TYPE|) == a && RunEnd(Space, s + u, a + |SEAL_TYPE|) == c
    requires RunEnd(Base64Text, s + u, c + |SEAL_OPEN|) == e
    requires At(s + u, i, TYPE) && At(s + u, a, SEAL_TYPE) && At(s + u, c, SEAL_OPEN) && At(s + u, e, ")")
    ensures MatchSeal(s, i).Some?
  {
    hide In, At, RunEnd;
    AtPrefix(s, u, i, TYPE);
    AtPrefix(s, u, a, SEAL_TYPE);
    AtPrefix(s, u, c, SEAL_OPEN);
    AtPrefix(s, u, e, ")");
    RunPrefix(Space, s, u, i + |TYPE|);
    RunPrefix(Space, s, u, a + |SEAL_TYPE|);
    RunPrefix(Base64Text, s, u, c + |SEAL_OPEN|);
  }

  /** A match that starts before the break lies wholly before it. */
  lemma NoMatchAcross(s: string, u: string, i: nat)
    requires i < |s| && Breaks(u) && MatchSeal(s + u, i).Some?
    ensures MatchSeal(s, i).Some?
  {
    var t := s + u;
    hide In, At, RunEnd, Breaks;
    assert At(t, i, TYPE);
    WordBeforeBreak(s, u, i, TYPE);
    var a := RunEnd(Space, t, i + |TYPE|);
    assert At(t, a, SEAL_TYPE);
    SpaceThenWord(s, u, i + |TYPE|, SEAL_TYPE);
    var c := RunEnd(Space, t, a + |SEAL_TYPE|);
    assert At(t, c, SEAL_OPEN) && c > a + |SEAL_TYPE|;
    SpaceThenWord(s, u, a + |SEAL_TYPE|, SEAL_OPEN);
    var e := RunEnd(Base64Text, t, c + |SEAL_OPEN|);
    assert At(t, e, ")") && e > c + |SEAL_OPEN|;
    hide MatchSeal;
    TextThenClose(s, u, c + |SEAL_OPEN|);
    SameMatchBefore(s, u, i, a, c, e);
  }

  /** The text of a seal object, with any white space where the pattern allows it. */
  function SealObjectText(before: string, between: string, seal: string): string {
    TYPE + (before + (SEAL_TYPE + (between + (SEAL_OPEN + (seal + ")")))))
  }

  predicate IsSealText(before: string, between: string, seal: string) {
    All(Space, before) && All(Space, between) && between != "" && All(Base64Text, seal) && seal != ""
  }

  /** A seal object is matched where it stands. */
  lemma SealObjectMatches(s: string, i: nat, before: string, between: string, seal: string)
    requires IsSealText(before, between, seal) && At(s, i, SealObjectText(before, between, seal))
    ensures MatchSeal(s, i) == Some([seal])
  {
    hide In, At, MatchSeal, All;
    AtSplit(s, i, TYPE, before + (SEAL_TYPE + (between + (SEAL_OPEN + (seal + ")")))));
    var t := i + |TYPE|;
    AtSplit(s, t, before, SEAL_TYPE + (between + (SEAL_OPEN + (seal + ")"))));
    var a := t + |before|;
    AtSplit(s, a, SEAL_TYPE, between + (SEAL_OPEN + (seal + ")")));
    var b := a + |SEAL_TYPE|;
    AtSplit(s, b, between, SEAL_OPEN + (seal + ")"));
    var c := b + |between|;
    AtSplit(s, c, SEAL_OPEN, seal + ")");
    var d := c + |SEAL_OPEN|;
    AtSplit(s, d, seal, ")");
    SealRuns(s, t, before, a, b, between, c, d, seal);
    assert s[d..d + |seal|] == seal by { hide MatchSeal, RunEnd; CutsOut(s, d, seal); }
    hide RunEnd;
    SealCaptures(s, i, t, a, b, c, d, seal);
  }

  lemma CutsOut(s: string, i: nat, word: string)
    requires At(s, i, word)
    ensures i + |word| <= |s| && s[i..i + |word|] == word
  {
  }

  lemma SealCaptures(s: string, i: nat, t: nat, a: nat, b: nat, c: nat, d: nat, seal: string)
    requires seal != "" && t == i + |TYPE| && b == a + |SEAL_TYPE| && c > b && d == c + |SEAL_OPEN| && d + |seal| <= |s|
    requires t <= |s| && b <= |s| && RunEnd(Space, s, t) == a && RunEnd(Space, s, b) == c && RunEnd(Base64Text, s, d) == d + |seal|
    requires At(s, i, TYPE) && At(s, a, SEAL_TYPE) && At(s, c, SEAL_OPEN) && At(s, d + |seal|, ")") && s[d..d + |seal|] == seal
    ensures MatchSeal(s, i) == Some([seal])
  {
    hide At, RunEnd, In;
  }

  lemma SealRuns(s: string, t: nat, before: string, a: nat, b: nat, between: string, c: nat, d: nat, seal: string)
    requires IsSealText(before, between, seal) && a == t + |before| && b == a + |SEAL_TYPE| && c == b + |between| && d == c + |SEAL_OPEN|
    requires At(s, t, before) && At(s, a, SEAL_TYPE) && At(s, b, between) && At(s, c, SEAL_OPEN)
    requires At(s, d, seal) && At(s, d + |seal|, ")")
    ensures t <= |s| && b <= |s| && d + |seal| <= |s|
    ensures RunEnd(Space, s, t) == a && RunEnd(Space, s, b) == c && RunEnd(Base64Text, s, d) == d + |seal|
  {
    AtChar(s, a, SEAL_TYPE, 0);
    AtChar(s, c, SEAL_OPEN, 0);
    AtChar(s, d + |seal|, ")", 0);
    hide RunEnd;
    RunAt(Space, s, t, before);
    RunAt(Space, s, b, between);
    RunAt(Base64Text, s, d, seal);
  }

  lemma RunIsThere(k: Class, s: string, i: nat)
    requires i <= |s|
    ensures All(k, s[i..RunEnd(k, s, i)]) && At(s, i, s[i..RunEnd(k, s, i)])
  {
  }

  /** The parts that a match consists of. */
  lemma MatchParts(s: string, i: nat) returns (t: nat, a: nat, b: nat, c: nat, d: nat, e: nat)
    requires i <= |s| && MatchSeal(s, i).Some?
    ensures t == i + |TYPE| <= a && b == a + |SEAL_TYPE| < c && d == c + |SEAL_OPEN| < e < |s|
    ensures At(s, i, TYPE) && a == RunEnd(Space, s, t) && At(s, a, SEAL_TYPE) && c == RunEnd(Space, s, b)
    ensures At(s, c, SEAL_OPEN) && e == RunEnd(Base64Text, s, d) && At(s, e, ")") && MatchSeal(s, i) == Some([s[d..e]])
  {
    hide RunEnd, In, At;
    t := i + |TYPE|;
    CutsOut(s, i, TYPE);
    a := RunEnd(Space, s, t);
    b := a + |SEAL_TYPE|;
    CutsOut(s, a, SEAL_TYPE);
    c := RunEnd(Space, s, b);
    d := c + |SEAL_OPEN|;
    CutsOut(s, c, SEAL_OPEN);
    e := RunEnd(Base64Text, s, d);
    CutsOut(s, e, ")");
  }

  /** What is matched is a seal object that stands there. */
  lemma MatchIsSealObject(s: string, i: nat) returns (before: string, between: string, seal: string)
    requires i <= |s| && MatchSeal(s, i).Some?
    ensures MatchSeal(s, i) == Some([seal]) && IsSealText(before, between, seal)
    ensures At(s, i, SealObjectText(before, between, seal))
  {
    hide RunEnd, In, At, MatchSeal, All;
    var t, a, b, c, d, e := MatchParts(s, i);
    before, between, seal := s[t..a], s[b..c], s[d..e];
    RunIsThere(Space, s, t);
    RunIsThere(Space, s, b);
    RunIsThere(Base64Text, s, d);
    AtSplit(s, d, seal, ")");
    AtSplit(s, c, SEAL_OPEN, seal + ")");
    AtSplit(s, b, between, SEAL_OPEN + (seal + ")"));
    AtSplit(s, a, SEAL_TYPE, between + (SEAL_OPEN + (seal + ")")));
    AtSplit(s, t, before, SEAL_TYPE + (between + (SEAL_OPEN + (seal + ")"))));
    AtSplit(s, i, TYPE, before + (SEAL_TYPE + (between + (SEAL_OPEN + (seal + ")")))));
  }

  lemma SealMatches(s: string, i: nat, seal: string)
    requires seal != "" && All(Base64Text, seal) && At(s, i, TYPE + (SEAL_TYPE + (" " + (SEAL_OPEN + (seal + ")")))))
    ensures MatchSeal(s, i) == Some([seal])
  {
    assert "" + (SEAL_TYPE + (" " + (SEAL_OPEN + (seal + ")")))) == SEAL_TYPE + (" " + (SEAL_OPEN + (seal + ")")));
    assert All(Space, "") && All(Space, " ");
    hide At, MatchSeal, In;
    SealObjectMatches(s, i, "", " ", seal);
  }

  // ---------------------------------------------------------------------------
  // The /ByteRange array
  // ---------------------------------------------------------------------------

  /** Numerals with single spaces between them, and a bracket behind. */
  function NumeralsText(digits: seq<string>): string {
    if digits == [] then "]"
    else if |digits| == 1 then digits[0] + "]"
    else digits[0] + (" " + NumeralsText(digits[1..]))
  }

  /** The array as the program writes it. */
  function ByteRangeText(digits: seq<string>): string {
    BYTE_RANGE + (" " + ("[" + NumeralsText(digits)))
  }

  predicate AreNumerals(digits: seq<string>) {
    forall k :: 0 <= k < |digits| ==> digits[k] != "" && All(Digit, digits[k])
  }

  lemma SpaceIsSpace()
    ensures All(Space, " ") && All(Space, "")
  {
  }

  lemma WordIsThere(s: string, i: nat, word: string)
    requires At(s, i, word)
    ensures i + |word| <= |s| && s[i..i + |word|] == word && At(s, i + |word|, "")
  {
  }

  lemma ThreeParts(s: string, i: nat, u: string, v: string, w: string)
    requires At(s, i, u + (v + w))
    ensures At(s, i, u) && At(s, i + |u|, v) && At(s, i + |u| + |v|, w)
  {
    hide At;
    AtSplit(s, i, u, v + w);
    AtSplit(s, i + |u|, v, w);
  }

  /** A run that is followed by a word outside its class. */
  lemma RunBefore(k: Class, s: string, i: nat, run: string, next: string)
    requires At(s, i, run) && All(k, run) && At(s, i + |run|, next) && next != "" && !In(k, next[0])
    ensures RunEnd(k, s, i) == i + |run| && s[i..i + |run|] == run && i + |run| + |next| <= |s|
  {
    WordIsThere(s, i, run);
    WordIsThere(s, i + |run|, next);
    AtChar(s, i + |run|, next, 0);
    hide At, RunEnd, All, In;
    RunAt(k, s, i, run);
  }

  lemma StartsWithDigit(digits: seq<string>)
    requires digits != [] && AreNumerals(digits)
    ensures NumeralsText(digits) != "" && In(Digit, NumeralsText(digits)[0]) && !In(Space, NumeralsText(digits)[0])
  {
  }

  /** Where the last numeral of a text ends. */
  function NumeralsEnd(i: nat, digits: seq<string>): nat
  {
    i + |NumeralsText(digits)| - 1
  }

  lemma LastNumeralIsRead(s: string, i: nat, d: string)
    requires d != "" && All(Digit, d) && At(s, i, d + "]")
    ensures i + |d| <= |s| && RunEnd(Digit, s, i) == i + |d| && s[i..i + |d|] == d && At(s, i + |d|, "]")
  {
    hide At, RunEnd, All, In;
    AtSplit(s, i, d, "]");
    BracketEndsNumeral();
    RunBefore(Digit, s, i, d, "]");
  }

  lemma NumeralIsRead(s: string, i: nat, d: string, more: string)
    requires d != "" && All(Digit, d) && At(s, i, d + (" " + more)) && more != "" && !In(Space, more[0])
    ensures i + |d| + 1 <= |s| && RunEnd(Digit, s, i) == i + |d| && s[i..i + |d|] == d
    ensures RunEnd(Space, s, i + |d|) == i + |d| + 1 && At(s, i + |d| + 1, more)
  {
    hide At, RunEnd, All, In;
    ThreeParts(s, i, d, " ", more);
    SpaceIsSpace();
    BracketEndsNumeral();
    RunBefore(Digit, s, i, d, " ");
    RunBefore(Space, s, i + |d|, " ", more);
  }

  lemma NumeralsCons(s: string, i: nat, n: nat, d: string, rest: seq<string>, end: nat)
    requires n >= 2 && d != "" && i + |d| + 1 <= |s|
    requires RunEnd(Digit, s, i) == i + |d| && s[i..i + |d|] == d && RunEnd(Space, s, i + |d|) == i + |d| + 1
    requires Numerals(s, i + |d| + 1, n - 1) == Some((rest, end))
    ensures Numerals(s, i, n) == Some(([d] + rest, end))
  {
    hide RunEnd, In;
  }

  lemma OneNumeral(s: string, i: nat, d: string)
    requires d != "" && i + |d| <= |s| && RunEnd(Digit, s, i) == i + |d| && s[i..i + |d|] == d
    ensures Numerals(s, i, 1) == Some(([d], i + |d|))
  {
    hide RunEnd, In;
    assert [d] + [] == [d];
  }

  lemma {:induction false} NumeralsAreRead(s: string, i: nat, digits: seq<string>)
    requires digits != [] && AreNumerals(digits) && At(s, i, NumeralsText(digits))
    ensures i <= |s| && Numerals(s, i, |digits|) == Some((digits, NumeralsEnd(i, digits)))
    ensures At(s, NumeralsEnd(i, digits), "]")
    decreases |digits|
  {
    hide At, RunEnd, All, In, Numerals;
    var d, rest := digits[0], digits[1..];
    if |digits| == 1 {
      LastNumeralIsRead(s, i, d);
      OneNumeral(s, i, d);
      assert digits == [d];
    } else {
      StartsWithDigit(rest);
      NumeralIsRead(s, i, d, NumeralsText(rest));
      NumeralsAreRead(s, i + |d| + 1, rest);
      NumeralsEndShifts(i, digits);
      hide NumeralsText, NumeralsEnd, AreNumerals;
      NumeralsCons(s, i, |digits|, d, rest, NumeralsEnd(i, digits));
      assert digits == [d] + rest;
    }
  }

  lemma BracketEndsNumeral()
    ensures !In(Digit, ']') && !In(Digit, ' ') && !In(Space, ']') && !In(Space, '[')
  {
  }

  lemma NumeralsEndShifts(i: nat, digits: seq<string>)
    requires |digits| > 1
    ensures NumeralsEnd(i, digits) == NumeralsEnd(i + |digits[0]| + 1, digits[1..])
  {
  }

  lemma ByteRangeOpens(s: string, i: nat, digits: seq<string>)
    requires digits != [] && AreNumerals(digits) && At(s, i, ByteRangeText(digits))
    ensures var j := i + |BYTE_RANGE|;
            && At(s, i, BYTE_RANGE) && j + 2 <= |s| && RunEnd(Space, s, j) == j + 1 && At(s, j + 1, "[")
            && RunEnd(Space, s, j + 2) == j + 2 && At(s, j + 2, NumeralsText(digits))
  {
    hide At, RunEnd, All, In;
    var j, text := i + |BYTE_RANGE|, NumeralsText(digits);
    ThreeParts(s, i, BYTE_RANGE, " ", "[" + text);
    AtSplit(s, j + 1, "[", text);
    WordIsThere(s, j + 1, "[");
    StartsWithDigit(digits);
    SpaceIsSpace();
    BracketEndsNumeral();
    hide NumeralsText, AreNumerals;
    RunBefore(Space, s, j, " ", "[");
    RunBefore(Space, s, j + 2, "", text);
  }

  lemma BracketCloses(s: string, end: nat)
    requires At(s, end, "]")
    ensures end <= |s| && RunEnd(Space, s, end) == end
  {
    WordIsThere(s, end, "]");
    EmptyAt(s, end);
    SpaceIsSpace();
    BracketEndsNumeral();
    hide At, RunEnd, All, In;
    RunBefore(Space, s, end, "", "]");
  }

  /** The array is matched where it stands, and its numerals are captured. */
  lemma ByteRangeMatches(s: string, i: nat, digits: seq<string>)
    requires |digits| == 4 && AreNumerals(digits) && At(s, i, ByteRangeText(digits))
    ensures MatchByteRange(s, i) == Some(digits)
  {
    hide At, RunEnd, All, In, NumeralsText, Numerals, AreNumerals, ByteRangeText, NumeralsEnd;
    var j := i + |BYTE_RANGE| + 2;
    ByteRangeOpens(s, i, digits);
    NumeralsAreRead(s, j, digits);
    BracketCloses(s, NumeralsEnd(j, digits));
  }

  lemma EmptyAt(s: string, i: nat)
    requires i <= |s|
    ensures At(s, i, "")
  {
  }
}
