/** Embedding a seal as an incremental update, and extracting it again
    (packages/esig-core/src/pq-embed.ts; ISO 32000-1, sections 7.5.4 to 7.5.6). */
module PdfSeal {
  import opened Domain
  import opened PdfText
  import Decimal
  import Base64

  datatype Ref = Ref(number: string, generation: string)

  datatype Trailer = Trailer(root: Ref, info: Option<Ref>, size: nat, prev: nat)

  datatype TrailerError = NoStartxref | NoOffset | NoTrailer | NoRoot | NoSize

  datatype Outcome<+T> = Success(value: T) | Failure(error: TrailerError)

  const STARTXREF := "startxref"
  const TRAILER := "trailer"

  function RefOf(groups: seq<string>): Ref
    requires |groups| == 2
  {
    Ref(groups[0], groups[1])
  }

  function ReadLastTrailer(pdf: string): Outcome<Trailer> {
    var sx := LastIndexOf(pdf, STARTXREF);
    if sx < 0 then Failure(NoStartxref)
    else
      var prev := Search(Number, pdf[sx + |STARTXREF|..]);
      if prev.None? then Failure(NoOffset)
      else
        var tr := LastIndexOf(pdf, TRAILER);
        if tr < 0 || tr > sx then Failure(NoTrailer)
        else ReadDictionary(pdf[tr..sx], NumberIn(prev))
  }

  /** The number in a search's single capture. */
  function NumberIn(groups: Option<seq<string>>): nat {
    if groups.Some? && |groups.value| == 1 && Decimal.AllDigits(groups.value[0])
    then Decimal.Value(groups.value[0]) else 0
  }

  function ReadDictionary(dict: string, prev: nat): Outcome<Trailer> {
    var root, info, size := Search(RefAfter("/Root"), dict), Search(RefAfter("/Info"), dict), Search(NumberAfter("/Size"), dict);
    if root.None? || |root.value| != 2 then Failure(NoRoot)
    else if size.None? then Failure(NoSize)
    else
      Success(Trailer(RefOf(root.value), if info.Some? && |info.value| == 2 then Some(RefOf(info.value)) else None,
                      NumberIn(size), prev))
  }

  // ---------------------------------------------------------------------------
  // The update
  // ---------------------------------------------------------------------------

  function RefText(r: Ref): string {
    r.number + " " + r.generation + " R"
  }

  function SealText(seal: string): string {
    TYPE + (SEAL_TYPE + (" " + (SEAL_OPEN + (seal + ")"))))
  }

  function ObjectText(number: nat, seal: string): string {
    Decimal.Print(number) + " 0 obj\n<<" + SealText(seal) + ">>\nendobj\n"
  }

  /** The cross-reference section: one subsection with one entry. */
  function XrefText(number: nat, objOffset: nat): string {
    "xref\n" + Decimal.Print(number) + " 1\n" + Decimal.Pad(Decimal.Print(objOffset), 10) + " 00000 n \n"
  }

  function InfoText(info: Option<Ref>): string {
    if info.Some? then "/Info" + " " + RefText(info.value) + "\n" else ""
  }

  const DICTIONARY_HEAD := "trailer\n<<\n"

  function SizeLine(t: Trailer): string { "/Size" + " " + Decimal.Print(t.size) + "\n" }

  function RootLine(t: Trailer): string { "/Root" + " " + RefText(t.root) + "\n" }

  function PrevLines(t: Trailer): string { "/Prev " + Decimal.Print(t.prev) + "\n>>\n" }

  function DictionaryText(t: Trailer): string {
    DICTIONARY_HEAD + SizeLine(t) + RootLine(t) + InfoText(t.info) + PrevLines(t)
  }

  function EndText(xrefOffset: nat): string {
    STARTXREF + ("\n" + Decimal.Print(xrefOffset) + "\n%%EOF\n")
  }

  /** Where the new object starts, and where the new cross-reference section starts. */
  function ObjectOffset(pdf: string): nat {
    |pdf| + 1
  }

  function XrefOffset(pdf: string, number: nat, seal: string): nat {
    ObjectOffset(pdf) + |ObjectText(number, seal)|
  }

  /** Everything that is appended to a file whose last trailer is `t`. */
  function Update(pdf: string, t: Trailer, seal: string): string {
    "\n" + ObjectText(t.size, seal) + XrefText(t.size, ObjectOffset(pdf))
    + DictionaryText(t.(size := t.size + 1)) + EndText(XrefOffset(pdf, t.size, seal))
  }

  function EmbedText(pdf: string, seal: string): Outcome<string> {
    var t := ReadLastTrailer(pdf);
    if t.Failure? then Failure(t.error) else Success(pdf + Update(pdf, t.value, seal))
  }

  /** `embedPqSeal` for the bytes of a serialized seal. */
  function Embed(pdf: string, seal: seq<Base64.Byte>): Outcome<string> {
    EmbedText(pdf, Base64.Encode(seal))
  }

  /** `extractPqSeal` up to the decoded bytes. */
  function Extract(pdf: string): Option<seq<Base64.Byte>> {
    var found := Search(SealObject, pdf);
    if found.Some? && |found.value| == 1 then Some(Base64.Decode(found.value[0])) else None
  }

  /** The same text, grouped around each of its parts. */
  lemma Regroup(a: string, b: string, c: string, d: string, e: string, f: string)
    ensures a + (b + c + d + e + f) == a + b + c + (d + e + f)
    ensures a + (b + c + d + e + f) == a + b + c + d + (e + f)
    ensures a + (b + c + d + e + f) == a + b + c + d + e + f
    ensures a <= a + (b + c + d + e + f)
  {
  }

  // ---------------------------------------------------------------------------
  // Reading the new trailer
  // ---------------------------------------------------------------------------

  predicate RefOk(r: Ref) {
    r.number != "" && r.generation != "" && Decimal.AllDigits(r.number) && Decimal.AllDigits(r.generation)
  }

  predicate TrailerOk(t: Trailer) {
    RefOk(t.root) && (t.info.Some? ==> RefOk(t.info.value))
  }

  lemma RefCaptureIsOk(name: string, s: string, i: nat)
    requires i <= |s| && MatchAt(RefAfter(name), s, i).Some?
    ensures var g := MatchAt(RefAfter(name), s, i).value; |g| == 2 && RefOk(RefOf(g))
  {
  }

  lemma {:induction false} FirstRefIsOk(name: string, s: string, i: nat)
    requires i <= |s| && FirstMatch(RefAfter(name), s, i).Some?
    ensures var g := FirstMatch(RefAfter(name), s, i).value; |g| == 2 && RefOk(RefOf(g))
    decreases |s| - i
  {
    if MatchAt(RefAfter(name), s, i).Some? { RefCaptureIsOk(name, s, i); }
    else { FirstRefIsOk(name, s, i + 1); }
  }

  /** What is read from any file has well-formed references. */
  lemma ReadTrailerIsOk(pdf: string)
    requires ReadLastTrailer(pdf).Success?
    ensures TrailerOk(ReadLastTrailer(pdf).value)
  {
    var dict := pdf[LastIndexOf(pdf, TRAILER)..LastIndexOf(pdf, STARTXREF)];
    FirstRefIsOk("/Root", dict, 0);
    if Search(RefAfter("/Info"), dict).Some? { FirstRefIsOk("/Info", dict, 0); }
    hide FirstMatch, LastIndexOf;
  }

  /** A reference that stands after a name is what the pattern captures. */
  lemma RefMatches(s: string, i: nat, name: string, r: Ref)
    requires RefOk(r) && At(s, i, name + " " + RefText(r) + "\n")
    ensures MatchAt(RefAfter(name), s, i) == Some([r.number, r.generation])
  {
    var j := i + |name| + 1;
    hide At, MatchAt;
    AtSplit(s, i, name + " " + RefText(r), "\n");
    AtSplit(s, i, name + " ", RefText(r));
    AtSplit(s, i, name, " ");
    AtSplit(s, j, r.number + " " + r.generation, " R");
    AtSplit(s, j, r.number + " ", r.generation);
    AtSplit(s, j, r.number, " ");
    var b := j + |r.number|;
    var d := b + 1 + |r.generation|;
    assert " " + "R" == " R";
    AtSplit(s, d, " ", "R");
    RefCaptures(s, i, name, r, j, b, d);
  }

  lemma RefCaptures(s: string, i: nat, name: string, r: Ref, j: nat, b: nat, d: nat)
    requires RefOk(r) && j == i + |name| + 1 && b == j + |r.number| && d == b + 1 + |r.generation|
    requires At(s, i, name) && At(s, j - 1, " ") && At(s, j, r.number) && At(s, b, " ")
    requires At(s, b + 1, r.generation) && At(s, d, " ") && At(s, d + 1, "R")
    ensures MatchAt(RefAfter(name), s, i) == Some([r.number, r.generation])
  {
    assert s[j..b] == r.number && s[b + 1..d] == r.generation;
    hide RunEnd, In, At, MatchRef;
    RefRuns(s, r, j, b, d);
    RefGroups(s, i, name, j, b, d);
  }

  lemma RefGroups(s: string, i: nat, name: string, j: nat, b: nat, d: nat)
    requires At(s, i, name) && j == i + |name| + 1 && j < b && b + 1 < d && d <= |s|
    requires RunEnd(Space, s, j - 1) == j && RunEnd(Digit, s, j) == b && RunEnd(Space, s, b) == b + 1
    requires RunEnd(Digit, s, b + 1) == d && RunEnd(Space, s, d) == d + 1 && At(s, d + 1, "R")
    ensures MatchRef(name, s, i) == Some([s[j..b], s[b + 1..d]])
  {
    hide RunEnd, In, At;
  }

  lemma RefRuns(s: string, r: Ref, j: nat, b: nat, d: nat)
    requires RefOk(r) && b == j + |r.number| && d == b + 1 + |r.generation| && j > 0
    requires At(s, j - 1, " ") && At(s, j, r.number) && At(s, b, " ")
    requires At(s, b + 1, r.generation) && At(s, d, " ") && At(s, d + 1, "R")
    ensures RunEnd(Space, s, j - 1) == j && RunEnd(Digit, s, j) == b && RunEnd(Space, s, b) == b + 1
    ensures RunEnd(Digit, s, b + 1) == d && RunEnd(Space, s, d) == d + 1
  {
    hide RunEnd, At;
    OneSpace(s, j - 1, r.number);
    DigitRun(s, j, r.number);
    OneSpace(s, b, r.generation);
    DigitRun(s, b + 1, r.generation);
    OneSpace(s, d, "R");
  }

  lemma OneSpace(s: string, i: nat, next: string)
    requires At(s, i, " ") && next != "" && At(s, i + 1, next) && !In(Space, next[0])
    ensures RunEnd(Space, s, i) == i + 1
  {
    hide RunEnd;
    AtChar(s, i + 1, next, 0);
    RunAt(Space, s, i, " ");
  }

  lemma DigitRun(s: string, i: nat, digits: string)
    requires digits != "" && Decimal.AllDigits(digits) && At(s, i, digits) && At(s, i + |digits|, " ")
    ensures RunEnd(Digit, s, i) == i + |digits|
  {
    hide RunEnd;
    AtChar(s, i + |digits|, " ", 0);
    RunAt(Digit, s, i, digits);
  }

  lemma NumberMatches(s: string, i: nat, name: string, n: nat)
    requires At(s, i, name + " " + Decimal.Print(n) + "\n")
    ensures MatchAt(NumberAfter(name), s, i) == Some([Decimal.Print(n)])
  {
    var j := i + |name| + 1;
    var b := j + |Decimal.Print(n)|;
    hide RunEnd, MatchNumberAfter, At;
    AtSplit(s, i, name + " " + Decimal.Print(n), "\n");
    AtSplit(s, i, name + " ", Decimal.Print(n));
    AtSplit(s, i, name, " ");
    NumberCaptures(s, i, name, Decimal.Print(n), j, b);
  }

  lemma NumberCaptures(s: string, i: nat, name: string, digits: string, j: nat, b: nat)
    requires Decimal.AllDigits(digits) && digits != "" && j == i + |name| + 1 && b == j + |digits|
    requires At(s, i, name) && At(s, j - 1, " ") && At(s, j, digits) && At(s, b, "\n")
    ensures MatchNumberAfter(name, s, i) == Some([digits])
  {
    AtChar(s, j, digits, 0);
    AtChar(s, b, "\n", 0);
    assert s[j..b] == digits;
    hide RunEnd, At;
    RunAt(Space, s, j - 1, " ");
    RunAt(Digit, s, j, digits);
  }

  /** Before the name's first two characters occur there is no match. */
  lemma NoEarlierMatch(p: Pattern, name: string, before: string, rest: string)
    requires p == RefAfter(name) || p == NumberAfter(name)
    requires |name| >= 2 && NoPair(before, name[0], name[1])
    requires before != "" && rest != "" && before[|before| - 1] != name[0]
    ensures forall j :: 0 <= j < |before| ==> MatchAt(p, before + rest, j).None?
  {
  }

  lemma FiveParts(a: string, b: string, c: string, d: string, e: string)
    ensures var s := a + b + c + d + e;
            && At(s, |a|, b) && At(s, |a + b|, c) && At(s, |a + b + c|, d)
            && s == a + (b + c + d + e) && s == a + b + (c + d + e) && s == a + b + c + (d + e)
  {
    AtMiddle(a, b, c + d + e);
    AtMiddle(a + b, c, d + e);
    AtMiddle(a + b + c, d, e);
    assert a + b + (c + d + e) == a + b + c + d + e;
    assert a + b + c + (d + e) == a + b + c + d + e;
  }

  /** The dictionary after its first character never has "tr"; with no /Info entry it never
      has "/I"; and "/R" starts its second line. */
  lemma LinesHaveNoPair(t: Trailer, a: char, b: char)
    requires TrailerOk(t) && ((a == '/' && b == 'I') || (a == 't' && b == 'r'))
    ensures NoPair(SizeLine(t), a, b) && NoPair(RootLine(t), a, b) && NoPair(PrevLines(t), a, b)
    ensures a == 't' || t.info.None? ==> NoPair(InfoText(t.info), a, b)
    ensures NoPair(DICTIONARY_HEAD[1..], a, b) && (a == '/' ==> NoPair(DICTIONARY_HEAD, a, b))
  {
  }

  lemma SizeLineHasNoRoot(t: Trailer)
    ensures NoPair(DICTIONARY_HEAD + SizeLine(t), '/', 'R') && NoPair(DICTIONARY_HEAD, '/', 'S')
  {
    assert NoPair(SizeLine(t), '/', 'R');
    NoPairConcat(DICTIONARY_HEAD, SizeLine(t), '/', 'R');
  }

  /** Lines end in a line feed, so nothing pairs up across their ends. */
  predicate IsLine(s: string) {
    s != "" && s[|s| - 1] == '\n'
  }

  lemma NoPairLines(s: string, t: string, a: char, b: char)
    requires IsLine(s) && (t == "" || IsLine(t)) && a != '\n' && NoPair(s, a, b) && NoPair(t, a, b)
    ensures IsLine(s + t) && NoPair(s + t, a, b)
  {
    NoPairConcat(s, t, a, b);
  }

  lemma LinesAreLines(t: Trailer)
    ensures IsLine(DICTIONARY_HEAD) && IsLine(DICTIONARY_HEAD[1..]) && IsLine(SizeLine(t)) && IsLine(RootLine(t)) && IsLine(PrevLines(t))
    ensures InfoText(t.info) == "" || IsLine(InfoText(t.info))
    ensures DictionaryText(t) != "" && DictionaryText(t)[0] == 't'
  {
  }

  lemma DictionaryHasNoPair(head: string, t: Trailer, a: char, b: char)
    requires TrailerOk(t) && ((a == '/' && b == 'I' && t.info.None?) || (a == 't' && b == 'r'))
    requires head == DICTIONARY_HEAD[1..] || (head == DICTIONARY_HEAD && a == '/')
    ensures var rest := head + SizeLine(t) + RootLine(t) + InfoText(t.info) + PrevLines(t);
            NoPair(rest, a, b) && IsLine(rest)
  {
    LinesHaveNoPair(t, a, b);
    LinesAreLines(t);
    hide SizeLine, RootLine, InfoText, PrevLines, NoPair, IsLine;
    NoPairLines(head, SizeLine(t), a, b);
    NoPairLines(head + SizeLine(t), RootLine(t), a, b);
    NoPairLines(head + SizeLine(t) + RootLine(t), InfoText(t.info), a, b);
    NoPairLines(head + SizeLine(t) + RootLine(t) + InfoText(t.info), PrevLines(t), a, b);
  }

  lemma NumberIsFound(before: string, name: string, n: nat, line: string, rest: string)
    requires |name| >= 2 && line == name + " " + Decimal.Print(n) + "\n"
    requires IsLine(before) && NoPair(before, name[0], name[1]) && name[0] != '\n'
    ensures Search(NumberAfter(name), before + line + rest) == Some([Decimal.Print(n)])
  {
    var s := before + line + rest;
    AtMiddle(before, line, rest);
    NumberMatches(s, |before|, name, n);
    hide MatchAt, At, Decimal.Print;
    assert s == before + (line + rest);
    NoEarlierMatch(NumberAfter(name), name, before, line + rest);
    FirstMatchIs(NumberAfter(name), s, 0, |before|);
  }

  lemma SizeIsFound(t: Trailer)
    ensures Search(NumberAfter("/Size"), DictionaryText(t)).Some?
    ensures NumberIn(Search(NumberAfter("/Size"), DictionaryText(t))) == t.size
  {
    SizeLineHasNoRoot(t);
    LinesAreLines(t);
    var a, b, c, d, e := DICTIONARY_HEAD, SizeLine(t), RootLine(t), InfoText(t.info), PrevLines(t);
    assert b == "/Size" + " " + Decimal.Print(t.size) + "\n";
    FiveParts(a, b, c, d, e);
    Decimal.ReadsBack(t.size);
    hide SizeLine, RootLine, InfoText, PrevLines, Search, Decimal.Print, At;
    NumberIsFound(a, "/Size", t.size, b, c + d + e);
    assert a + b + (c + d + e) == DictionaryText(t);
  }

  /** The first line that starts with a name is where the search ends. */
  lemma RefIsFound(before: string, name: string, r: Ref, line: string, rest: string)
    requires RefOk(r) && |name| >= 2 && line == name + " " + RefText(r) + "\n"
    requires IsLine(before) && NoPair(before, name[0], name[1]) && name[0] != '\n'
    ensures Search(RefAfter(name), before + line + rest) == Some([r.number, r.generation])
  {
    var s := before + line + rest;
    AtMiddle(before, line, rest);
    RefMatches(s, |before|, name, r);
    hide MatchAt, At, RefText;
    assert s == before + (line + rest);
    NoEarlierMatch(RefAfter(name), name, before, line + rest);
    FirstMatchIs(RefAfter(name), s, 0, |before|);
  }

  lemma RootIsFound(t: Trailer)
    requires TrailerOk(t)
    ensures Search(RefAfter("/Root"), DictionaryText(t)) == Some([t.root.number, t.root.generation])
  {
    SizeLineHasNoRoot(t);
    LinesAreLines(t);
    var a, b, c, d, e := DICTIONARY_HEAD, SizeLine(t), RootLine(t), InfoText(t.info), PrevLines(t);
    assert c == "/Root" + " " + RefText(t.root) + "\n";
    FiveParts(a, b, c, d, e);
    hide SizeLine, RootLine, InfoText, PrevLines, Search, RefText, At;
    RefIsFound(a + b, "/Root", t.root, c, d + e);
    assert a + b + c + (d + e) == DictionaryText(t);
  }

  lemma InfoIsFound(t: Trailer)
    requires TrailerOk(t) && t.info.Some?
    ensures Search(RefAfter("/Info"), DictionaryText(t)) == Some([t.info.value.number, t.info.value.generation])
  {
    LinesHaveNoPair(t, '/', 'I');
    LinesAreLines(t);
    var a, b, c, d, e := DICTIONARY_HEAD, SizeLine(t), RootLine(t), InfoText(t.info), PrevLines(t);
    assert d == "/Info" + " " + RefText(t.info.value) + "\n";
    hide SizeLine, RootLine, InfoText, PrevLines, Search, RefText;
    NoPairLines(a, b, '/', 'I');
    NoPairLines(a + b, c, '/', 'I');
    RefIsFound(a + b + c, "/Info", t.info.value, d, e);
    assert a + b + c + d + e == DictionaryText(t);
  }

  lemma NoInfoIsFound(t: Trailer)
    requires TrailerOk(t) && t.info.None?
    ensures Search(RefAfter("/Info"), DictionaryText(t)) == None
  {
    var s := DictionaryText(t);
    DictionaryHasNoPair(DICTIONARY_HEAD, t, '/', 'I');
    assert s[0..] == s;
    NoPairNoWord(s, "/Info", 0);
    hide DictionaryText;
    FirstMatchNone(RefAfter("/Info"), s, 0);
  }

  /** The program reads back the dictionary it writes. */
  lemma DictionaryReadsBack(t: Trailer, prev: nat)
    requires TrailerOk(t)
    ensures ReadDictionary(DictionaryText(t), prev) == Success(t.(prev := prev))
  {
    SizeIsFound(t);
    RootIsFound(t);
    if t.info.Some? { InfoIsFound(t); } else { NoInfoIsFound(t); }
    hide Search, DictionaryText, NumberIn;
  }

  lemma EndHasNoPair(x: nat)
    ensures NoPair(EndText(x)[1..], 's', 't') && NoPair(EndText(x), 't', 'r')
    ensures IsLine(EndText(x)) && EndText(x)[|STARTXREF|..] == "\n" + Decimal.Print(x) + "\n%%EOF\n"
  {
    EndDigits(Decimal.Print(x));
  }

  lemma EndDigits(digits: string)
    requires Decimal.AllDigits(digits) && digits != ""
    ensures var end := STARTXREF + ("\n" + digits + "\n%%EOF\n");
            NoPair(end[1..], 's', 't') && NoPair(end, 't', 'r')
  {
    var a, b, c, d := STARTXREF, "\n", digits, "\n%%EOF\n";
    assert NoPair(a[1..], 's', 't') && NoPair(a, 't', 'r') && a[|a| - 1] == 'f' && a[1..][|a| - 2] == 'f';
    assert NoPair(b + c, 's', 't') && NoPair(b + c, 't', 'r') && NoPair(d, 's', 't') && NoPair(d, 't', 'r');
    NoPairConcat(b + c, d, 's', 't');
    NoPairConcat(b + c, d, 't', 'r');
    NoPairConcat(a[1..], b + c + d, 's', 't');
    NoPairConcat(a, b + c + d, 't', 'r');
    assert (a + (b + c + d))[1..] == a[1..] + (b + c + d);
  }

  lemma OffsetIsFound(x: nat)
    ensures NumberIn(Search(Number, "\n" + Decimal.Print(x) + "\n%%EOF\n")) == x
    ensures Search(Number, "\n" + Decimal.Print(x) + "\n%%EOF\n").Some?
  {
    var digits := Decimal.Print(x);
    var s := "\n" + digits + "\n%%EOF\n";
    AtMiddle("\n", digits, "\n%%EOF\n");
    assert s[1 + |digits|] == '\n' && s[0] == '\n';
    RunAt(Digit, s, 1, digits);
    assert s[1..1 + |digits|] == digits;
    assert MatchAt(Number, s, 0).None?;
    FirstMatchIs(Number, s, 0, 1);
    Decimal.ReadsBack(x);
  }

  lemma StartxrefIsLast(before: string, x: nat)
    ensures LastIndexOf(before + EndText(x), STARTXREF) == |before|
  {
    EndHasNoPair(x);
    assert EndText(x)[..|STARTXREF|] == STARTXREF;
    hide EndText, NoPair, LastIndexOf;
    LastWord(before, STARTXREF, EndText(x));
  }

  lemma TrailerIsLast(before: string, t: Trailer, x: nat)
    requires TrailerOk(t)
    ensures LastIndexOf(before + DictionaryText(t) + EndText(x), TRAILER) == |before|
  {
    var d, e := DictionaryText(t), EndText(x);
    DictionaryStarts(t);
    EndHasNoPair(x);
    hide DictionaryText, EndText, NoPair, LastIndexOf;
    NoPairLines(d[1..], e, 't', 'r');
    hide IsLine;
    LastWordOfTwo(before, TRAILER, d, e);
  }

  lemma DictionaryStarts(t: Trailer)
    requires TrailerOk(t)
    ensures var d := DictionaryText(t);
            |d| > |TRAILER| && d[..|TRAILER|] == TRAILER && NoPair(d[1..], 't', 'r') && IsLine(d[1..])
  {
    var a := DICTIONARY_HEAD;
    DictionaryHasNoPair(a[1..], t, 't', 'r');
    assert a[..|TRAILER|] == TRAILER && |a| > |TRAILER|;
    hide SizeLine, RootLine, InfoText, PrevLines, NoPair, IsLine;
    HeadOfParts(a, SizeLine(t), RootLine(t), InfoText(t.info), PrevLines(t), |TRAILER|);
  }

  lemma HeadOfParts(a: string, b: string, c: string, d: string, e: string, k: nat)
    requires 0 < k <= |a|
    ensures (a + b + c + d + e)[1..] == a[1..] + b + c + d + e && (a + b + c + d + e)[..k] == a[..k]
  {
  }

  lemma Slices(a: string, b: string, c: string, k: nat)
    requires k <= |c|
    ensures (a + b + c)[|a|..|a + b|] == b && (a + b + c)[|a + b| + k..] == c[k..]
  {
  }

  lemma ReadIs(s: string, tr: nat, sx: nat, dict: string, tail: string, x: nat)
    requires LastIndexOf(s, STARTXREF) == sx && LastIndexOf(s, TRAILER) == tr && tr <= sx
    requires sx + |STARTXREF| <= |s| && s[tr..sx] == dict && s[sx + |STARTXREF|..] == tail
    requires Search(Number, tail).Some? && NumberIn(Search(Number, tail)) == x
    ensures ReadLastTrailer(s) == ReadDictionary(dict, x)
  {
    hide LastIndexOf, Search, NumberIn, ReadDictionary, At;
  }

  /** Whatever stands before: the program reads back the trailer it writes, with the new
      cross-reference section as the previous one. */
  lemma TrailerReadsBack(before: string, t: Trailer, x: nat)
    requires TrailerOk(t)
    ensures ReadLastTrailer(before + DictionaryText(t) + EndText(x)) == Success(t.(prev := x))
  {
    var d, e := DictionaryText(t), EndText(x);
    var s := before + d + e;
    EndHasNoPair(x);
    assert |e| >= |STARTXREF|;
    hide DictionaryText, EndText, NoPair, IsLine, LastIndexOf, Search, ReadDictionary, NumberIn, Decimal.Print, TrailerOk;
    StartxrefIsLast(before + d, x);
    TrailerIsLast(before, t, x);
    OffsetIsFound(x);
    DictionaryReadsBack(t, x);
    Slices(before, d, e, |STARTXREF|);
    ReadIs(s, |before|, |before + d|, d, e[|STARTXREF|..], x);
    hide ReadLastTrailer;
  }

  /** Re-reading the result of an embedding: the same /Root and /Info, one more object, and
      the new cross-reference section. */
  lemma EmbedAdvancesTrailer(pdf: string, seal: string)
    requires EmbedText(pdf, seal).Success?
    ensures var t := ReadLastTrailer(pdf).value;
            ReadLastTrailer(EmbedText(pdf, seal).value)
            == Success(Trailer(t.root, t.info, t.size + 1, XrefOffset(pdf, t.size, seal)))
  {
    ReadTrailerIsOk(pdf);
    var t := ReadLastTrailer(pdf).value;
    var next, x := t.(size := t.size + 1), XrefOffset(pdf, t.size, seal);
    var entry, section := ObjectText(t.size, seal), XrefText(t.size, ObjectOffset(pdf));
    TrailerReadsBack(pdf + "\n" + entry + section, next, x);
    hide ReadLastTrailer, ObjectText, XrefText, DictionaryText, EndText, XrefOffset, TrailerOk;
    Regroup(pdf, "\n", entry, section, DictionaryText(next), EndText(x));
    assert Update(pdf, t, seal) == "\n" + entry + section + DictionaryText(next) + EndText(x);
  }

  // ---------------------------------------------------------------------------
  // Following the update
  // ---------------------------------------------------------------------------

  /** A decimal numeral, leading zeros allowed. */
  predicate Numeral(s: string, n: nat) {
    s != "" && Decimal.AllDigits(s) && Decimal.Value(s) == n
  }

  /** What a reader of the file does, character by character: the number after the last
      `startxref` is where the section stands; its one entry, of ten digits unless the file is
      larger, is where the object of that number stands; and /Prev is where the section before
      stands. */
  lemma UpdateCanBeFollowed(pdf: string, seal: string)
    returns (last: string, xref: nat, number: string, entry: string, at: nat, prev: string)
    requires EmbedText(pdf, seal).Success?
    ensures var out, t := EmbedText(pdf, seal).value, ReadLastTrailer(pdf).value;
            var end := |out| - |last| - 17;
            && pdf <= out && |pdf| <= at
            && end >= |prev| + 10 && LastIndexOf(out, "startxref") == end
            && At(out, end, "startxref\n" + last + "\n%%EOF\n") && Numeral(last, xref)
            && At(out, xref, "xref\n" + number + " 1\n" + entry + " 00000 n \ntrailer\n<<\n") && Numeral(number, t.size)
            && Numeral(entry, at) && |entry| >= 10 && (at < 10_000_000_000 ==> |entry| == 10)
            && At(out, at, number + " 0 obj\n<</Type/ESigPQSeal/V 1/Seal(" + seal + ")>>\nendobj\n")
            && Numeral(prev, t.prev) && At(out, end - |prev| - 10, "/Prev " + prev + "\n>>\n")
  {
    hide ReadLastTrailer, ObjectText, XrefText, EndText, PrevLines, SizeLine, RootLine, InfoText, LastIndexOf, At,
      Decimal.Print, Decimal.Pad, Numeral, DictionaryText;
    var t := ReadLastTrailer(pdf).value;
    var next := t.(size := t.size + 1);
    at, xref := ObjectOffset(pdf), XrefOffset(pdf, t.size, seal);
    number, last, prev, entry := Decimal.Print(t.size), Decimal.Print(xref), Decimal.Print(t.prev), Decimal.Pad(Decimal.Print(at), 10);
    NumeralsRead(t, at, xref);
    var body := SizeLine(next) + RootLine(next) + InfoText(next.info);
    UpdateTexts(next, t.size, seal, at, xref);
    StartxrefIsLast(pdf + "\n" + ObjectText(t.size, seal) + XrefText(t.size, at) + DICTIONARY_HEAD + body + PrevLines(next), xref);
    PartsOfUpdate(pdf, ObjectText(t.size, seal), XrefText(t.size, at), DICTIONARY_HEAD, body, PrevLines(next), EndText(xref));
    assert DictionaryText(next) == DICTIONARY_HEAD + body + PrevLines(next) by { DictionaryParts(next); }
  }

  lemma NumeralsRead(t: Trailer, at: nat, xref: nat)
    ensures Numeral(Decimal.Print(t.size), t.size) && Numeral(Decimal.Print(xref), xref) && Numeral(Decimal.Print(t.prev), t.prev)
    ensures var entry := Decimal.Pad(Decimal.Print(at), 10);
            Numeral(entry, at) && |entry| >= 10 && (at < 10_000_000_000 ==> |entry| == 10)
  {
    Decimal.ReadsBack(t.size);
    Decimal.ReadsBack(xref);
    Decimal.ReadsBack(t.prev);
    Decimal.PaddedReadsBack(at, 10);
    if at < 10_000_000_000 { Decimal.PrintedLength(at, 10); }
    hide Decimal.Print, Decimal.Value;
  }

  lemma DictionaryParts(t: Trailer)
    ensures DictionaryText(t) == DICTIONARY_HEAD + (SizeLine(t) + RootLine(t) + InfoText(t.info)) + PrevLines(t)
  {
    hide SizeLine, RootLine, InfoText, PrevLines;
  }

  lemma UpdateTexts(next: Trailer, number: nat, seal: string, at: nat, xref: nat)
    ensures ObjectText(number, seal) == Decimal.Print(number) + " 0 obj\n<</Type/ESigPQSeal/V 1/Seal(" + seal + ")>>\nendobj\n"
    ensures XrefText(number, at) + DICTIONARY_HEAD
         == "xref\n" + Decimal.Print(number) + " 1\n" + Decimal.Pad(Decimal.Print(at), 10) + " 00000 n \ntrailer\n<<\n"
    ensures PrevLines(next) == "/Prev " + Decimal.Print(next.prev) + "\n>>\n"
    ensures EndText(xref) == "startxref\n" + Decimal.Print(xref) + "\n%%EOF\n"
  {
    hide Decimal.Print, Decimal.Pad, SealText;
    ObjectTextIs(Decimal.Print(number), seal);
    SectionIs("xref\n" + Decimal.Print(number) + " 1\n" + Decimal.Pad(Decimal.Print(at), 10));
    EndTextIs(Decimal.Print(xref));
  }

  lemma SectionIs(s: string)
    ensures s + " 00000 n \n" + DICTIONARY_HEAD == s + " 00000 n \ntrailer\n<<\n"
  {
    assert " 00000 n \n" + DICTIONARY_HEAD == " 00000 n \ntrailer\n<<\n";
  }

  lemma EndTextIs(x: string)
    ensures STARTXREF + ("\n" + x + "\n%%EOF\n") == "startxref\n" + x + "\n%%EOF\n"
  {
    assert STARTXREF + "\n" == "startxref\n";
  }

  lemma ObjectTextIs(n: string, seal: string)
    ensures n + " 0 obj\n<<" + SealText(seal) + ">>\nendobj\n" == n + " 0 obj\n<</Type/ESigPQSeal/V 1/Seal(" + seal + ")>>\nendobj\n"
  {
    SealTextIs(seal);
    hide SealText;
    Reassociate(n, " 0 obj\n<<", "/Type/ESigPQSeal/V 1/Seal(", seal, ")", ">>\nendobj\n");
    assert " 0 obj\n<<" + "/Type/ESigPQSeal/V 1/Seal(" == " 0 obj\n<</Type/ESigPQSeal/V 1/Seal(";
    assert ")" + ">>\nendobj\n" == ")>>\nendobj\n";
  }

  lemma Reassociate(a: string, b: string, c: string, d: string, e: string, f: string)
    ensures a + b + (c + d + e) + f == a + (b + c) + d + (e + f)
  {
  }

  lemma SealTextIs(seal: string)
    ensures SealText(seal) == "/Type/ESigPQSeal/V 1/Seal(" + seal + ")"
  {
    assert TYPE + (SEAL_TYPE + (" " + SEAL_OPEN)) == "/Type/ESigPQSeal/V 1/Seal(";
    assert SealText(seal) == TYPE + (SEAL_TYPE + (" " + SEAL_OPEN)) + seal + ")";
  }

  /** Where the parts of an update stand. */
  lemma PartsOfUpdate(pdf: string, b: string, c: string, d: string, e: string, f: string, g: string)
    ensures var s := pdf + ("\n" + b + c + (d + e + f) + g);
            && s == pdf + "\n" + b + c + d + e + f + g
            && At(s, |pdf| + 1, b) && At(s, |pdf| + 1 + |b|, c + d) && At(s, |s| - |g| - |f|, f) && At(s, |s| - |g|, g)
  {
    hide At;
    var a := pdf + "\n";
    var s := a + b + c + d + e + f + g;
    assert s == pdf + ("\n" + b + c + (d + e + f) + g);
    assert s == a + b + (c + d + e + f + g) && s == (a + b) + (c + d) + (e + f + g);
    AtMiddle(a, b, c + d + e + f + g);
    AtMiddle(a + b, c + d, e + f + g);
    AtMiddle(a + b + c + d + e, f, g);
    assert s == (a + b + c + d + e + f) + g + "";
    AtMiddle(a + b + c + d + e + f, g, "");
  }

  // ---------------------------------------------------------------------------
  // Chains of updates
  // ---------------------------------------------------------------------------

  /** The file after embedding some seals one after the other. */
  function Chain(pdf: string, seals: seq<string>): Outcome<string> {
    if seals == [] then Success(pdf)
    else
      var before := Chain(pdf, seals[..|seals| - 1]);
      if before.Failure? then before else EmbedText(before.value, seals[|seals| - 1])
  }

  /** The object number that the next embedding will use. */
  function NextObject(pdf: string): nat {
    var t := ReadLastTrailer(pdf);
    if t.Success? then t.value.size else 0
  }

  /** A file that takes one seal takes any number; every update keeps what was there, uses
      the next object number and leaves the document's /Root and /Info in place. */
  lemma {:induction false} ChainsUseFreshObjects(pdf: string, seals: seq<string>)
    requires ReadLastTrailer(pdf).Success?
    ensures Chain(pdf, seals).Success? && ReadLastTrailer(Chain(pdf, seals).value).Success?
    ensures pdf <= Chain(pdf, seals).value
    ensures NextObject(Chain(pdf, seals).value) == NextObject(pdf) + |seals|
    ensures var t, t' := ReadLastTrailer(pdf).value, ReadLastTrailer(Chain(pdf, seals).value).value;
            t'.root == t.root && t'.info == t.info
    decreases |seals|
  {
    if seals != [] {
      var n := |seals| - 1;
      ChainsUseFreshObjects(pdf, seals[..n]);
      var before := Chain(pdf, seals[..n]).value;
      EmbedAdvancesTrailer(before, seals[n]);
      hide ReadLastTrailer, Update;
    }
  }

  lemma ChainGrows(pdf: string, seals: seq<string>, j: nat)
    requires ReadLastTrailer(pdf).Success? && 0 < j <= |seals|
    ensures Chain(pdf, seals[..j - 1]).Success? && Chain(pdf, seals[..j]).Success?
    ensures var p, q := Chain(pdf, seals[..j - 1]).value, Chain(pdf, seals[..j]).value;
            NextObject(q) == NextObject(p) + 1 && p <= q && |p| < |q|
  {
    hide ReadLastTrailer, NextObject;
    ChainsUseFreshObjects(pdf, seals[..j - 1]);
    ChainsUseFreshObjects(pdf, seals[..j]);
    assert seals[..j][..j - 1] == seals[..j - 1];
  }

  /** Two different updates of a chain never use the same object number, and the later one
      stands further on. */
  lemma {:induction false} ChainObjectsAreDistinct(pdf: string, seals: seq<string>, i: nat, j: nat)
    requires ReadLastTrailer(pdf).Success? && i < j <= |seals|
    ensures Chain(pdf, seals[..i]).Success? && Chain(pdf, seals[..j]).Success?
    ensures var p, q := Chain(pdf, seals[..i]).value, Chain(pdf, seals[..j]).value;
            NextObject(p) < NextObject(q) && ObjectOffset(p) < ObjectOffset(q) && p <= q
    decreases j - i
  {
    hide ReadLastTrailer, NextObject, Chain;
    ChainGrows(pdf, seals, j);
    if i + 1 < j { ChainObjectsAreDistinct(pdf, seals, i, j - 1); }
  }

  // ---------------------------------------------------------------------------
  // Extraction
  // ---------------------------------------------------------------------------

  /** What stands between the file and the seal object's /Type. */
  function JoinText(number: nat): string {
    "\n" + Decimal.Print(number) + " 0 obj\n<<"
  }

  lemma JoinBreaks(number: nat, rest: string)
    ensures Breaks(JoinText(number) + rest)
    ensures forall k :: 0 <= k < |JoinText(number)| ==> JoinText(number)[k] != '/'
  {
    var digits := Decimal.Print(number);
    var u := JoinText(number) + rest;
    assert u[0] == '\n' && u[1] == digits[0];
    assert u[2] == if |digits| > 1 then digits[1] else ' ';
  }

  /** No match starts in the join. */
  lemma JoinHasNoMatch(pdf: string, join: string, rest: string, i: nat)
    requires |pdf| <= i < |pdf| + |join| && (forall k :: 0 <= k < |join| ==> join[k] != '/')
    ensures MatchSeal(pdf + join + rest, i).None?
  {
    var s := pdf + join + rest;
    assert s[i] == join[i - |pdf|];
    if At(s, i, TYPE) { AtChar(s, i, TYPE, 0); }
    hide At;
  }

  /** The first seal object of a file without one that was extended by one, whatever was
      appended later. */
  lemma FirstSealIsFound(pdf: string, number: nat, seal: string, rest: string)
    requires seal != "" && All(Base64Text, seal) && Search(SealObject, pdf).None?
    ensures Search(SealObject, pdf + JoinText(number) + (SealText(seal) + rest)) == Some([seal])
  {
    var join, body := JoinText(number), SealText(seal) + rest;
    var s := pdf + join + body;
    JoinBreaks(number, body);
    FirstMatchNone(SealObject, pdf, 0);
    assert s == pdf + (join + body);
    assert s == pdf + join + SealText(seal) + rest;
    AtMiddle(pdf + join, SealText(seal), rest);
    SealMatches(s, |pdf + join|, seal);
    hide JoinText, SealText, MatchSeal, At, In, Breaks;
    forall i | 0 <= i < |pdf + join| ensures MatchAt(SealObject, s, i).None? {
      if i < |pdf| {
        assert MatchAt(SealObject, pdf, i).None?;
        if MatchSeal(pdf + (join + body), i).Some? { NoMatchAcross(pdf, join + body, i); }
      } else {
        JoinHasNoMatch(pdf, join, body, i);
      }
    }
    FirstMatchIs(SealObject, s, 0, |pdf + join|);
  }

  /** For every file without a seal and whatever is appended after the seal, extraction
      returns exactly the bytes that were embedded. */
  lemma ExtractReturnsEmbedded(pdf: string, seal: seq<Base64.Byte>, suffix: string)
    requires Embed(pdf, seal).Success? && seal != [] && Search(SealObject, pdf).None?
    ensures Extract(Embed(pdf, seal).value + suffix) == Some(seal)
  {
    var n := ReadLastTrailer(pdf).value.size;
    var text, at := Base64.Encode(seal), ObjectOffset(pdf);
    var tail := DictionaryText(ReadLastTrailer(pdf).value.(size := n + 1)) + EndText(XrefOffset(pdf, n, text));
    var rest := ">>\nendobj\n" + (XrefText(n, at) + (tail + suffix));
    Base64.RoundTrip(seal);
    FirstSealIsFound(pdf, n, text, rest);
    hide ReadLastTrailer, XrefText, DictionaryText, EndText, SealText, XrefOffset, Search, Base64.Encode, Base64.Decode;
    SameUpdate(pdf, Decimal.Print(n), SealText(text), XrefText(n, at),
               DictionaryText(ReadLastTrailer(pdf).value.(size := n + 1)), EndText(XrefOffset(pdf, n, text)), suffix);
  }

  lemma SameUpdate(pdf: string, n: string, body: string, xref: string, dict: string, end: string, suffix: string)
    ensures pdf + ("\n" + (n + " 0 obj\n<<" + body + ">>\nendobj\n") + xref + dict + end) + suffix
         == pdf + ("\n" + n + " 0 obj\n<<") + (body + (">>\nendobj\n" + (xref + (dict + end + suffix))))
  {
  }

  /** A second seal is ignored: extraction keeps returning the first one. */
  lemma LaterSealsAreIgnored(pdf: string, first: seq<Base64.Byte>, second: seq<Base64.Byte>)
    requires Embed(pdf, first).Success? && first != [] && Search(SealObject, pdf).None?
    ensures Embed(Embed(pdf, first).value, second).Success?
    ensures Extract(Embed(Embed(pdf, first).value, second).value) == Some(first)
  {
    var once := Embed(pdf, first).value;
    EmbedAdvancesTrailer(pdf, Base64.Encode(first));
    ExtractReturnsEmbedded(pdf, first, Update(once, ReadLastTrailer(once).value, Base64.Encode(second)));
    hide Update, ReadLastTrailer, Extract;
  }
}
