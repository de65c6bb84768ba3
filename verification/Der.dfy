/** Finding the signature in the /Contents hole (packages/esig-core/src/verify-pdf.ts:68-102
    and 396-405), and what its byte ranges cover. Lengths follow section 8.1.3 of ITU-T X.690. */
module Der {
  import opened Domain
  import Base64
  import Decimal
  import PdfText

  type Byte = Base64.Byte

  type Bytes = seq<Byte>

  // ---------------------------------------------------------------------------
  // Lengths
  // ---------------------------------------------------------------------------

  /** A number from octets, the most significant first. */
  function Big(octets: Bytes): nat {
    if octets == [] then 0 else Big(octets[..|octets| - 1]) * 256 + octets[|octets| - 1]
  }

  function DerTotalLength(buf: Bytes): Option<nat> {
    if |buf| < 2 || buf[0] != 0x30 then None
    else if buf[1] < 0x80 then Some(2 + buf[1])
    else
      var n: nat := buf[1] - 0x80;
      if n == 0 || n > 4 || |buf| < 2 + n then None else Some(2 + n + Big(buf[2..2 + n]))
  }

  /** The program's loop computes that length. */
  method ComputeDerTotalLength(buf: Bytes) returns (length: Option<nat>)
    ensures length == DerTotalLength(buf)
  {
    if |buf| < 2 || buf[0] != 0x30 { return None; }
    var l0 := buf[1];
    if l0 < 0x80 { return Some(2 + l0); }
    var n := l0 % 0x80;
    if n == 0 || n > 4 || |buf| < 2 + n { return None; }
    var v: nat, k: nat := 0, 0;
    while k < n
      invariant 0 <= k <= n
      invariant v == Big(buf[2..2 + k])
    {
      assert buf[2..2 + k + 1][..k] == buf[2..2 + k];
      v := v * 256 + buf[2 + k];
      k := k + 1;
    }
    return Some(2 + n + v);
  }

  /** The length octets of the definite form: the short form for `octets == 0`, else the
      long form with that many octets. */
  function LengthOctets(length: nat, octets: nat): Bytes
    requires octets <= 4 && (if octets == 0 then length < 0x80 else length < Power(octets))
  {
    if octets == 0 then [length] else [0x80 + octets] + Octets(length, octets)
  }

  function Power(k: nat): nat {
    if k == 0 then 1 else 256 * Power(k - 1)
  }

  function Octets(n: nat, k: nat): (r: Bytes)
    requires n < Power(k)
    ensures |r| == k
  {
    if k == 0 then [] else Octets(n / 256, k - 1) + [n % 256]
  }

  lemma {:induction false} OctetsRead(n: nat, k: nat)
    requires n < Power(k)
    ensures Big(Octets(n, k)) == n
  {
    if k > 0 {
      OctetsRead(n / 256, k - 1);
      assert Octets(n, k)[..k - 1] == Octets(n / 256, k - 1);
    }
  }

  /** A SEQUENCE in a definite-length encoding. */
  function Sequence(content: Bytes, octets: nat): Bytes
    requires octets <= 4 && (if octets == 0 then |content| < 0x80 else |content| < Power(octets))
  {
    [0x30] + LengthOctets(|content|, octets) + content
  }

  lemma PartsOfSequence(tag: Bytes, length: Bytes, content: Bytes, padding: Bytes)
    requires |tag| == 1 && length != []
    ensures var buf := tag + length + content + padding;
            buf[0] == tag[0] && buf[1] == length[0] && buf[2..1 + |length|] == length[1..]
  {
  }

  lemma ShortForm(buf: Bytes, n: nat)
    requires |buf| >= 2 && buf[0] == 0x30 && buf[1] == n < 0x80
    ensures DerTotalLength(buf) == Some(2 + n)
  {
  }

  lemma LongForm(buf: Bytes, n: nat, length: Bytes)
    requires 1 <= n <= 4 && |buf| >= 2 + n && buf[0] == 0x30 && buf[1] == 0x80 + n && buf[2..2 + n] == length
    ensures DerTotalLength(buf) == Some(2 + n + Big(length))
  {
    hide Big;
  }

  /** The computed length is the sequence's own, whatever stands behind it. */
  lemma LengthOfSequence(content: Bytes, octets: nat, padding: Bytes)
    requires octets <= 4 && (if octets == 0 then |content| < 0x80 else |content| < Power(octets))
    ensures DerTotalLength(Sequence(content, octets) + padding) == Some(|Sequence(content, octets)|)
  {
    hide Power, Big, DerTotalLength, LengthOctets, Octets;
    var buf := Sequence(content, octets) + padding;
    var head := LengthOctets(|content|, octets);
    HeadIsLength(|content|, octets);
    PartsOfSequence([0x30], head, content, padding);
    if octets == 0 { ShortForm(buf, |content|); } else { LongForm(buf, octets, head[1..]); }
  }

  lemma HeadIsLength(length: nat, octets: nat)
    requires octets <= 4 && (if octets == 0 then length < 0x80 else length < Power(octets))
    ensures var head := LengthOctets(length, octets);
            if octets == 0 then head == [length]
            else |head| == 1 + octets && head[0] == 0x80 + octets && Big(head[1..]) == length
  {
    hide Power, Big;
    if octets > 0 {
      OctetsRead(length, octets);
      assert LengthOctets(length, octets)[1..] == Octets(length, octets);
    }
  }

  lemma {:induction false} BigIsSmaller(octets: Bytes)
    ensures Big(octets) < Power(|octets|) && Octets(Big(octets), |octets|) == octets
  {
    if octets != [] {
      var n := |octets| - 1;
      BigIsSmaller(octets[..n]);
      assert Power(n + 1) == 256 * Power(n);
      assert Big(octets) / 256 == Big(octets[..n]) && Big(octets) % 256 == octets[n];
      assert octets == octets[..n] + [octets[n]];
    }
  }

  /** What begins with the header of a SEQUENCE in a definite form with at most four length
      octets, and how long that sequence is. */
  predicate Begins(buf: Bytes, length: nat, octets: nat) {
    && octets <= 4 && (if octets == 0 then length < 0x80 else length < Power(octets))
    && [0x30] + LengthOctets(length, octets) <= buf
  }

  /** A length is computed exactly for what begins with such a header; anything else is refused. */
  lemma LengthIff(buf: Bytes) returns (length: nat, octets: nat)
    ensures DerTotalLength(buf).Some? ==>
              Begins(buf, length, octets) && DerTotalLength(buf) == Some(1 + |LengthOctets(length, octets)| + length)
    ensures DerTotalLength(buf).None? ==> forall l: nat, k: nat :: !Begins(buf, l, k)
  {
    hide DerTotalLength, Begins, LengthOctets, Power;
    length, octets := 0, 0;
    if DerTotalLength(buf).Some? {
      length, octets := HeaderOf(buf);
    } else {
      forall l: nat, k: nat | Begins(buf, l, k) ensures false { HeaderGivesLength(buf, l, k); }
    }
  }

  lemma HeaderOf(buf: Bytes) returns (length: nat, octets: nat)
    requires DerTotalLength(buf).Some?
    ensures Begins(buf, length, octets) && DerTotalLength(buf) == Some(1 + |LengthOctets(length, octets)| + length)
  {
    if buf[1] < 0x80 {
      length, octets := buf[1], 0;
      assert [0x30] + LengthOctets(length, 0) == [0x30, buf[1]] == buf[..2];
    } else {
      length, octets := LongHeaderOf(buf);
    }
  }

  lemma LongHeaderOf(buf: Bytes) returns (length: nat, octets: nat)
    requires DerTotalLength(buf).Some? && buf[1] >= 0x80
    ensures Begins(buf, length, octets) && DerTotalLength(buf) == Some(1 + |LengthOctets(length, octets)| + length)
  {
    hide Big, Power, Octets;
    octets := buf[1] - 0x80;
    var tail := buf[2..2 + octets];
    length := Big(tail);
    BigIsSmaller(tail);
    assert |tail| == octets && LengthOctets(length, octets) == [buf[1]] + tail;
    hide LengthOctets;
    assert buf[..2 + octets] == [0x30] + ([buf[1]] + tail);
  }

  lemma HeaderGivesLength(buf: Bytes, length: nat, octets: nat)
    requires Begins(buf, length, octets)
    ensures DerTotalLength(buf).Some?
  {
    hide Power, LengthOctets, DerTotalLength;
    var head := [0x30] + LengthOctets(length, octets);
    var rest := buf[|head|..];
    assert buf == head + rest;
    HeaderIsRead(length, octets, rest);
  }

  lemma HeaderIsRead(length: nat, octets: nat, rest: Bytes)
    requires octets <= 4 && (if octets == 0 then length < 0x80 else length < Power(octets))
    ensures DerTotalLength([0x30] + LengthOctets(length, octets) + rest).Some?
  {
    hide Power, Big, LengthOctets, Octets, DerTotalLength;
    var head := LengthOctets(length, octets);
    HeadIsLength(length, octets);
    PartsOfSequence([0x30], head, rest, []);
    var buf := [0x30] + head + rest;
    assert buf + [] == buf;
    if octets == 0 { ShortForm(buf, length); } else { LongForm(buf, octets, head[1..]); }
  }

  // ---------------------------------------------------------------------------
  // Hexadecimal text
  // ---------------------------------------------------------------------------

  predicate IsHex(c: char) {
    '0' <= c <= '9' || 'a' <= c <= 'f' || 'A' <= c <= 'F'
  }

  function HexValue(c: char): (v: nat)
    requires IsHex(c)
    ensures v < 16
  {
    if '0' <= c <= '9' then c as int - '0' as int
    else if 'a' <= c <= 'f' then c as int - 'a' as int + 10
    else c as int - 'A' as int + 10
  }

  predicate AllHex(s: string) {
    forall i :: 0 <= i < |s| ==> IsHex(s[i])
  }

  /** `replace(/[^0-9a-fA-F]/g, "")`. */
  function HexDigits(s: string): (r: string)
    ensures AllHex(r)
  {
    if s == "" then "" else if IsHex(s[0]) then [s[0]] + HexDigits(s[1..]) else HexDigits(s[1..])
  }

  /** `Buffer.from(s, "hex")`: a digit without a partner is dropped. */
  function FromHex(s: string): Bytes
    requires AllHex(s)
  {
    if |s| < 2 then [] else [HexValue(s[0]) * 16 + HexValue(s[1])] + FromHex(s[2..])
  }

  const LOWER_DIGITS := "0123456789abcdef"
  const UPPER_DIGITS := "0123456789ABCDEF"

  predicate IsDigitFor(c: char, v: nat)
    requires v < 16
  {
    c == LOWER_DIGITS[v] || c == UPPER_DIGITS[v]
  }

  /** Text that spells bytes in hexadecimal, two digits a byte, each in either case. */
  predicate Spells(s: string, bytes: Bytes) {
    && |s| == 2 * |bytes|
    && forall i :: 0 <= i < |bytes| ==> IsDigitFor(s[2 * i], bytes[i] / 16) && IsDigitFor(s[2 * i + 1], bytes[i] % 16)
  }

  lemma DigitIsRead(c: char, v: nat)
    requires v < 16 && IsDigitFor(c, v)
    ensures IsHex(c) && HexValue(c) == v
  {
  }

  /** The hexadecimal digits of some text, in their order and with whatever between them. */
  predicate Holds(region: string, text: string) {
    if region == "" then text == ""
    else if region[0] in LOWER_DIGITS || region[0] in UPPER_DIGITS then
      text != "" && text[0] == region[0] && Holds(region[1..], text[1..])
    else Holds(region[1..], text)
  }

  lemma {:induction false} HeldAreDigits(region: string, text: string)
    requires Holds(region, text)
    ensures HexDigits(region) == text && AllHex(text)
  {
    if region != "" {
      HexIsDigit(region[0]);
      hide IsHex;
      if IsHex(region[0]) {
        HeldAreDigits(region[1..], text[1..]);
        assert text == [text[0]] + text[1..];
      } else {
        HeldAreDigits(region[1..], text);
      }
    }
  }

  lemma HexIsDigit(c: char)
    ensures IsHex(c) <==> c in LOWER_DIGITS || c in UPPER_DIGITS
  {
  }

  lemma FromHexPair(a: char, b: char, more: string)
    requires IsHex(a) && IsHex(b) && AllHex(more)
    ensures AllHex([a, b] + more) && FromHex([a, b] + more) == [HexValue(a) * 16 + HexValue(b)] + FromHex(more)
  {
    assert ([a, b] + more)[2..] == more;
    hide HexValue, IsHex;
  }

  lemma SpellingSplits(s: string, bytes: Bytes)
    requires Spells(s, bytes) && bytes != []
    ensures |s| >= 2 && IsDigitFor(s[0], bytes[0] / 16) && IsDigitFor(s[1], bytes[0] % 16) && Spells(s[2..], bytes[1..])
  {
    assert IsDigitFor(s[2 * 0], bytes[0] / 16) && IsDigitFor(s[2 * 0 + 1], bytes[0] % 16);
    forall i | 0 <= i < |bytes[1..]|
      ensures IsDigitFor(s[2..][2 * i], bytes[1..][i] / 16) && IsDigitFor(s[2..][2 * i + 1], bytes[1..][i] % 16)
    {
      var k := i + 1;
      assert IsDigitFor(s[2 * k], bytes[k] / 16) && IsDigitFor(s[2 * k + 1], bytes[k] % 16);
    }
  }

  /** Reading undoes spelling, whatever follows. */
  lemma {:induction false} SpellingThenMore(s: string, bytes: Bytes, more: string)
    requires Spells(s, bytes) && AllHex(more)
    ensures AllHex(s + more) && FromHex(s + more) == bytes + FromHex(more)
    decreases |s|
  {
    hide HexValue, IsHex, IsDigitFor;
    if bytes == [] {
      assert s + more == more;
    } else {
      SpellingSplits(s, bytes);
      DigitIsRead(s[0], bytes[0] / 16);
      DigitIsRead(s[1], bytes[0] % 16);
      hide Spells;
      SpellingThenMore(s[2..], bytes[1..], more);
      FromHexPair(s[0], s[1], s[2..] + more);
      assert s + more == [s[0], s[1]] + (s[2..] + more) && bytes == [bytes[0]] + bytes[1..];
      hide FromHex;
    }
  }

  // ---------------------------------------------------------------------------
  // The hole
  // ---------------------------------------------------------------------------

  datatype ByteRange = ByteRange(a: nat, b: nat, c: nat, d: nat)

  function NumberOf(digits: string): nat {
    if Decimal.AllDigits(digits) then Decimal.Value(digits) else 0
  }

  /** The first /ByteRange array of the file. */
  function FindByteRange(signed: string): Option<ByteRange> {
    var found := PdfText.Search(PdfText.ByteRangeArray, signed);
    if found.None? || |found.value| != 4 then None
    else
      var n := found.value;
      Some(ByteRange(NumberOf(n[0]), NumberOf(n[1]), NumberOf(n[2]), NumberOf(n[3])))
  }

  function RangeText(r: ByteRange): string {
    PdfText.ByteRangeText([Decimal.Print(r.a), Decimal.Print(r.b), Decimal.Print(r.c), Decimal.Print(r.d)])
  }

  /** An array that is written into a file is found there, unless another one comes first. */
  lemma WrittenRangeIsFound(signed: string, i: nat, range: ByteRange)
    requires i <= |signed| && PdfText.At(signed, i, RangeText(range))
    requires forall j :: 0 <= j < i ==> PdfText.MatchByteRange(signed, j).None?
    ensures FindByteRange(signed) == Some(range)
  {
    var digits := [Decimal.Print(range.a), Decimal.Print(range.b), Decimal.Print(range.c), Decimal.Print(range.d)];
    assert PdfText.AreNumerals(digits);
    Decimal.ReadsBack(range.a);
    Decimal.ReadsBack(range.b);
    Decimal.ReadsBack(range.c);
    Decimal.ReadsBack(range.d);
    hide Decimal.Print, Decimal.Value, PdfText.AreNumerals, PdfText.MatchByteRange, PdfText.ByteRangeText, PdfText.At;
    PdfText.ByteRangeMatches(signed, i, digits);
    forall j | 0 <= j < i ensures PdfText.MatchAt(PdfText.ByteRangeArray, signed, j).None? {
      assert PdfText.MatchByteRange(signed, j).None?;
    }
    PdfText.FirstMatchIs(PdfText.ByteRangeArray, signed, 0, i);
  }

  /** The program's test that ranges and hole make up the file. */
  predicate Tiles(range: ByteRange, size: nat) {
    (range.b + range.d) + (range.c - (range.a + range.b)) == size
  }

  /** Where an offset of `slice` and `subarray` points to: a negative one counts from the
      end, and all are cut off at both ends. */
  function Offset(k: int, size: nat): (r: nat)
    ensures r <= size
  {
    if k > size then size else if k >= 0 then k else if size + k < 0 then 0 else size + k
  }

  function Slice(s: string, from: int, to: int): string {
    var lo, hi := Offset(from, |s|), Offset(to, |s|);
    if lo <= hi then s[lo..hi] else ""
  }

  /** The signature's bytes, or None for the three structural failures. */
  method ReadContents(signed: string) returns (der: Option<Bytes>)
    ensures der == ContentsOf(signed)
  {
    hide FindByteRange, FromHex, HexDigits, DerTotalLength, Slice;
    var found := FindByteRange(signed);
    if found.None? { return None; }
    var range := found.value;
    var covered := range.b + range.d;
    var hole := range.c - (range.a + range.b);
    if covered + hole != |signed| { return None; }
    var region := Slice(signed, range.a + range.b + 1, range.c - 1);
    var bytes := FromHex(HexDigits(region));
    var length := ComputeDerTotalLength(bytes);
    if length.None? || length.value > |bytes| { return None; }
    return Some(bytes[..length.value]);
  }

  function ContentsOf(signed: string): Option<Bytes> {
    var found := FindByteRange(signed);
    if found.None? then None else ContentsAt(signed, found.value)
  }

  function ContentsAt(signed: string, range: ByteRange): Option<Bytes> {
    if !Tiles(range, |signed|) then None else SequenceIn(Slice(signed, range.a + range.b + 1, range.c - 1))
  }

  function SequenceIn(region: string): Option<Bytes> {
    var bytes := FromHex(HexDigits(region));
    var length := DerTotalLength(bytes);
    if length.None? || length.value > |bytes| then None else Some(bytes[..length.value])
  }

  /** Whatever padding follows it in the hole, and whatever its own last bytes are, a
      sequence is recovered exactly. */
  lemma HoleGivesSequence(region: string, content: Bytes, octets: nat, hex: string, padding: string)
    requires octets <= 4 && (if octets == 0 then |content| < 0x80 else |content| < Power(octets))
    requires Spells(hex, Sequence(content, octets)) && Holds(region, hex + padding)
    ensures SequenceIn(region) == Some(Sequence(content, octets))
  {
    var der := Sequence(content, octets);
    HeldAreDigits(region, hex + padding);
    assert forall i :: 0 <= i < |padding| ==> (hex + padding)[|hex| + i] == padding[i];
    hide Holds, Spells, IsHex, HexDigits;
    SpellingThenMore(hex, der, padding);
    LengthOfSequence(content, octets, FromHex(padding));
    assert (der + FromHex(padding))[..|der|] == der;
    hide Sequence, FromHex, DerTotalLength;
  }

  /** The range of a file that consists of text, a hole in angle brackets, and text. */
  function RangeOf(before: string, region: string, after: string): ByteRange {
    ByteRange(0, |before|, |before| + |region| + 2, |after|)
  }

  /** A signed file: text, the hole in angle brackets, text, with its own range as the
      first /ByteRange array in it. The hole's sequence is read back. */
  lemma SignedFileGivesSequence(
    before: string, region: string, after: string, content: Bytes, octets: nat, hex: string, padding: string, i: nat)
    requires octets <= 4 && (if octets == 0 then |content| < 0x80 else |content| < Power(octets))
    requires Spells(hex, Sequence(content, octets)) && Holds(region, hex + padding)
    requires var signed := before + ("<" + region + ">") + after;
             && i <= |signed| && PdfText.At(signed, i, RangeText(RangeOf(before, region, after)))
             && forall j :: 0 <= j < i ==> PdfText.MatchByteRange(signed, j).None?
    ensures ContentsOf(before + ("<" + region + ">") + after) == Some(Sequence(content, octets))
  {
    HoleGivesSequence(region, content, octets, hex, padding);
    HoleIsRead(before, region, after);
    hide Sequence, HexDigits, SequenceIn, ContentsAt, Spells, Power, FindByteRange, RangeText, PdfText.At, PdfText.MatchByteRange;
    WrittenRangeIsFound(before + ("<" + region + ">") + after, i, RangeOf(before, region, after));
  }

  lemma HoleIsRead(before: string, region: string, after: string)
    ensures ContentsAt(before + ("<" + region + ">") + after, RangeOf(before, region, after)) == SequenceIn(region)
  {
    SliceMiddle(before, region, after);
    hide SequenceIn, Slice;
  }

  lemma SliceMiddle(before: string, region: string, after: string)
    ensures Slice(before + ("<" + region + ">") + after, |before| + 1, |before| + |region| + 1) == region
  {
    var s := before + ("<" + region + ">") + after;
    assert s == (before + "<") + region + (">" + after);
  }

  // ---------------------------------------------------------------------------
  // What the ranges cover
  // ---------------------------------------------------------------------------

  /** The text that the signature is computed over. */
  function Covered(signed: string, range: ByteRange): string {
    Slice(signed, range.a, range.a + range.b) + Slice(signed, range.c, range.c + range.d)
  }

  /** Both ranges and the hole between them. */
  function RangesAndHole(signed: string, range: ByteRange): string {
    Slice(signed, range.a, range.a + range.b) + Slice(signed, range.a + range.b, range.c) + Slice(signed, range.c, range.c + range.d)
  }

  lemma FewBytesHaveNoLength(region: string)
    requires |region| < 4
    ensures SequenceIn(region).None?
  {
    HexDigitsAreFewer(region);
    var digits := HexDigits(region);
    if |digits| >= 2 { assert FromHex(digits[2..]) == []; }
    hide HexDigits;
  }

  lemma {:induction false} HexDigitsAreFewer(s: string)
    ensures |HexDigits(s)| <= |s|
  {
    if s != "" { HexDigitsAreFewer(s[1..]); }
  }

  /** Of a file that passes, the second range starts behind the first one, or it starts at
      0 and is the whole file: for c = 0 the program takes -1 for the end of the hole, which
      is the last byte of the file. */
  lemma RangesAreOrdered(signed: string, range: ByteRange)
    requires ContentsAt(signed, range).Some?
    ensures range.a + range.b < |signed|
    ensures range.c == 0 || range.a + range.b < range.c
    ensures range.c + range.d == |signed| + range.a
  {
    var hole := Slice(signed, range.a + range.b + 1, range.c - 1);
    if |hole| < 4 { FewBytesHaveNoLength(hole); }
    hide SequenceIn;
  }

  /** The size test says nothing about where the first range starts. If the second range
      does not start at 0, ranges and hole are the file from the first range on, so they
      are the whole file exactly when the first range starts at 0. If it does, it is the
      whole file by itself, and the first range must be empty. */
  lemma RangesAreWholeFileIff(signed: string, range: ByteRange)
    requires ContentsAt(signed, range).Some?
    ensures RangesAndHole(signed, range)
            == if range.c > 0 then Slice(signed, range.a, |signed|) else Slice(signed, range.a, range.a + range.b) + signed
    ensures RangesAndHole(signed, range) == signed <==> if range.c > 0 then range.a == 0 else range.b == 0
  {
    hide Slice, ContentsAt;
    RangesAreOrdered(signed, range);
    if range.c > 0 {
      ThreeSlices(signed, range.a, range.a + range.b, range.c, range.c + range.d);
    } else {
      SecondIsWholeFile(signed, range.a, range.a + range.b, range.d);
    }
  }

  lemma ThreeSlices(s: string, from: nat, lo: nat, hi: nat, to: nat)
    requires from <= lo <= hi <= to && |s| <= to && s != ""
    ensures Slice(s, from, lo) + Slice(s, lo, hi) + Slice(s, hi, to) == Slice(s, from, |s|)
    ensures Slice(s, from, |s|) == s <==> from == 0
  {
    hide Slice;
    SlicesJoin(s, from, lo, hi);
    SlicesJoin(s, from, hi, to);
    CutOff(s, from, |s|, to);
    StartsLater(s, from);
  }

  lemma SecondIsWholeFile(s: string, from: nat, lo: nat, to: nat)
    requires from <= lo < |s| <= to
    ensures Slice(s, from, lo) + Slice(s, lo, 0) + Slice(s, 0, to) == Slice(s, from, lo) + s
    ensures Slice(s, from, lo) + s == s <==> from == lo
  {
    assert |Slice(s, from, lo)| == lo - from && Slice(s, lo, 0) == "" && Slice(s, 0, to) == s;
  }

  lemma SlicesJoin(s: string, from: nat, mid: nat, to: nat)
    requires from <= mid <= to
    ensures Slice(s, from, mid) + Slice(s, mid, to) == Slice(s, from, to)
  {
  }

  lemma StartsLater(s: string, from: nat)
    requires s != ""
    ensures Slice(s, from, |s|) == s <==> from == 0
  {
    if from > 0 { assert |Slice(s, from, |s|)| < |s|; }
  }

  /** What a file in which the digits of the shortest sequence stand gives. */
  lemma ShortestSequence(region: string, more: string)
    requires HexDigits(region) == "3000" + more && AllHex(more)
    ensures SequenceIn(region) == Some([0x30, 0])
  {
    var hex := "3000";
    assert hex[2..] == "00" && FromHex("") == [] && FromHex("00") == [0] && FromHex(hex) == [0x30, 0];
    SpellingThenMore(hex, [0x30, 0], more);
    assert FromHex(hex + more)[..2] == [0x30, 0];
  }

  /** A file whose first two bytes no range covers passes. */
  lemma PassesUncovered() returns (signed: string, range: ByteRange)
    ensures ContentsAt(signed, range) == Some([0x30, 0]) && range.a == 2
    ensures RangesAndHole(signed, range) == signed[2..] && |signed| > 2
  {
    signed, range := "XXabcd<3000>ef", ByteRange(2, 4, 12, 4);
    var region := "3000";
    assert Slice(signed, 7, 11) == region;
    HexDigitsOf(region);
    ShortestSequence(region, "");
    hide SequenceIn, HexDigits;
    RangesAreWholeFileIff(signed, range);
    assert Slice(signed, 2, |signed|) == signed[2..];
  }

  lemma {:induction false} HexDigitsOf(s: string)
    requires AllHex(s)
    ensures HexDigits(s) == s
  {
    if s != "" { HexDigitsOf(s[1..]); }
  }

  /** A file passes that has no hole at all: the signature is read from bytes that the
      second range covers. */
  lemma PassesWithoutHole() returns (signed: string, range: ByteRange)
    ensures FindByteRange(signed) == Some(range) && ContentsOf(signed) == Some([0x30, 0])
    ensures range.a == 0 && range.c == 0 && RangesAndHole(signed, range) != signed
  {
    hide RangeText, FindByteRange, Slice, SequenceIn, HexDigits, PdfText.MatchByteRange;
    range := ByteRange(0, 4, 0, 31);
    var head, text := "%PDF-3000 ", RangeText(range);
    signed := head + text;
    TextLength(range);
    StartsWithSlash(range);
    NoRangeBefore(signed, head);
    RegionOfHeader(head, text);
    WrittenRangeIsFound(signed, 10, range);
    var tail := signed[9..30];
    HexDigitsJoin("3000", tail);
    HexDigitsOf("3000");
    ShortestSequence("3000" + tail, HexDigits(tail));
    RangesAreWholeFileIff(signed, range);
  }

  lemma RegionOfHeader(head: string, text: string)
    requires head == "%PDF-3000 " && |text| == 21
    ensures var signed := head + text;
            |signed| == 31 && PdfText.At(signed, 10, text) && Slice(signed, 5, -1) == "3000" + signed[9..30]
  {
    var signed := head + text;
    assert signed[10..31] == text;
    assert signed[5..9] == head[5..9] == "3000" && signed[5..30] == signed[5..9] + signed[9..30];
  }

  lemma StartsWithSlash(range: ByteRange)
    ensures RangeText(range)[..1] == "/"
  {
  }

  lemma NoRangeBefore(signed: string, head: string)
    requires head <= signed && '/' !in head
    ensures forall j :: 0 <= j < |head| ==> PdfText.MatchByteRange(signed, j).None?
  {
    forall j | 0 <= j < |head| ensures PdfText.MatchByteRange(signed, j).None? {
      assert signed[j] == head[j] && PdfText.BYTE_RANGE[0] == '/';
    }
  }

  lemma TextLength(range: ByteRange)
    requires range == ByteRange(0, 4, 0, 31)
    ensures |RangeText(range)| == 21
  {
    assert |Decimal.Print(31)| == 2 && |Decimal.Print(0)| == |Decimal.Print(4)| == 1;
    hide Decimal.Print;
    LengthOfNumerals([Decimal.Print(range.a), Decimal.Print(range.b), Decimal.Print(range.c), Decimal.Print(range.d)]);
  }

  lemma LengthOfNumerals(digits: seq<string>)
    requires |digits| == 4
    ensures |PdfText.NumeralsText(digits)| == |digits[0]| + |digits[1]| + |digits[2]| + |digits[3]| + 4
  {
    var two, three := digits[2..], digits[1..];
    assert three[1..] == two && two[1..] == [digits[3]];
    assert |PdfText.NumeralsText(two)| == |digits[2]| + |digits[3]| + 2;
    assert |PdfText.NumeralsText(three)| == |digits[1]| + 1 + |PdfText.NumeralsText(two)|;
  }

  lemma {:induction false} HexDigitsJoin(s: string, t: string)
    ensures HexDigits(s + t) == HexDigits(s) + HexDigits(t)
  {
    if s == "" {
      assert s + t == t;
    } else {
      assert (s + t)[1..] == s[1..] + t;
      HexDigitsJoin(s[1..], t);
    }
  }

  function Shifted(range: ByteRange, k: nat): ByteRange {
    ByteRange(range.a + k, range.b, range.c + k, range.d + k)
  }

  /** Whatever text is put in front of a file with a hole: with the ranges shifted by its
      length, the size test passes again, and the same signature, if any, is read over the
      same covered text. */
  lemma TextInFrontIsNotCovered(front: string, signed: string, range: ByteRange)
    requires Tiles(range, |signed|) && range.c > 0
    ensures Tiles(Shifted(range, |front|), |front + signed|)
    ensures ContentsAt(front + signed, Shifted(range, |front|)) == ContentsAt(signed, range)
    ensures Covered(front + signed, Shifted(range, |front|)) == Covered(signed, range)
  {
    var k := |front|;
    hide SequenceIn, Slice;
    SliceShifts(front, signed, range.a + range.b + 1, range.c - 1);
    var end := range.c + range.d;
    SliceShifts(front, signed, range.a, range.a + range.b);
    SliceShifts(front, signed, range.c, end);
    CutOff(front + signed, range.c + k, end + k, end + k + k);
  }

  /** Without a hole, the ranges cover the whole file, and nothing can be put in front: with
      the ranges shifted there is no signature. */
  lemma TextInFrontIsRefused(front: string, signed: string, range: ByteRange)
    requires Tiles(range, |signed|) && range.c == 0 && front != ""
    ensures Covered(signed, range) == Slice(signed, range.a, range.a + range.b) + signed
    ensures ContentsAt(front + signed, Shifted(range, |front|)).None?
  {
    var from, to := range.a + |front| + range.b + 1, |front| - 1;
    assert Slice(front + signed, from, to) == "";
    FewBytesHaveNoLength("");
    hide SequenceIn;
  }

  /** The end of a slice beyond the text makes no difference. */
  lemma CutOff(s: string, from: nat, to: nat, to': nat)
    requires |s| <= to <= to'
    ensures Slice(s, from, to) == Slice(s, from, to')
  {
  }

  lemma SliceShifts(front: string, s: string, from: nat, to: nat)
    ensures Slice(front + s, from + |front|, to + |front|) == Slice(s, from, to)
  {
  }

  function TrimZeros(bytes: Bytes): Bytes {
    if bytes != [] && bytes[|bytes| - 1] == 0 then TrimZeros(bytes[..|bytes| - 1]) else bytes
  }

  /** Cutting trailing zero bytes instead would recover the sequence exactly when its own
      last byte is not zero. */
  lemma {:induction false} TrimmingRecoversIff(der: Bytes, zeros: nat)
    requires der != []
    ensures TrimZeros(der + Padding(zeros)) == der <==> der[|der| - 1] != 0
    decreases zeros
  {
    var all := der + Padding(zeros);
    if zeros > 0 {
      assert all[..|all| - 1] == der + Padding(zeros - 1);
      TrimmingRecoversIff(der, zeros - 1);
    } else {
      assert all == der;
      TrimShortens(der);
    }
  }

  function Padding(zeros: nat): Bytes {
    seq(zeros, _ => 0)
  }

  lemma {:induction false} TrimShortens(bytes: Bytes)
    ensures |TrimZeros(bytes)| <= |bytes|
    ensures bytes != [] && bytes[|bytes| - 1] == 0 ==> |TrimZeros(bytes)| < |bytes|
    decreases |bytes|
  {
    if bytes != [] && bytes[|bytes| - 1] == 0 { TrimShortens(bytes[..|bytes| - 1]); }
  }
}
