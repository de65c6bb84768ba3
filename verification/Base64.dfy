/** Base64 as `Buffer` writes and reads it (RFC 4648, section 4). */
module Base64 {

  type Byte = b: int | 0 <= b < 256

  type Sextet = x: int | 0 <= x < 64

  predicate InAlphabet(c: char) {
    'A' <= c <= 'Z' || 'a' <= c <= 'z' || '0' <= c <= '9' || c == '+' || c == '/'
  }

  /** The class of the extraction pattern: the alphabet and the padding sign. */
  predicate InText(c: char) {
    InAlphabet(c) || c == '='
  }

  function CharOf(x: Sextet): (c: char)
    ensures InAlphabet(c) && SextetOf(c) == x
  {
    if x < 26 then 'A' + x as char
    else if x < 52 then 'a' + (x - 26) as char
    else if x < 62 then '0' + (x - 52) as char
    else if x == 62 then '+' else '/'
  }

  /** `Buffer` also reads the two characters of the alphabet for URLs. */
  predicate IsRead(c: char) {
    InAlphabet(c) || c == '-' || c == '_'
  }

  function SextetOf(c: char): Sextet
    requires IsRead(c)
  {
    if 'A' <= c <= 'Z' then c as int - 'A' as int
    else if 'a' <= c <= 'z' then c as int - 'a' as int + 26
    else if '0' <= c <= '9' then c as int - '0' as int + 52
    else if c == '+' || c == '-' then 62 else 63
  }

  // The four sextets of three bytes, and back.

  function Sextet0(x: Byte): Sextet { x / 4 }

  function Sextet1(x: Byte, y: Byte): Sextet { x % 4 * 16 + y / 16 }

  function Sextet2(y: Byte, z: Byte): Sextet { y % 16 * 4 + z / 64 }

  function Sextet3(z: Byte): Sextet { z % 64 }

  function Byte0(a: Sextet, b: Sextet): Byte {
    var v: int := a;
    v * 4 + b / 16
  }

  function Byte1(b: Sextet, c: Sextet): Byte {
    var v: int := b;
    v % 16 * 16 + c / 4
  }

  function Byte2(c: Sextet, d: Sextet): Byte {
    var v: int := c;
    v % 4 * 64 + d
  }

  lemma GroupRoundTrip(x: Byte, y: Byte, z: Byte)
    ensures Byte0(Sextet0(x), Sextet1(x, y)) == x
    ensures Byte1(Sextet1(x, y), Sextet2(y, z)) == y
    ensures Byte2(Sextet2(y, z), Sextet3(z)) == z
  {
  }

  /** Three bytes give four characters; one or two left over are padded. */
  function Encode(bs: seq<Byte>): (s: string)
    ensures forall i :: 0 <= i < |s| ==> InText(s[i])
    ensures bs != [] ==> s != []
  {
    if bs == [] then ""
    else if |bs| == 1 then [CharOf(Sextet0(bs[0])), CharOf(Sextet1(bs[0], 0)), '=', '=']
    else if |bs| == 2 then
      [CharOf(Sextet0(bs[0])), CharOf(Sextet1(bs[0], bs[1])), CharOf(Sextet2(bs[1], 0)), '=']
    else
      [CharOf(Sextet0(bs[0])), CharOf(Sextet1(bs[0], bs[1])),
       CharOf(Sextet2(bs[1], bs[2])), CharOf(Sextet3(bs[2]))] + Encode(bs[3..])
  }

  /** Characters outside the alphabet, the padding among them, are skipped. */
  function Sextets(s: string): seq<Sextet> {
    if s == "" then []
    else if IsRead(s[0]) then [SextetOf(s[0])] + Sextets(s[1..])
    else Sextets(s[1..])
  }

  /** Four sextets are three bytes; a shorter rest gives its whole bytes. */
  function Bytes(xs: seq<Sextet>): seq<Byte> {
    if |xs| < 2 then []
    else if |xs| == 2 then [Byte0(xs[0], xs[1])]
    else if |xs| == 3 then [Byte0(xs[0], xs[1]), Byte1(xs[1], xs[2])]
    else [Byte0(xs[0], xs[1]), Byte1(xs[1], xs[2]), Byte2(xs[2], xs[3])] + Bytes(xs[4..])
  }

  function Decode(s: string): seq<Byte> {
    Bytes(Sextets(s))
  }

  lemma FirstSextet(c: char, rest: string)
    ensures Sextets([c] + rest) == (if IsRead(c) then [SextetOf(c)] else []) + Sextets(rest)
  {
  }

  lemma FourSextets(a: Sextet, b: Sextet, c: Sextet, d: Sextet, rest: string)
    ensures Sextets([CharOf(a), CharOf(b), CharOf(c), CharOf(d)] + rest) == [a, b, c, d] + Sextets(rest)
  {
    var s := [CharOf(a), CharOf(b), CharOf(c), CharOf(d)] + rest;
    assert s[1..] == [CharOf(b), CharOf(c), CharOf(d)] + rest;
    assert s[1..][1..] == [CharOf(c), CharOf(d)] + rest;
    assert s[1..][1..][1..] == [CharOf(d)] + rest;
    FirstSextet(CharOf(d), rest);
    FirstSextet(CharOf(c), [CharOf(d)] + rest);
    assert [CharOf(c)] + ([CharOf(d)] + rest) == [CharOf(c), CharOf(d)] + rest;
    FirstSextet(CharOf(b), [CharOf(c), CharOf(d)] + rest);
    assert [CharOf(b)] + ([CharOf(c), CharOf(d)] + rest) == [CharOf(b), CharOf(c), CharOf(d)] + rest;
    FirstSextet(CharOf(a), [CharOf(b), CharOf(c), CharOf(d)] + rest);
    assert [CharOf(a)] + ([CharOf(b), CharOf(c), CharOf(d)] + rest) == s;
  }

  /** The last group, with its padding. */
  lemma PaddedSextets(a: Sextet, b: Sextet, c: Sextet)
    ensures Sextets([CharOf(a), CharOf(b), '=', '=']) == [a, b]
    ensures Sextets([CharOf(a), CharOf(b), CharOf(c), '=']) == [a, b, c]
  {
    OnePadding();
    assert !IsRead('=') && Sextets("") == [];
    assert forall x: Sextet :: IsRead(CharOf(x));
    hide Sextets, InAlphabet, IsRead, CharOf, SextetOf;
    FirstSextet(CharOf(b), ['=', '=']);
    FirstSextet(CharOf(a), [CharOf(b)] + ['=', '=']);
    assert [CharOf(a), CharOf(b), '=', '='] == [CharOf(a)] + ([CharOf(b)] + ['=', '=']);
    FirstSextet(CharOf(c), ['=']);
    FirstSextet(CharOf(b), [CharOf(c)] + ['=']);
    FirstSextet(CharOf(a), [CharOf(b)] + ([CharOf(c)] + ['=']));
    assert [CharOf(a), CharOf(b), CharOf(c), '='] == [CharOf(a)] + ([CharOf(b)] + ([CharOf(c)] + ['=']));
  }

  lemma OnePadding()
    ensures Sextets(['=']) == [] && Sextets(['=', '=']) == []
  {
    FirstSextet('=', "");
    FirstSextet('=', ['=']);
    assert ['='] + "" == ['='] && ['='] + ['='] == ['=', '='];
  }

  lemma BytesOfGroup(a: Sextet, b: Sextet, c: Sextet, d: Sextet, rest: seq<Sextet>)
    ensures Bytes([a, b, c, d] + rest) == [Byte0(a, b), Byte1(b, c), Byte2(c, d)] + Bytes(rest)
  {
    assert ([a, b, c, d] + rest)[4..] == rest;
    hide Byte0, Byte1, Byte2;
  }

  /** Decoding undoes encoding, for every length. */
  lemma {:induction false} RoundTrip(bs: seq<Byte>)
    ensures Decode(Encode(bs)) == bs
  {
    hide Sextet0, Sextet1, Sextet2, Sextet3, Byte0, Byte1, Byte2, InAlphabet, IsRead, CharOf, SextetOf;
    if |bs| == 1 {
      PaddedSextets(Sextet0(bs[0]), Sextet1(bs[0], 0), 0);
      GroupRoundTrip(bs[0], 0, 0);
    } else if |bs| == 2 {
      PaddedSextets(Sextet0(bs[0]), Sextet1(bs[0], bs[1]), Sextet2(bs[1], 0));
      GroupRoundTrip(bs[0], bs[1], 0);
    } else if |bs| >= 3 {
      RoundTrip(bs[3..]);
      var a, b, c, d := Sextet0(bs[0]), Sextet1(bs[0], bs[1]), Sextet2(bs[1], bs[2]), Sextet3(bs[2]);
      FourSextets(a, b, c, d, Encode(bs[3..]));
      GroupRoundTrip(bs[0], bs[1], bs[2]);
      BytesOfGroup(a, b, c, d, Sextets(Encode(bs[3..])));
      hide Sextets, Bytes;
      assert bs == [bs[0], bs[1], bs[2]] + bs[3..];
    }
  }

  /** The alphabet: upper-case letters, lower-case letters, digits, `+` and `/`. */
  lemma AlphabetIs(x: Sextet)
    ensures CharOf(0) == 'A' && CharOf(26) == 'a' && CharOf(52) == '0' && CharOf(62) == '+' && CharOf(63) == '/'
    ensures x < 25 || 26 <= x < 51 || 52 <= x < 61 ==> CharOf(x + 1) as int == CharOf(x) as int + 1
  {
  }

  lemma SextetsAreBits(x: Byte, y: Byte, z: Byte)
    ensures 262144 * Sextet0(x) + 4096 * Sextet1(x, y) + 64 * Sextet2(y, z) + Sextet3(z) == 65536 * x + 256 * y + z
  {
  }

  /** The bits of three bytes, six at a time from the top; missing bytes count as zero, and
      each is marked by a padding sign. */
  lemma GroupsAreBits(x: Byte, y: Byte, z: Byte, rest: seq<Byte>) returns (a: Sextet, b: Sextet, c: Sextet, d: Sextet)
    ensures 262144 * a + 4096 * b + 64 * c + d == 65536 * x + 256 * y + z
    ensures Encode([x, y, z] + rest) == [CharOf(a), CharOf(b), CharOf(c), CharOf(d)] + Encode(rest)
    ensures z == 0 ==> Encode([x, y]) == [CharOf(a), CharOf(b), CharOf(c), '=']
    ensures y == z == 0 ==> Encode([x]) == [CharOf(a), CharOf(b), '=', '=']
  {
    hide CharOf, Sextet0, Sextet1, Sextet2, Sextet3;
    a, b, c, d := Sextet0(x), Sextet1(x, y), Sextet2(y, z), Sextet3(z);
    SextetsAreBits(x, y, z);
    var bs := [x, y, z] + rest;
    assert bs[3..] == rest;
  }
}
