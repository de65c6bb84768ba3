/** Canonical JSON (packages/esig-core/src/pq-seal.ts:497-514), `JSON.stringify` and a reader
    for what they print. Texts are sequences of UTF-16 code units. */
module Json {
  import opened Domain
  import Decimal

  type Unit = u: int | 0 <= u < 0x1_0000

  type Text = seq<Unit>

  /** A value as the program holds it: the members of an object stand in some order. */
  datatype Json =
    | Null
    | Bool(b: bool)
    | Num(n: int)
    | Str(s: Text)
    | Arr(items: seq<Json>)
    | Obj(members: seq<Member>)

  datatype Member = Member(key: Text, value: Json)

  /** What a value means: an object is a map. */
  datatype Tree =
    | TNull
    | TBool(b: bool)
    | TNum(n: int)
    | TStr(s: Text)
    | TArr(items: seq<Tree>)
    | TObj(members: map<Text, Tree>)

  /** A map with a list of members added; of two equal keys the later counts. */
  function Extend<V>(m: map<Text, V>, entries: seq<(Text, V)>): map<Text, V>
    decreases |entries|
  {
    if entries == [] then m else Extend(m[entries[0].0 := entries[0].1], entries[1..])
  }

  function Meaning(j: Json): Tree {
    match j
    case Null => TNull
    case Bool(b) => TBool(b)
    case Num(n) => TNum(n)
    case Str(s) => TStr(s)
    case Arr(items) => TArr(Meanings(items))
    case Obj(members) => TObj(Extend(map[], MemberMeanings(members)))
  }

  function Meanings(items: seq<Json>): (r: seq<Tree>)
    ensures |r| == |items|
  {
    if items == [] then [] else [Meaning(items[0])] + Meanings(items[1..])
  }

  function MemberMeanings(members: seq<Member>): (r: seq<(Text, Tree)>)
    ensures |r| == |members| && forall i :: 0 <= i < |r| ==> r[i].0 == members[i].key
  {
    if members == [] then [] else [(members[0].key, Meaning(members[0].value))] + MemberMeanings(members[1..])
  }

  predicate DistinctMembers(members: seq<Member>) {
    forall i, j :: 0 <= i < j < |members| ==> members[i].key != members[j].key
  }

  predicate DistinctKeys<V>(entries: seq<(Text, V)>) {
    forall i, j :: 0 <= i < j < |entries| ==> entries[i].0 != entries[j].0
  }

  /** Safe integers, and no key twice: the values that the program prints. */
  predicate WellFormed(j: Json) {
    match j
    case Num(n) => IsSafeInteger(n)
    case Arr(items) => forall i :: 0 <= i < |items| ==> WellFormed(items[i])
    case Obj(members) => DistinctMembers(members) && forall i :: 0 <= i < |members| ==> WellFormed(members[i].value)
    case _ => true
  }

  // ---------------------------------------------------------------------------
  // Printing
  // ---------------------------------------------------------------------------

  function HexUnit(d: nat): Unit
    requires d < 16
  {
    if d < 10 then 48 + d else 87 + d
  }

  function Hex4(u: Unit): Text {
    [HexUnit(u / 0x1000), HexUnit(u / 0x100 % 16), HexUnit(u / 16 % 16), HexUnit(u % 16)]
  }

  predicate IsHigh(u: Unit) { 0xD800 <= u < 0xDC00 }

  predicate IsLow(u: Unit) { 0xDC00 <= u < 0xE000 }

  const QUOTE: Unit := 34
  const BACKSLASH: Unit := 92
  const COMMA: Unit := 44
  const COLON: Unit := 58
  const OPEN_ARRAY: Unit := 91
  const CLOSE_ARRAY: Unit := 93
  const OPEN_OBJECT: Unit := 123
  const CLOSE_OBJECT: Unit := 125
  const MINUS: Unit := 45

  /** The letter of a two-character escape, if the unit has one. */
  function Letter(u: Unit): Option<Unit> {
    match u
    case 34 => Some(34)
    case 92 => Some(92)
    case 8 => Some(98)
    case 9 => Some(116)
    case 10 => Some(110)
    case 12 => Some(102)
    case 13 => Some(114)
    case _ => None
  }

  /** A unit that is not part of a surrogate pair. */
  function Escape(u: Unit): Text {
    if Letter(u).Some? then [BACKSLASH, Letter(u).value]
    else if u < 32 || IsHigh(u) || IsLow(u) then [BACKSLASH, 117] + Hex4(u)
    else [u]
  }

  predicate StartsWithPair(s: Text) {
    |s| >= 2 && IsHigh(s[0]) && IsLow(s[1])
  }

  function QuoteBody(s: Text): Text {
    if s == [] then []
    else if StartsWithPair(s) then [s[0], s[1]] + QuoteBody(s[2..])
    else Escape(s[0]) + QuoteBody(s[1..])
  }

  function Quote(s: Text): Text {
    [QUOTE] + QuoteBody(s) + [QUOTE]
  }

  /** ASCII text as code units. */
  function Ascii(s: string): (t: Text)
    requires forall i :: 0 <= i < |s| ==> s[i] as int < 128
    ensures |t| == |s| && forall i :: 0 <= i < |s| ==> t[i] == s[i] as int
  {
    seq(|s|, i requires 0 <= i < |s| => s[i] as int)
  }

  function PrintInt(n: int): Text {
    if n < 0 then [MINUS] + Ascii(Decimal.Print(-n)) else Ascii(Decimal.Print(n))
  }

  /** `join(",")`. */
  function Join(texts: seq<Text>): Text {
    if texts == [] then []
    else if |texts| == 1 then texts[0]
    else texts[0] + [COMMA] + Join(texts[1..])
  }

  /** Keys, quoted, before their printed values. */
  function MemberTexts(entries: seq<(Text, Text)>): (r: seq<Text>)
    ensures |r| == |entries| && forall i :: 0 <= i < |r| ==> r[i] == Quote(entries[i].0) + [COLON] + entries[i].1
  {
    seq(|entries|, i requires 0 <= i < |entries| => Quote(entries[i].0) + [COLON] + entries[i].1)
  }

  /** The order of `sort()`: by code units, a proper prefix first. */
  predicate KeyLess(a: Text, b: Text) {
    if b == [] then false
    else if a == [] then true
    else if a[0] != b[0] then a[0] < b[0]
    else KeyLess(a[1..], b[1..])
  }

  function InsertByKey<V>(e: (Text, V), sorted: seq<(Text, V)>): seq<(Text, V)> {
    if sorted == [] || KeyLess(e.0, sorted[0].0) then [e] + sorted
    else [sorted[0]] + InsertByKey(e, sorted[1..])
  }

  function SortByKey<V>(entries: seq<(Text, V)>): seq<(Text, V)> {
    if entries == [] then [] else InsertByKey(entries[0], SortByKey(entries[1..]))
  }

  /** `JSON.stringify`: members in the order in which they stand. */
  function Stringify(j: Json): Text {
    match j
    case Null => [110, 117, 108, 108]
    case Bool(b) => if b then [116, 114, 117, 101] else [102, 97, 108, 115, 101]
    case Num(n) => PrintInt(n)
    case Str(s) => Quote(s)
    case Arr(items) => [OPEN_ARRAY] + Join(Strings(items)) + [CLOSE_ARRAY]
    case Obj(members) => [OPEN_OBJECT] + Join(MemberTexts(MemberStrings(members))) + [CLOSE_OBJECT]
  }

  function Strings(items: seq<Json>): (r: seq<Text>)
    ensures |r| == |items|
  {
    if items == [] then [] else [Stringify(items[0])] + Strings(items[1..])
  }

  function MemberStrings(members: seq<Member>): (r: seq<(Text, Text)>)
    ensures |r| == |members|
  {
    if members == [] then [] else [(members[0].key, Stringify(members[0].value))] + MemberStrings(members[1..])
  }

  /** `canonicalJson`: members sorted by key, at every level. */
  function Canonical(j: Json): Text {
    match j
    case Arr(items) => [OPEN_ARRAY] + Join(Canonicals(items)) + [CLOSE_ARRAY]
    case Obj(members) =>
      [OPEN_OBJECT] + Join(MemberTexts(SortByKey(MemberCanonicals(members)))) + [CLOSE_OBJECT]
    case _ => Stringify(j)
  }

  function Canonicals(items: seq<Json>): (r: seq<Text>)
    ensures |r| == |items|
  {
    if items == [] then [] else [Canonical(items[0])] + Canonicals(items[1..])
  }

  function MemberCanonicals(members: seq<Member>): (r: seq<(Text, Text)>)
    ensures |r| == |members|
  {
    if members == [] then [] else [(members[0].key, Canonical(members[0].value))] + MemberCanonicals(members[1..])
  }

  /** The value with the members of every object in canonical order. */
  function SortDeep(j: Json): Json {
    match j
    case Arr(items) => Arr(SortDeeps(items))
    case Obj(members) => Obj(FromPairs(SortByKey(SortDeepPairs(members))))
    case _ => j
  }

  function SortDeeps(items: seq<Json>): (r: seq<Json>)
    ensures |r| == |items|
  {
    if items == [] then [] else [SortDeep(items[0])] + SortDeeps(items[1..])
  }

  function SortDeepPairs(members: seq<Member>): (r: seq<(Text, Json)>)
    ensures |r| == |members|
  {
    if members == [] then [] else [(members[0].key, SortDeep(members[0].value))] + SortDeepPairs(members[1..])
  }

  function FromPairs(pairs: seq<(Text, Json)>): (r: seq<Member>)
    ensures |r| == |pairs| && forall i :: 0 <= i < |r| ==> r[i] == Member(pairs[i].0, pairs[i].1)
  {
    seq(|pairs|, i requires 0 <= i < |pairs| => Member(pairs[i].0, pairs[i].1))
  }

  function ToPairs(members: seq<Member>): (r: seq<(Text, Json)>)
    ensures |r| == |members| && forall i :: 0 <= i < |r| ==> r[i] == (members[i].key, members[i].value)
  {
    seq(|members|, i requires 0 <= i < |members| => (members[i].key, members[i].value))
  }

  // ---------------------------------------------------------------------------
  // Reading
  // ---------------------------------------------------------------------------

  function HexValue(u: Unit): Option<nat> {
    if 48 <= u <= 57 then Some(u - 48)
    else if 97 <= u <= 102 then Some(u - 87)
    else if 65 <= u <= 70 then Some(u - 55)
    else None
  }

  function UnitOfLetter(l: Unit): Option<Unit> {
    match l
    case 34 => Some(34)
    case 92 => Some(92)
    case 47 => Some(47)
    case 98 => Some(8)
    case 116 => Some(9)
    case 110 => Some(10)
    case 102 => Some(12)
    case 114 => Some(13)
    case _ => None
  }

  function ReadHex(t: Text): Option<Unit>
    requires |t| >= 4
  {
    var a, b, c, d := HexValue(t[0]), HexValue(t[1]), HexValue(t[2]), HexValue(t[3]);
    if a.None? || b.None? || c.None? || d.None? then None
    else HexNumber(a.value, b.value, c.value, d.value)
  }

  function HexNumber(a: nat, b: nat, c: nat, d: nat): Option<Unit> {
    var v := a * 0x1000 + b * 0x100 + c * 16 + d;
    if v < 0x1_0000 then Some(v) else None
  }

  /** The unit that a text starts with inside quotes, and how long its spelling is. */
  function ReadUnit(t: Text): (r: Option<(Unit, nat)>)
    requires t != []
    ensures r.Some? ==> 0 < r.value.1 <= |t|
  {
    if t[0] != BACKSLASH then (if t[0] < 32 then None else Some((t[0], 1)))
    else if |t| < 2 then None
    else if t[1] != 117 then
      if UnitOfLetter(t[1]).Some? then Some((UnitOfLetter(t[1]).value, 2)) else None
    else if |t| < 6 || ReadHex(t[2..]).None? then None
    else Some((ReadHex(t[2..]).value, 6))
  }

  /** A string up to its closing quote, and what follows. */
  function ReadBody(t: Text): (r: Option<(Text, Text)>)
    ensures r.Some? ==> |r.value.1| < |t|
  {
    if t == [] then None
    else if t[0] == QUOTE then Some(([], t[1..]))
    else
      var u := ReadUnit(t);
      if u.None? then None
      else
        var more := ReadBody(t[u.value.1..]);
        if more.None? then None else Some(([u.value.0] + more.value.0, more.value.1))
  }

  predicate IsDigitUnit(u: Unit) { 48 <= u <= 57 }

  function DigitsEnd(t: Text): (n: nat)
    ensures n <= |t| && (forall i :: 0 <= i < n ==> IsDigitUnit(t[i])) && (n < |t| ==> !IsDigitUnit(t[n]))
  {
    if t == [] || !IsDigitUnit(t[0]) then 0 else 1 + DigitsEnd(t[1..])
  }

  function Chars(t: Text): (s: string)
    requires forall i :: 0 <= i < |t| ==> IsDigitUnit(t[i])
    ensures |s| == |t| && Decimal.AllDigits(s) && forall i :: 0 <= i < |s| ==> s[i] as int == t[i]
  {
    seq(|t|, i requires 0 <= i < |t| && IsDigitUnit(t[i]) => t[i] as char)
  }

  /** A run of digits without a superfluous zero in front. */
  function ReadNat(t: Text): (r: Option<(nat, Text)>)
    ensures r.Some? ==> |r.value.1| < |t|
  {
    var n := DigitsEnd(t);
    if n == 0 || (n > 1 && t[0] == 48) then None else Some((Decimal.Value(Chars(t[..n])), t[n..]))
  }

  function ReadNumber(t: Text): (r: Option<(Json, Text)>)
    ensures r.Some? ==> |r.value.1| < |t|
  {
    if t != [] && t[0] == MINUS then
      var r := ReadNat(t[1..]);
      if r.None? then None else Some((Num(0 - r.value.0), r.value.1))
    else
      var r := ReadNat(t);
      if r.None? then None else Some((Num(r.value.0), r.value.1))
  }

  function ReadWord(t: Text, word: Text, value: Json): Option<(Json, Text)> {
    if word <= t then Some((value, t[|word|..])) else None
  }

  /** A member set on an object: a key that is there keeps its place. */
  function SetMember(members: seq<Member>, m: Member): seq<Member> {
    if members == [] then [m]
    else if members[0].key == m.key then [m] + members[1..]
    else [members[0]] + SetMember(members[1..], m)
  }

  /** One value at the start of a text, and what follows it. */
  function ReadValue(t: Text): (r: Option<(Json, Text)>)
    ensures r.Some? ==> |r.value.1| < |t|
    decreases |t|, 1
  {
    if t == [] then None
    else if t[0] == OPEN_OBJECT then
      if |t| > 1 && t[1] == CLOSE_OBJECT then Some((Obj([]), t[2..]))
      else
        var r := ReadMembers(t[1..], []);
        if r.None? then None else Some((Obj(r.value.0), r.value.1))
    else if t[0] == OPEN_ARRAY then
      if |t| > 1 && t[1] == CLOSE_ARRAY then Some((Arr([]), t[2..]))
      else
        var r := ReadItems(t[1..]);
        if r.None? then None else Some((Arr(r.value.0), r.value.1))
    else if t[0] == QUOTE then
      var r := ReadBody(t[1..]);
      if r.None? then None else Some((Str(r.value.0), r.value.1))
    else if t[0] == 110 then ReadWord(t, [110, 117, 108, 108], Null)
    else if t[0] == 116 then ReadWord(t, [116, 114, 117, 101], Bool(true))
    else if t[0] == 102 then ReadWord(t, [102, 97, 108, 115, 101], Bool(false))
    else ReadNumber(t)
  }

  function ReadItems(t: Text): (r: Option<(seq<Json>, Text)>)
    ensures r.Some? ==> |r.value.1| < |t|
    decreases |t|, 2
  {
    var first := ReadValue(t);
    if first.None? || first.value.1 == [] then None
    else
      var rest := first.value.1;
      if rest[0] == CLOSE_ARRAY then Some(([first.value.0], rest[1..]))
      else if rest[0] != COMMA then None
      else
        var more := ReadItems(rest[1..]);
        if more.None? then None else Some(([first.value.0] + more.value.0, more.value.1))
  }

  /** Members, set one after the other: a repeated key keeps its last value. */
  function ReadMembers(t: Text, read: seq<Member>): (r: Option<(seq<Member>, Text)>)
    ensures r.Some? ==> |r.value.1| < |t|
    decreases |t|, 2
  {
    if t == [] || t[0] != QUOTE then None
    else
      var key := ReadBody(t[1..]);
      if key.None? || key.value.1 == [] || key.value.1[0] != COLON then None
      else
        var first := ReadValue(key.value.1[1..]);
        if first.None? || first.value.1 == [] then None
        else
          var now, rest := SetMember(read, Member(key.value.0, first.value.0)), first.value.1;
          if rest[0] == CLOSE_OBJECT then Some((now, rest[1..]))
          else if rest[0] != COMMA then None
          else ReadMembers(rest[1..], now)
  }

  /** A whole text that is one value, with nothing behind it. */
  function Parse(t: Text): Option<Json> {
    var r := ReadValue(t);
    if r.Some? && r.value.1 == [] then Some(r.value.0) else None
  }
}
