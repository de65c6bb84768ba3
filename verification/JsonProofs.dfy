/** Reading undoes both printers; the canonical text says exactly what a value means. */
module JsonProofs {
  import opened Domain
  import opened Json
  import Decimal

  // ---------------------------------------------------------------------------
  // Strings
  // ---------------------------------------------------------------------------

  lemma HexReads(u: Unit, rest: Text)
    ensures ReadHex(Hex4(u) + rest) == Some(u)
  {
    var a, b, c, d := u / 0x1000, u / 0x100 % 16, u / 16 % 16, u % 16;
    HexDigitReads(a);
    HexDigitReads(b);
    HexDigitReads(c);
    HexDigitReads(d);
    HexArithmetic(u);
    var t := Hex4(u) + rest;
    assert t[0] == HexUnit(a) && t[1] == HexUnit(b) && t[2] == HexUnit(c) && t[3] == HexUnit(d);
    hide HexValue, HexUnit, HexNumber, Hex4;
  }

  lemma HexArithmetic(u: Unit)
    ensures HexNumber(u / 0x1000, u / 0x100 % 16, u / 16 % 16, u % 16) == Some(u)
  {
    assert u / 0x100 == u / 0x1000 * 16 + u / 0x100 % 16;
    assert u / 16 == u / 0x100 * 16 + u / 16 % 16;
  }

  lemma HexDigitReads(d: nat)
    requires d < 16
    ensures HexValue(HexUnit(d)) == Some(d)
  {
  }

  lemma EscapeReads(u: Unit, rest: Text)
    ensures ReadUnit(Escape(u) + rest) == Some((u, |Escape(u)|))
    ensures (Escape(u) + rest)[0] != QUOTE
  {
    if Letter(u).None? && (u < 32 || IsHigh(u) || IsLow(u)) {
      HexEscapeReads(u, rest);
    }
    hide ReadHex, Hex4;
  }

  lemma HexEscapeReads(u: Unit, rest: Text)
    requires Letter(u).None? && (u < 32 || IsHigh(u) || IsLow(u))
    ensures ReadUnit(Escape(u) + rest) == Some((u, |Escape(u)|))
    ensures (Escape(u) + rest)[0] != QUOTE
  {
    HexReads(u, rest);
    FourUnits(u);
    hide ReadHex, Hex4, Letter, IsHigh, IsLow;
    HexTextReads(Hex4(u), rest, u);
    assert Escape(u) + rest == [BACKSLASH, 117] + Hex4(u) + rest;
  }

  lemma FourUnits(u: Unit)
    ensures |Hex4(u)| == 4
  {
    hide HexUnit;
  }

  lemma HexTextReads(hex: Text, rest: Text, u: Unit)
    requires |hex| == 4 && ReadHex(hex + rest) == Some(u)
    ensures ReadUnit([BACKSLASH, 117] + hex + rest) == Some((u, 6))
  {
    hide ReadHex;
    assert ([BACKSLASH, 117] + hex + rest)[2..] == hex + rest;
  }

  lemma PlainReads(u: Unit, rest: Text)
    requires IsHigh(u) || IsLow(u)
    ensures ReadBody([u] + rest)
         == if ReadBody(rest).None? then None else Some(([u] + ReadBody(rest).value.0, ReadBody(rest).value.1))
  {
    assert ([u] + rest)[1..] == rest;
  }

  lemma UnitReads(u: Unit, more: Text)
    requires ReadBody(more).Some?
    ensures ReadBody(Escape(u) + more) == Some(([u] + ReadBody(more).value.0, ReadBody(more).value.1))
  {
    EscapeReads(u, more);
    assert (Escape(u) + more)[|Escape(u)|..] == more;
    hide Escape, ReadUnit;
  }

  lemma PairReads(high: Unit, low: Unit, more: Text)
    requires IsHigh(high) && IsLow(low) && ReadBody(more).Some?
    ensures ReadBody([high, low] + more) == Some(([high, low] + ReadBody(more).value.0, ReadBody(more).value.1))
  {
    hide ReadBody;
    PlainReads(low, more);
    PlainReads(high, [low] + more);
    assert [high, low] + more == [high] + ([low] + more);
    assert [high] + ([low] + ReadBody(more).value.0) == [high, low] + ReadBody(more).value.0;
  }

  lemma EmptyBodyReads(rest: Text)
    ensures ReadBody(QuoteBody([]) + [QUOTE] + rest) == Some(([], rest))
  {
    assert QuoteBody([]) + [QUOTE] + rest == [QUOTE] + rest;
  }

  lemma {:induction false} BodyReads(s: Text, rest: Text)
    ensures ReadBody(QuoteBody(s) + [QUOTE] + rest) == Some((s, rest))
  {
    var t := QuoteBody(s) + [QUOTE] + rest;
    hide ReadBody, Escape;
    if s == [] {
      EmptyBodyReads(rest);
    } else if StartsWithPair(s) {
      BodyReads(s[2..], rest);
      var more := QuoteBody(s[2..]) + [QUOTE] + rest;
      PairReads(s[0], s[1], more);
      assert t == [s[0], s[1]] + more && s == [s[0], s[1]] + s[2..];
    } else {
      BodyReads(s[1..], rest);
      var more := QuoteBody(s[1..]) + [QUOTE] + rest;
      UnitReads(s[0], more);
      assert t == Escape(s[0]) + more && s == [s[0]] + s[1..];
    }
  }

  // ---------------------------------------------------------------------------
  // Numbers
  // ---------------------------------------------------------------------------

  /** What may follow a printed value. */
  predicate Stops(rest: Text) {
    rest == [] || !IsDigitUnit(rest[0])
  }

  lemma {:induction false} DigitsEndIs(t: Text, n: nat)
    requires n <= |t| && (forall i :: 0 <= i < n ==> IsDigitUnit(t[i])) && (n < |t| ==> !IsDigitUnit(t[n]))
    ensures DigitsEnd(t) == n
  {
    if n > 0 { DigitsEndIs(t[1..], n - 1); }
  }

  lemma NatReads(n: nat, rest: Text)
    requires Stops(rest)
    ensures ReadNat(Ascii(Decimal.Print(n)) + rest) == Some((n, rest))
  {
    var digits := Decimal.Print(n);
    var t := Ascii(digits) + rest;
    assert forall i :: 0 <= i < |digits| ==> t[i] == digits[i] as int && Decimal.IsDigit(digits[i]);
    DigitsEndIs(t, |digits|);
    assert Chars(t[..|digits|]) == digits;
    assert t[|digits|..] == rest;
    Decimal.ReadsBack(n);
    if n > 0 { Decimal.NoLeadingZero(n); } else { assert |digits| == 1; }
  }

  lemma DigitsStart(n: nat)
    ensures Ascii(Decimal.Print(n)) != [] && IsDigitUnit(Ascii(Decimal.Print(n))[0])
  {
    assert Ascii(Decimal.Print(n))[0] == Decimal.Print(n)[0] as int && Decimal.IsDigit(Decimal.Print(n)[0]);
  }

  lemma IntReads(n: int, rest: Text)
    requires Stops(rest)
    ensures ReadNumber(PrintInt(n) + rest) == Some((Num(n), rest))
    ensures PrintInt(n) != [] && (PrintInt(n)[0] == MINUS || IsDigitUnit(PrintInt(n)[0]))
  {
    var size := if n < 0 then -n else n;
    var digits := Ascii(Decimal.Print(size));
    DigitsStart(size);
    NatReads(size, rest);
    hide ReadNat, Ascii, Decimal.Print, Decimal.AllDigits, Stops;
    if n < 0 {
      assert ([MINUS] + digits + rest)[1..] == digits + rest;
    } else {
      assert (digits + rest)[0] == digits[0];
    }
  }

  // ---------------------------------------------------------------------------
  // Values
  // ---------------------------------------------------------------------------

  /** The text reads as the value, whatever may follow. */
  ghost predicate Prints(text: Text, value: Json) {
    && text != [] && text[0] != CLOSE_ARRAY
    && forall rest :: Stops(rest) ==> ReadValue(text + rest) == Some((value, rest))
  }

  lemma NumberPrints(n: int)
    ensures Prints(PrintInt(n), Num(n))
  {
    IntReads(n, []);
    forall rest | Stops(rest) ensures ReadValue(PrintInt(n) + rest) == Some((Num(n), rest)) {
      IntReads(n, rest);
      NumberIsRead(PrintInt(n) + rest);
      hide PrintInt, ReadNumber, ReadValue;
    }
    hide PrintInt, ReadValue;
  }

  lemma NumberIsRead(t: Text)
    requires t != [] && (t[0] == MINUS || IsDigitUnit(t[0]))
    ensures ReadValue(t) == ReadNumber(t)
  {
    hide ReadNumber, ReadMembers, ReadItems, ReadBody, ReadWord;
  }

  lemma StringIsRead(inner: Text)
    requires ReadBody(inner).Some?
    ensures ReadValue([QUOTE] + inner) == Some((Str(ReadBody(inner).value.0), ReadBody(inner).value.1))
  {
    assert ([QUOTE] + inner)[1..] == inner;
    hide ReadMembers, ReadItems, ReadBody, ReadNumber, ReadWord;
  }

  lemma StringReads(s: Text, rest: Text)
    ensures ReadValue(Quote(s) + rest) == Some((Str(s), rest))
  {
    BodyReads(s, rest);
    hide ReadValue, ReadBody, QuoteBody;
    StringIsRead(QuoteBody(s) + [QUOTE] + rest);
    assert Quote(s) + rest == [QUOTE] + (QuoteBody(s) + [QUOTE] + rest);
  }

  lemma StringPrints(s: Text)
    ensures Prints(Quote(s), Str(s))
  {
    assert Quote(s) != [] && Quote(s)[0] != CLOSE_ARRAY;
    hide ReadValue, Quote;
    forall rest | Stops(rest) ensures ReadValue(Quote(s) + rest) == Some((Str(s), rest)) {
      StringReads(s, rest);
    }
  }

  lemma WordsPrint()
    ensures Prints(Stringify(Null), Null)
    ensures Prints(Stringify(Bool(true)), Bool(true)) && Prints(Stringify(Bool(false)), Bool(false))
  {
    forall rest: Text
      ensures ([110, 117, 108, 108] + rest)[4..] == rest
      ensures ([116, 114, 117, 101] + rest)[4..] == rest
      ensures ([102, 97, 108, 115, 101] + rest)[5..] == rest
    {
    }
  }

  lemma ReadsWithRest(text: Text, value: Json, rest: Text)
    requires Prints(text, value) && Stops(rest)
    ensures ReadValue(text + rest) == Some((value, rest))
  {
  }

  /** One item, and the sign behind it. */
  lemma ItemReads(text: Text, value: Json, after: Text)
    requires Prints(text, value) && after != [] && (after[0] == CLOSE_ARRAY || after[0] == COMMA)
    ensures ReadItems(text + after)
         == if after[0] == CLOSE_ARRAY then Some(([value], after[1..]))
            else if ReadItems(after[1..]).None? then None
            else Some(([value] + ReadItems(after[1..]).value.0, ReadItems(after[1..]).value.1))
  {
    ReadsWithRest(text, value, after);
    hide ReadValue, Prints;
  }

  lemma {:induction false} ItemsRead(texts: seq<Text>, values: seq<Json>, rest: Text)
    requires |texts| == |values| > 0 && forall i :: 0 <= i < |texts| ==> Prints(texts[i], values[i])
    ensures ReadItems(Join(texts) + [CLOSE_ARRAY] + rest) == Some((values, rest))
    decreases |texts|
  {
    var t := Join(texts) + [CLOSE_ARRAY] + rest;
    hide Prints, ReadItems;
    if |texts| == 1 {
      var after := [CLOSE_ARRAY] + rest;
      ItemReads(texts[0], values[0], after);
      assert t == texts[0] + after && after[1..] == rest && values == [values[0]];
    } else {
      var more := Join(texts[1..]) + [CLOSE_ARRAY] + rest;
      ItemsRead(texts[1..], values[1..], rest);
      ItemReads(texts[0], values[0], [COMMA] + more);
      JoinMore(texts, [CLOSE_ARRAY] + rest);
      assert ([COMMA] + more)[1..] == more && values == [values[0]] + values[1..];
      assert more == Join(texts[1..]) + ([CLOSE_ARRAY] + rest);
      assert t == Join(texts) + ([CLOSE_ARRAY] + rest);
      hide Join;
    }
  }

  lemma JoinMore(texts: seq<Text>, rest: Text)
    requires |texts| > 1
    ensures Join(texts) + rest == texts[0] + ([COMMA] + (Join(texts[1..]) + rest))
  {
  }

  lemma JoinStarts(texts: seq<Text>)
    requires texts != [] && texts[0] != []
    ensures Join(texts) != [] && Join(texts)[0] == texts[0][0]
  {
  }

  lemma ArrayPrints(texts: seq<Text>, values: seq<Json>)
    requires |texts| == |values| && forall i :: 0 <= i < |texts| ==> Prints(texts[i], values[i])
    ensures Prints([OPEN_ARRAY] + Join(texts) + [CLOSE_ARRAY], Arr(values))
  {
    var text := [OPEN_ARRAY] + Join(texts) + [CLOSE_ARRAY];
    forall rest | Stops(rest) ensures ReadValue(text + rest) == Some((Arr(values), rest)) {
      assert text + rest == [OPEN_ARRAY] + (Join(texts) + [CLOSE_ARRAY] + rest);
      if texts == [] {
        assert Join(texts) + [CLOSE_ARRAY] + rest == [CLOSE_ARRAY] + rest;
        EmptyReads(rest);
      } else {
        JoinStarts(texts);
        ItemsRead(texts, values, rest);
        hide ReadItems, Join, Prints;
        BracketsRead(Join(texts) + [CLOSE_ARRAY] + rest);
      }
      hide ReadValue;
    }
    hide ReadValue;
  }

  lemma EmptyReads(rest: Text)
    ensures ReadValue([OPEN_ARRAY] + ([CLOSE_ARRAY] + rest)) == Some((Arr([]), rest))
    ensures ReadValue([OPEN_OBJECT] + ([CLOSE_OBJECT] + rest)) == Some((Obj([]), rest))
  {
    assert ([OPEN_ARRAY] + ([CLOSE_ARRAY] + rest))[2..] == rest;
    assert ([OPEN_OBJECT] + ([CLOSE_OBJECT] + rest))[2..] == rest;
    hide ReadMembers, ReadItems;
  }

  /** A value in brackets is what stands inside them. */
  lemma BracketsRead(inner: Text)
    requires inner != []
    ensures inner[0] != CLOSE_ARRAY && ReadItems(inner).Some? ==>
              ReadValue([OPEN_ARRAY] + inner) == Some((Arr(ReadItems(inner).value.0), ReadItems(inner).value.1))
    ensures inner[0] != CLOSE_OBJECT && ReadMembers(inner, []).Some? ==>
              ReadValue([OPEN_OBJECT] + inner)
              == Some((Obj(ReadMembers(inner, []).value.0), ReadMembers(inner, []).value.1))
  {
    assert ([OPEN_ARRAY] + inner)[1..] == inner && ([OPEN_OBJECT] + inner)[1..] == inner;
    hide ReadMembers, ReadItems;
  }

  /** Printed members beside what they mean. */
  ghost predicate Parallel(entries: seq<(Text, Text)>, pairs: seq<(Text, Json)>) {
    |entries| == |pairs| && forall i :: 0 <= i < |entries| ==> entries[i].0 == pairs[i].0 && Prints(entries[i].1, pairs[i].1)
  }

  lemma MemberReads(key: Text, text: Text, value: Json, after: Text, read: seq<Member>)
    requires Prints(text, value) && after != [] && Stops(after)
    requires after[0] == CLOSE_OBJECT || after[0] == COMMA
    ensures ReadMembers(Quote(key) + [COLON] + text + after, read)
         == if after[0] == CLOSE_OBJECT then Some((SetMember(read, Member(key, value)), after[1..]))
            else ReadMembers(after[1..], SetMember(read, Member(key, value)))
  {
    var inner := [COLON] + text + after;
    hide ReadBody, ReadValue, Quote, Prints, ReadMembers;
    KeyReads(key, inner);
    assert Quote(key) + [COLON] + text + after == Quote(key) + inner;
    assert inner[1..] == text + after;
    ReadsWithRest(text, value, after);
    MemberStep(Quote(key) + inner, key, inner, value, after, read);
  }

  lemma MemberStep(t: Text, key: Text, inner: Text, value: Json, after: Text, read: seq<Member>)
    requires t != [] && t[0] == QUOTE && ReadBody(t[1..]) == Some((key, inner))
    requires inner != [] && inner[0] == COLON && ReadValue(inner[1..]) == Some((value, after))
    requires after != [] && (after[0] == CLOSE_OBJECT || after[0] == COMMA)
    ensures ReadMembers(t, read)
         == if after[0] == CLOSE_OBJECT then Some((SetMember(read, Member(key, value)), after[1..]))
            else ReadMembers(after[1..], SetMember(read, Member(key, value)))
  {
    hide ReadBody, ReadValue;
  }

  lemma KeyReads(key: Text, inner: Text)
    ensures Quote(key) + inner != [] && (Quote(key) + inner)[0] == QUOTE
    ensures ReadBody((Quote(key) + inner)[1..]) == Some((key, inner))
  {
    BodyReads(key, inner);
    assert (Quote(key) + inner)[1..] == QuoteBody(key) + [QUOTE] + inner;
    hide ReadBody;
  }

  /** The printed members after the first, and the first on its own. */
  lemma MemberTextsSplit(entries: seq<(Text, Text)>)
    requires entries != []
    ensures MemberTexts(entries)[0] == Quote(entries[0].0) + [COLON] + entries[0].1
    ensures MemberTexts(entries)[1..] == MemberTexts(entries[1..])
  {
  }

  lemma NextMemberReads(key: Text, text: Text, value: Json, more: Text, read: seq<Member>)
    requires Prints(text, value)
    ensures ReadMembers(Quote(key) + [COLON] + text + ([COMMA] + more), read) == ReadMembers(more, SetMember(read, Member(key, value)))
    ensures ReadMembers(Quote(key) + [COLON] + text + ([CLOSE_OBJECT] + more), read) == Some((SetMember(read, Member(key, value)), more))
  {
    assert ([COMMA] + more)[1..] == more && ([CLOSE_OBJECT] + more)[1..] == more;
    hide Quote, Prints, ReadMembers;
    MemberReads(key, text, value, [COMMA] + more, read);
    MemberReads(key, text, value, [CLOSE_OBJECT] + more, read);
  }

  lemma ParallelSplit(entries: seq<(Text, Text)>, pairs: seq<(Text, Json)>)
    requires Parallel(entries, pairs) && entries != []
    ensures pairs != [] && entries[0].0 == pairs[0].0 && Prints(entries[0].1, pairs[0].1)
    ensures Parallel(entries[1..], pairs[1..])
  {
    hide Prints;
  }

  lemma {:induction false} NewMember(members: seq<Member>, m: Member)
    requires forall i :: 0 <= i < |members| ==> members[i].key != m.key
    ensures SetMember(members, m) == members + [m]
  {
    if members != [] { NewMember(members[1..], m); }
  }

  lemma NewPair(read: seq<Member>, pairs: seq<(Text, Json)>)
    requires pairs != [] && DistinctMembers(read + FromPairs(pairs))
    ensures var now := SetMember(read, Member(pairs[0].0, pairs[0].1));
            now + FromPairs(pairs[1..]) == read + FromPairs(pairs) && (|pairs| == 1 ==> now == read + FromPairs(pairs))
  {
    var all := read + FromPairs(pairs);
    assert all[|read|] == Member(pairs[0].0, pairs[0].1);
    forall i | 0 <= i < |read| ensures read[i].key != pairs[0].0 {
      assert all[i] == read[i];
    }
    NewMember(read, Member(pairs[0].0, pairs[0].1));
  }

  lemma {:induction false} MembersRead(
    entries: seq<(Text, Text)>, pairs: seq<(Text, Json)>, rest: Text, read: seq<Member>)
    requires Parallel(entries, pairs) && entries != [] && DistinctMembers(read + FromPairs(pairs))
    ensures ReadMembers(Join(MemberTexts(entries)) + ([CLOSE_OBJECT] + rest), read)
         == Some((read + FromPairs(pairs), rest))
    decreases |entries|
  {
    var texts := MemberTexts(entries);
    MemberTextsSplit(entries);
    ParallelSplit(entries, pairs);
    assert |pairs| == |entries|;
    var now := SetMember(read, Member(pairs[0].0, pairs[0].1));
    NewPair(read, pairs);
    hide Quote, Prints, ReadMembers, MemberTexts, FromPairs, Parallel, DistinctMembers, SetMember;
    if |entries| == 1 {
      NextMemberReads(entries[0].0, entries[0].1, pairs[0].1, rest, read);
    } else {
      var tail := [CLOSE_OBJECT] + rest;
      MembersRead(entries[1..], pairs[1..], rest, now);
      NextMemberReads(entries[0].0, entries[0].1, pairs[0].1, Join(texts[1..]) + tail, read);
      JoinMore(texts, tail);
      hide Join;
    }
  }

  lemma ObjectReads(entries: seq<(Text, Text)>, pairs: seq<(Text, Json)>, rest: Text)
    requires Parallel(entries, pairs) && DistinctMembers(FromPairs(pairs))
    ensures ReadValue([OPEN_OBJECT] + (Join(MemberTexts(entries)) + ([CLOSE_OBJECT] + rest)))
         == Some((Obj(FromPairs(pairs)), rest))
  {
    var inner := Join(MemberTexts(entries)) + ([CLOSE_OBJECT] + rest);
    if entries == [] {
      assert inner == [CLOSE_OBJECT] + rest && FromPairs(pairs) == [];
      EmptyReads(rest);
    } else {
      MemberTextsSplit(entries);
      JoinStarts(MemberTexts(entries));
      assert [] + FromPairs(pairs) == FromPairs(pairs);
      MembersRead(entries, pairs, rest, []);
      hide ReadMembers, Join, FromPairs, Parallel, MemberTexts;
      BracketsRead(inner);
    }
    hide ReadValue, MemberTexts;
  }

  lemma ObjectPrints(entries: seq<(Text, Text)>, pairs: seq<(Text, Json)>)
    requires Parallel(entries, pairs) && DistinctMembers(FromPairs(pairs))
    ensures Prints([OPEN_OBJECT] + Join(MemberTexts(entries)) + [CLOSE_OBJECT], Obj(FromPairs(pairs)))
  {
    var inner := Join(MemberTexts(entries));
    var text := [OPEN_OBJECT] + inner + [CLOSE_OBJECT];
    hide ReadValue, MemberTexts, Join, FromPairs;
    forall rest | Stops(rest) ensures ReadValue(text + rest) == Some((Obj(FromPairs(pairs)), rest)) {
      ObjectReads(entries, pairs, rest);
      assert text + rest == [OPEN_OBJECT] + (inner + ([CLOSE_OBJECT] + rest));
    }
  }

  // ---------------------------------------------------------------------------
  // JSON.stringify
  // ---------------------------------------------------------------------------

  /** What `JSON.stringify` prints is read back as the value itself. */
  lemma {:induction false} StringifyPrints(j: Json)
    requires WellFormed(j)
    ensures Prints(Stringify(j), j)
    decreases j
  {
    WordsPrint();
    match j
    case Num(n) => NumberPrints(n);
    case Str(s) => StringPrints(s);
    case Arr(items) =>
      StringsPrint(items);
      ArrayPrints(Strings(items), items);
    case Obj(members) =>
      MemberStringsPrint(members);
      ObjectPrints(MemberStrings(members), ToPairs(members));
      assert FromPairs(ToPairs(members)) == members;
    case _ =>
  }

  lemma {:induction false} StringsPrint(items: seq<Json>)
    requires forall i :: 0 <= i < |items| ==> WellFormed(items[i])
    ensures forall i :: 0 <= i < |items| ==> Prints(Strings(items)[i], items[i])
    decreases items
  {
    hide Prints;
    if items != [] {
      StringifyPrints(items[0]);
      StringsPrint(items[1..]);
    }
  }

  lemma {:induction false} MemberStringsPrint(members: seq<Member>)
    requires forall i :: 0 <= i < |members| ==> WellFormed(members[i].value)
    ensures Parallel(MemberStrings(members), ToPairs(members))
    decreases members
  {
    hide Prints;
    if members != [] {
      StringifyPrints(members[0].value);
      MemberStringsPrint(members[1..]);
      assert ToPairs(members)[1..] == ToPairs(members[1..]);
      ParallelCons(members[0].key, Stringify(members[0].value), members[0].value,
                   MemberStrings(members[1..]), ToPairs(members[1..]));
      assert ToPairs(members) == [(members[0].key, members[0].value)] + ToPairs(members[1..]);
    }
  }

  lemma ParallelCons(key: Text, text: Text, value: Json, entries: seq<(Text, Text)>, pairs: seq<(Text, Json)>)
    requires Prints(text, value) && Parallel(entries, pairs)
    ensures Parallel([(key, text)] + entries, [(key, value)] + pairs)
  {
    hide Prints;
  }

  // ---------------------------------------------------------------------------
  // Sorting by key
  // ---------------------------------------------------------------------------

  lemma {:induction false} KeyOrder(a: Text, b: Text, c: Text)
    ensures !KeyLess(a, a)
    ensures a != b ==> KeyLess(a, b) || KeyLess(b, a)
    ensures KeyLess(a, b) && KeyLess(b, c) ==> KeyLess(a, c)
  {
    if a != [] {
      KeyOrder(a[1..], if b == [] then [] else b[1..], if c == [] then [] else c[1..]);
      if b != [] && a[0] == b[0] { assert a == [a[0]] + a[1..] && b == [b[0]] + b[1..]; }
    }
  }

  predicate Ascending<V>(entries: seq<(Text, V)>) {
    forall i, j :: 0 <= i < j < |entries| ==> KeyLess(entries[i].0, entries[j].0)
  }

  predicate HasKey<V>(entries: seq<(Text, V)>, k: Text) {
    exists i :: 0 <= i < |entries| && entries[i].0 == k
  }

  lemma {:induction false} InsertElements<V>(e: (Text, V), sorted: seq<(Text, V)>)
    ensures multiset(InsertByKey(e, sorted)) == multiset(sorted) + multiset{e}
  {
    if sorted != [] && !KeyLess(e.0, sorted[0].0) {
      InsertElements(e, sorted[1..]);
      assert sorted == [sorted[0]] + sorted[1..];
    }
  }

  lemma {:induction false} SortElements<V>(entries: seq<(Text, V)>)
    ensures multiset(SortByKey(entries)) == multiset(entries)
  {
    if entries != [] {
      SortElements(entries[1..]);
      InsertElements(entries[0], SortByKey(entries[1..]));
      assert entries == [entries[0]] + entries[1..];
    }
  }

  lemma SameElements<V>(xs: seq<(Text, V)>, ys: seq<(Text, V)>)
    requires multiset(xs) == multiset(ys)
    ensures forall e :: e in xs <==> e in ys
    ensures forall k :: HasKey(xs, k) <==> HasKey(ys, k)
  {
    forall e ensures e in xs <==> e in ys {
      assert e in xs <==> e in multiset(xs);
    }
    forall k ensures HasKey(xs, k) <==> HasKey(ys, k) {
      if HasKey(xs, k) { var i :| 0 <= i < |xs| && xs[i].0 == k; assert xs[i] in ys; }
      if HasKey(ys, k) { var i :| 0 <= i < |ys| && ys[i].0 == k; assert ys[i] in xs; }
    }
  }

  lemma SortedElement<V>(entries: seq<(Text, V)>, i: nat)
    requires i < |SortByKey(entries)|
    ensures SortByKey(entries)[i] in entries
  {
    SortElements(entries);
    var e := SortByKey(entries)[i];
    assert e in multiset(SortByKey(entries));
    assert e in multiset(entries);
  }

  lemma {:induction false} InsertAscending<V>(e: (Text, V), sorted: seq<(Text, V)>)
    requires Ascending(sorted) && !HasKey(sorted, e.0)
    ensures Ascending(InsertByKey(e, sorted))
  {
    if sorted == [] {
    } else if KeyLess(e.0, sorted[0].0) {
      forall j | 0 <= j < |sorted| ensures KeyLess(e.0, sorted[j].0) {
        KeyOrder(e.0, sorted[0].0, sorted[j].0);
      }
    } else {
      KeyOrder(e.0, sorted[0].0, e.0);
      InsertAscending(e, sorted[1..]);
      InsertElements(e, sorted[1..]);
      var rest := InsertByKey(e, sorted[1..]);
      forall j | 0 <= j < |rest| ensures KeyLess(sorted[0].0, rest[j].0) {
        assert rest[j] in multiset(rest);
        assert rest[j] in sorted[1..] || rest[j] == e;
      }
    }
  }

  lemma {:induction false} SortAscending<V>(entries: seq<(Text, V)>)
    requires DistinctKeys(entries)
    ensures Ascending(SortByKey(entries))
  {
    if entries != [] {
      SortAscending(entries[1..]);
      SortElements(entries[1..]);
      SameElements(SortByKey(entries[1..]), entries[1..]);
      assert !HasKey(entries[1..], entries[0].0);
      InsertAscending(entries[0], SortByKey(entries[1..]));
    }
  }

  /** There is one ascending list of given members. */
  lemma {:induction false} AscendingIsUnique<V>(xs: seq<(Text, V)>, ys: seq<(Text, V)>)
    requires Ascending(xs) && Ascending(ys) && forall e :: e in xs <==> e in ys
    ensures xs == ys
    decreases |xs|
  {
    if xs == [] {
      if ys != [] { HeadIsIn(ys); }
    } else {
      assert xs[0] in ys && ys[0] in xs by { assert xs[0] in xs; assert ys != []; assert ys[0] in ys; }
      HeadsAgree(xs, ys);
      forall e ensures e in xs[1..] <==> e in ys[1..] {
        TailMembers(xs, e);
        TailMembers(ys, e);
      }
      AscendingIsUnique(xs[1..], ys[1..]);
      assert xs == [xs[0]] + xs[1..] && ys == [ys[0]] + ys[1..];
    }
  }

  lemma HeadIsIn<V>(ys: seq<(Text, V)>)
    requires ys != []
    ensures ys[0] in ys
  {
  }

  lemma HeadsAgree<V>(xs: seq<(Text, V)>, ys: seq<(Text, V)>)
    requires Ascending(xs) && Ascending(ys) && xs != [] && ys != [] && xs[0] in ys && ys[0] in xs
    ensures xs[0] == ys[0]
  {
    var i :| 0 <= i < |ys| && ys[i] == xs[0];
    var j :| 0 <= j < |xs| && xs[j] == ys[0];
    KeyOrder(xs[0].0, ys[0].0, xs[0].0);
  }

  lemma TailMembers<V>(xs: seq<(Text, V)>, e: (Text, V))
    requires Ascending(xs) && xs != []
    ensures e in xs[1..] <==> e in xs && e != xs[0]
  {
    KeyOrder(xs[0].0, xs[0].0, xs[0].0);
    assert xs == [xs[0]] + xs[1..];
  }

  // ---------------------------------------------------------------------------
  // canonicalJson is read as what the value means
  // ---------------------------------------------------------------------------

  lemma {:induction false} InsertExtends<V>(m: map<Text, V>, e: (Text, V), sorted: seq<(Text, V)>)
    requires !HasKey(sorted, e.0)
    ensures Extend(m, InsertByKey(e, sorted)) == Extend(m[e.0 := e.1], sorted)
    decreases |sorted|
  {
    if sorted == [] || KeyLess(e.0, sorted[0].0) {
      assert ([e] + sorted)[1..] == sorted;
    } else {
      var first := sorted[0];
      InsertExtends(m[first.0 := first.1], e, sorted[1..]);
      assert m[first.0 := first.1][e.0 := e.1] == m[e.0 := e.1][first.0 := first.1];
    }
  }

  lemma {:induction false} SortExtends<V>(m: map<Text, V>, entries: seq<(Text, V)>)
    requires DistinctKeys(entries)
    ensures Extend(m, SortByKey(entries)) == Extend(m, entries)
    decreases |entries|
  {
    if entries != [] {
      var rest := SortByKey(entries[1..]);
      SortElements(entries[1..]);
      SameElements(rest, entries[1..]);
      assert !HasKey(entries[1..], entries[0].0);
      InsertExtends(m, entries[0], rest);
      SortExtends(m[entries[0].0 := entries[0].1], entries[1..]);
    }
  }

  lemma {:induction false} InsertParallel(
    e: (Text, Text), f: (Text, Json), entries: seq<(Text, Text)>, pairs: seq<(Text, Json)>)
    requires Parallel(entries, pairs) && e.0 == f.0 && Prints(e.1, f.1)
    ensures Parallel(InsertByKey(e, entries), InsertByKey(f, pairs))
  {
    hide Prints;
    if entries != [] && !KeyLess(e.0, entries[0].0) {
      InsertParallel(e, f, entries[1..], pairs[1..]);
    }
  }

  lemma {:induction false} SortParallel(entries: seq<(Text, Text)>, pairs: seq<(Text, Json)>)
    requires Parallel(entries, pairs)
    ensures Parallel(SortByKey(entries), SortByKey(pairs))
  {
    hide Prints;
    if entries != [] {
      SortParallel(entries[1..], pairs[1..]);
      InsertParallel(entries[0], pairs[0], SortByKey(entries[1..]), SortByKey(pairs[1..]));
    }
  }

  /** What `canonicalJson` prints is read as the value with sorted keys. */
  lemma {:induction false} CanonicalPrints(j: Json)
    requires WellFormed(j)
    ensures Prints(Canonical(j), SortDeep(j))
    decreases j
  {
    match j
    case Arr(items) =>
      CanonicalsPrint(items);
      ArrayPrints(Canonicals(items), SortDeeps(items));
    case Obj(members) =>
      MemberCanonicalsPrint(members);
      var entries, pairs := MemberCanonicals(members), SortDeepPairs(members);
      SortParallel(entries, pairs);
      SortedAreDistinct(members);
      ObjectPrints(SortByKey(entries), SortByKey(pairs));
    case _ => StringifyPrints(j);
  }

  lemma {:induction false} SortDeepAt(members: seq<Member>, i: nat)
    requires i < |members|
    ensures SortDeepPairs(members)[i] == (members[i].key, SortDeep(members[i].value))
    decreases |members|
  {
    if i > 0 { SortDeepAt(members[1..], i - 1); }
  }

  lemma SortedAreDistinct(members: seq<Member>)
    requires DistinctMembers(members)
    ensures DistinctKeys(SortDeepPairs(members))
    ensures DistinctMembers(FromPairs(SortByKey(SortDeepPairs(members))))
  {
    var pairs := SortDeepPairs(members);
    forall i | 0 <= i < |pairs| ensures pairs[i].0 == members[i].key { SortDeepAt(members, i); }
    SortAscending(pairs);
    var sorted := SortByKey(pairs);
    forall i, j | 0 <= i < j < |sorted| ensures sorted[i].0 != sorted[j].0 {
      KeyOrder(sorted[i].0, sorted[j].0, sorted[i].0);
    }
  }

  lemma {:induction false} CanonicalsPrint(items: seq<Json>)
    requires forall i :: 0 <= i < |items| ==> WellFormed(items[i])
    ensures forall i :: 0 <= i < |items| ==> Prints(Canonicals(items)[i], SortDeeps(items)[i])
    decreases items
  {
    hide Prints;
    if items != [] {
      CanonicalPrints(items[0]);
      CanonicalsPrint(items[1..]);
    }
  }

  lemma {:induction false} MemberCanonicalsPrint(members: seq<Member>)
    requires forall i :: 0 <= i < |members| ==> WellFormed(members[i].value)
    ensures Parallel(MemberCanonicals(members), SortDeepPairs(members))
    decreases members
  {
    hide Prints;
    if members != [] {
      CanonicalPrints(members[0].value);
      MemberCanonicalsPrint(members[1..]);
      ParallelCons(members[0].key, Canonical(members[0].value), SortDeep(members[0].value),
                   MemberCanonicals(members[1..]), SortDeepPairs(members[1..]));
    }
  }

  /** Sorting keys changes no meaning. */
  lemma {:induction false} SortDeepKeepsMeaning(j: Json)
    requires WellFormed(j)
    ensures Meaning(SortDeep(j)) == Meaning(j)
    decreases j
  {
    match j
    case Arr(items) => SortDeepsKeepMeaning(items);
    case Obj(members) =>
      SortDeepPairsKeepMeaning(members);
      var pairs := SortDeepPairs(members);
      MeaningsOfSorted(pairs);
      CanonicalKeys(members);
      SortExtends(map[], MemberMeanings(members));
    case _ =>
  }

  lemma {:induction false} SortDeepsKeepMeaning(items: seq<Json>)
    requires forall i :: 0 <= i < |items| ==> WellFormed(items[i])
    ensures Meanings(SortDeeps(items)) == Meanings(items)
    decreases items
  {
    if items != [] {
      SortDeepKeepsMeaning(items[0]);
      SortDeepsKeepMeaning(items[1..]);
      assert SortDeeps(items)[1..] == SortDeeps(items[1..]);
    }
  }

  lemma MeaningsCons(m: Member, members: seq<Member>)
    ensures MemberMeanings([m] + members) == [(m.key, Meaning(m.value))] + MemberMeanings(members)
  {
    assert ([m] + members)[1..] == members;
  }

  lemma {:induction false} SortDeepPairsKeepMeaning(members: seq<Member>)
    requires forall i :: 0 <= i < |members| ==> WellFormed(members[i].value)
    ensures MemberMeanings(FromPairs(SortDeepPairs(members))) == MemberMeanings(members)
    decreases members
  {
    if members != [] {
      SortDeepKeepsMeaning(members[0].value);
      SortDeepPairsKeepMeaning(members[1..]);
      var rest := SortDeepPairs(members[1..]);
      var first := Member(members[0].key, SortDeep(members[0].value));
      assert FromPairs(SortDeepPairs(members)) == [first] + FromPairs(rest);
      hide SortDeepPairs, FromPairs, SortDeep;
      MeaningsCons(first, FromPairs(rest));
      MeaningsCons(members[0], members[1..]);
      assert members == [members[0]] + members[1..];
    }
  }

  lemma {:induction false} MeaningsOfInserted(e: (Text, Json), pairs: seq<(Text, Json)>)
    ensures MemberMeanings(FromPairs(InsertByKey(e, pairs)))
         == InsertByKey((e.0, Meaning(e.1)), MemberMeanings(FromPairs(pairs)))
  {
    hide Meaning, MemberMeanings;
    assert FromPairs([]) == [];
    NoMeanings();
    if pairs == [] || KeyLess(e.0, pairs[0].0) {
      assert FromPairs([e] + pairs) == [Member(e.0, e.1)] + FromPairs(pairs);
      MeaningsCons(Member(e.0, e.1), FromPairs(pairs));
    } else {
      MeaningsOfInserted(e, pairs[1..]);
      var first := Member(pairs[0].0, pairs[0].1);
      assert FromPairs(InsertByKey(e, pairs)) == [first] + FromPairs(InsertByKey(e, pairs[1..]));
      assert FromPairs(pairs) == [first] + FromPairs(pairs[1..]);
      MeaningsCons(first, FromPairs(InsertByKey(e, pairs[1..])));
      MeaningsCons(first, FromPairs(pairs[1..]));
      assert MemberMeanings(FromPairs(pairs))[1..] == MemberMeanings(FromPairs(pairs[1..]));
    }
  }

  lemma NoMeanings()
    ensures MemberMeanings([]) == []
  {
  }

  lemma {:induction false} MeaningsOfSorted(pairs: seq<(Text, Json)>)
    ensures MemberMeanings(FromPairs(SortByKey(pairs))) == SortByKey(MemberMeanings(FromPairs(pairs)))
  {
    if pairs != [] {
      MeaningsOfSorted(pairs[1..]);
      MeaningsOfInserted(pairs[0], SortByKey(pairs[1..]));
      assert FromPairs(pairs) == [Member(pairs[0].0, pairs[0].1)] + FromPairs(pairs[1..]);
      MeaningsCons(Member(pairs[0].0, pairs[0].1), FromPairs(pairs[1..]));
      assert MemberMeanings(FromPairs(pairs))[1..] == MemberMeanings(FromPairs(pairs[1..]));
    }
  }

  /** Parsing undoes both printers: the one exactly, the other up to the order of keys. */
  lemma ParseUndoesPrinting(j: Json)
    requires WellFormed(j)
    ensures Parse(Stringify(j)) == Some(j)
    ensures Parse(Canonical(j)) == Some(SortDeep(j)) && Meaning(SortDeep(j)) == Meaning(j)
  {
    StringifyPrints(j);
    ReadsWithRest(Stringify(j), j, []);
    assert Stringify(j) + [] == Stringify(j);
    CanonicalPrints(j);
    ReadsWithRest(Canonical(j), SortDeep(j), []);
    assert Canonical(j) + [] == Canonical(j);
    SortDeepKeepsMeaning(j);
    hide ReadValue, Prints;
  }

  // ---------------------------------------------------------------------------
  // The canonical text is a function of the meaning, and one to one
  // ---------------------------------------------------------------------------

  /** In a list without repeated keys, the map holds exactly the listed members. */
  lemma {:induction false} ExtendHolds<V>(m: map<Text, V>, entries: seq<(Text, V)>)
    requires DistinctKeys(entries)
    ensures forall e :: e in entries ==> e.0 in Extend(m, entries) && Extend(m, entries)[e.0] == e.1
    ensures forall k :: k in Extend(m, entries) ==> k in m || HasKey(entries, k)
    ensures forall k :: k in m && !HasKey(entries, k) ==> k in Extend(m, entries) && Extend(m, entries)[k] == m[k]
    decreases |entries|
  {
    if entries != [] {
      var e, now := entries[0], m[entries[0].0 := entries[0].1];
      ExtendHolds(now, entries[1..]);
      assert !HasKey(entries[1..], e.0);
      assert entries == [e] + entries[1..];
      forall k | HasKey(entries[1..], k) ensures HasKey(entries, k) {
        var i :| 0 <= i < |entries[1..]| && entries[1..][i].0 == k;
        assert entries[i + 1].0 == k;
      }
      assert HasKey(entries, e.0) by { assert entries[0].0 == e.0; }
    }
  }

  lemma {:induction false} MemberMeaningAt(members: seq<Member>, i: nat)
    requires i < |members|
    ensures MemberMeanings(members)[i] == (members[i].key, Meaning(members[i].value))
    ensures MemberCanonicals(members)[i] == (members[i].key, Canonical(members[i].value))
    decreases |members|
  {
    hide Meaning, Canonical;
    if i > 0 { MemberMeaningAt(members[1..], i - 1); }
  }

  lemma {:induction false} MeaningAt(items: seq<Json>, i: nat)
    requires i < |items|
    ensures Meanings(items)[i] == Meaning(items[i]) && Canonicals(items)[i] == Canonical(items[i])
    decreases |items|
  {
    hide Meaning, Canonical;
    if i > 0 { MeaningAt(items[1..], i - 1); }
  }

  /** Equal meanings print equally: key order never matters, at any level. */
  lemma {:induction false} MeaningDeterminesText(a: Json, b: Json)
    requires WellFormed(a) && WellFormed(b) && Meaning(a) == Meaning(b)
    ensures Canonical(a) == Canonical(b)
    decreases a
  {
    match a
    case Arr(items) => ItemsDetermineText(items, b.items);
    case Obj(members) => MembersDetermineText(members, b.members);
    case _ =>
  }

  lemma {:induction false} ItemsDetermineText(xs: seq<Json>, ys: seq<Json>)
    requires (forall i :: 0 <= i < |xs| ==> WellFormed(xs[i])) && (forall i :: 0 <= i < |ys| ==> WellFormed(ys[i]))
    requires Meanings(xs) == Meanings(ys)
    ensures Canonicals(xs) == Canonicals(ys)
    decreases xs
  {
    assert |xs| == |Meanings(xs)| == |Meanings(ys)| == |ys|;
    forall i | 0 <= i < |xs| ensures Canonicals(xs)[i] == Canonicals(ys)[i] {
      MeaningAt(xs, i);
      MeaningAt(ys, i);
      MeaningDeterminesText(xs[i], ys[i]);
    }
  }

  lemma {:induction false} MembersDetermineText(xs: seq<Member>, ys: seq<Member>)
    requires DistinctMembers(xs) && forall i :: 0 <= i < |xs| ==> WellFormed(xs[i].value)
    requires DistinctMembers(ys) && forall i :: 0 <= i < |ys| ==> WellFormed(ys[i].value)
    requires Extend(map[], MemberMeanings(xs)) == Extend(map[], MemberMeanings(ys))
    ensures SortByKey(MemberCanonicals(xs)) == SortByKey(MemberCanonicals(ys))
    decreases xs, 1
  {
    var ex, ey := MemberCanonicals(xs), MemberCanonicals(ys);
    CanonicalKeys(xs);
    CanonicalKeys(ys);
    forall e ensures e in ex <==> e in ey {
      if e in ex {
        var i :| 0 <= i < |ex| && ex[i] == e;
        var j := Counterpart(xs, ys, i);
        MeaningDeterminesText(xs[i].value, ys[j].value);
        MemberMeaningAt(xs, i);
        MemberMeaningAt(ys, j);
      }
      if e in ey {
        var j :| 0 <= j < |ey| && ey[j] == e;
        var i := Counterpart(ys, xs, j);
        MeaningDeterminesText(xs[i].value, ys[j].value);
        MemberMeaningAt(xs, i);
        MemberMeaningAt(ys, j);
      }
    }
    SortAscending(ex);
    SortAscending(ey);
    SortElements(ex);
    SortElements(ey);
    SameElements(SortByKey(ex), ex);
    SameElements(SortByKey(ey), ey);
    AscendingIsUnique(SortByKey(ex), SortByKey(ey));
  }

  lemma CanonicalKeys(xs: seq<Member>)
    requires DistinctMembers(xs)
    ensures DistinctKeys(MemberCanonicals(xs)) && DistinctKeys(MemberMeanings(xs))
  {
    forall i | 0 <= i < |xs| ensures MemberCanonicals(xs)[i].0 == xs[i].key {
      MemberMeaningAt(xs, i);
    }
  }

  /** A member has one of the same key and meaning in an object of the same meaning. */
  lemma Counterpart(xs: seq<Member>, ys: seq<Member>, i: nat) returns (j: nat)
    requires DistinctMembers(xs) && DistinctMembers(ys) && i < |xs|
    requires Extend(map[], MemberMeanings(xs)) == Extend(map[], MemberMeanings(ys))
    ensures j < |ys| && ys[j].key == xs[i].key && Meaning(ys[j].value) == Meaning(xs[i].value)
  {
    var mx, my := MemberMeanings(xs), MemberMeanings(ys);
    CanonicalKeys(xs);
    CanonicalKeys(ys);
    ExtendHolds(map[], mx);
    ExtendHolds(map[], my);
    MemberMeaningAt(xs, i);
    assert mx[i] in mx;
    assert HasKey(my, xs[i].key);
    j :| 0 <= j < |my| && my[j].0 == xs[i].key;
    MemberMeaningAt(ys, j);
    assert my[j] in my;
  }

  /** For values without repeated keys: the canonical texts are equal exactly when the
      values mean the same. So the text does not depend on the order of keys at any level,
      and it never confuses two different values. */
  lemma CanonicalIffSameMeaning(a: Json, b: Json)
    requires WellFormed(a) && WellFormed(b)
    ensures Canonical(a) == Canonical(b) <==> Meaning(a) == Meaning(b)
  {
    ParseUndoesPrinting(a);
    ParseUndoesPrinting(b);
    if Meaning(a) == Meaning(b) { MeaningDeterminesText(a, b); }
  }

  // ---------------------------------------------------------------------------
  // Printed text is well-formed UTF-16
  // ---------------------------------------------------------------------------

  /** Every surrogate stands in a pair, so encoding the text in UTF-8 loses nothing. */
  predicate Paired(t: Text) {
    if t == [] then true
    else if StartsWithPair(t) then Paired(t[2..])
    else !IsHigh(t[0]) && !IsLow(t[0]) && Paired(t[1..])
  }

  lemma {:induction false} PairedConcat(s: Text, t: Text)
    requires Paired(s) && Paired(t)
    ensures Paired(s + t)
  {
    if s == [] {
      assert s + t == t;
    } else if StartsWithPair(s) {
      PairedConcat(s[2..], t);
      assert (s + t)[2..] == s[2..] + t;
    } else {
      PairedConcat(s[1..], t);
      assert (s + t)[1..] == s[1..] + t;
    }
  }

  lemma {:induction false} PlainIsPaired(t: Text)
    requires forall i :: 0 <= i < |t| ==> !IsHigh(t[i]) && !IsLow(t[i])
    ensures Paired(t)
  {
    if t != [] { PlainIsPaired(t[1..]); }
  }

  lemma {:induction false} QuoteBodyIsPaired(s: Text)
    ensures Paired(QuoteBody(s))
  {
    if s == [] {
    } else if StartsWithPair(s) {
      QuoteBodyIsPaired(s[2..]);
      assert QuoteBody(s)[2..] == QuoteBody(s[2..]);
    } else {
      QuoteBodyIsPaired(s[1..]);
      PlainIsPaired(Escape(s[0]));
      PairedConcat(Escape(s[0]), QuoteBody(s[1..]));
    }
  }

  lemma QuoteIsPaired(s: Text)
    ensures Paired(Quote(s))
  {
    QuoteBodyIsPaired(s);
    PlainIsPaired([QUOTE]);
    PairedConcat([QUOTE], QuoteBody(s));
    PairedConcat([QUOTE] + QuoteBody(s), [QUOTE]);
  }

  lemma {:induction false} JoinIsPaired(texts: seq<Text>)
    requires forall i :: 0 <= i < |texts| ==> Paired(texts[i])
    ensures Paired(Join(texts))
  {
    if |texts| > 1 {
      JoinIsPaired(texts[1..]);
      PlainIsPaired([COMMA]);
      PairedConcat(texts[0], [COMMA]);
      PairedConcat(texts[0] + [COMMA], Join(texts[1..]));
      hide Paired;
    }
  }

  lemma MembersArePaired(entries: seq<(Text, Text)>)
    requires forall i :: 0 <= i < |entries| ==> Paired(entries[i].1)
    ensures Paired(Join(MemberTexts(entries)))
  {
    var texts := MemberTexts(entries);
    PlainIsPaired([COLON]);
    forall i | 0 <= i < |texts| ensures Paired(texts[i]) {
      var e := entries[i];
      QuoteIsPaired(e.0);
      PairedConcat(Quote(e.0), [COLON]);
      PairedConcat(Quote(e.0) + [COLON], e.1);
      hide Paired, Quote;
    }
    JoinIsPaired(texts);
  }

  lemma BracketsArePaired(open: Unit, inner: Text, close: Unit)
    requires Paired(inner) && open < 0xD800 && close < 0xD800
    ensures Paired([open] + inner + [close])
  {
    PlainIsPaired([open]);
    PlainIsPaired([close]);
    PairedConcat([open], inner);
    PairedConcat([open] + inner, [close]);
  }

  lemma ScalarIsPaired(j: Json)
    requires !j.Arr? && !j.Obj?
    ensures Paired(Stringify(j))
  {
    if j.Str? { QuoteIsPaired(j.s); } else { PlainIsPaired(Stringify(j)); }
  }

  /** Whatever the strings contain, lone surrogates among them. */
  lemma {:induction false} StringifyIsPaired(j: Json)
    ensures Paired(Stringify(j))
    decreases j
  {
    match j
    case Arr(items) =>
      forall i | 0 <= i < |items| ensures Paired(Strings(items)[i]) {
        StringAt(items, i);
        StringifyIsPaired(items[i]);
      }
      JoinIsPaired(Strings(items));
      BracketsArePaired(OPEN_ARRAY, Join(Strings(items)), CLOSE_ARRAY);
    case Obj(members) =>
      forall i | 0 <= i < |members| ensures Paired(MemberStrings(members)[i].1) {
        MemberStringAt(members, i);
        StringifyIsPaired(members[i].value);
      }
      MembersArePaired(MemberStrings(members));
      BracketsArePaired(OPEN_OBJECT, Join(MemberTexts(MemberStrings(members))), CLOSE_OBJECT);
    case _ => ScalarIsPaired(j);
  }

  lemma {:induction false} StringAt(items: seq<Json>, i: nat)
    requires i < |items|
    ensures Strings(items)[i] == Stringify(items[i])
    decreases |items|
  {
    if i > 0 { StringAt(items[1..], i - 1); }
  }

  lemma {:induction false} MemberStringAt(members: seq<Member>, i: nat)
    requires i < |members|
    ensures MemberStrings(members)[i] == (members[i].key, Stringify(members[i].value))
    decreases |members|
  {
    if i > 0 { MemberStringAt(members[1..], i - 1); }
  }

  /** The same of the canonical text: what is signed loses nothing in UTF-8. */
  lemma {:induction false} CanonicalIsPaired(j: Json)
    ensures Paired(Canonical(j))
    decreases j
  {
    match j
    case Arr(items) =>
      forall i | 0 <= i < |items| ensures Paired(Canonicals(items)[i]) {
        MeaningAt(items, i);
        CanonicalIsPaired(items[i]);
      }
      JoinIsPaired(Canonicals(items));
      BracketsArePaired(OPEN_ARRAY, Join(Canonicals(items)), CLOSE_ARRAY);
    case Obj(members) =>
      var entries := MemberCanonicals(members);
      forall i | 0 <= i < |entries| ensures Paired(entries[i].1) {
        MemberMeaningAt(members, i);
        CanonicalIsPaired(members[i].value);
      }
      forall i | 0 <= i < |SortByKey(entries)| ensures Paired(SortByKey(entries)[i].1) {
        SortedElement(entries, i);
      }
      MembersArePaired(SortByKey(entries));
      BracketsArePaired(OPEN_OBJECT, Join(MemberTexts(SortByKey(entries))), CLOSE_OBJECT);
    case _ => ScalarIsPaired(j);
  }

  // ---------------------------------------------------------------------------
  // The text itself
  // ---------------------------------------------------------------------------

  /** Lexicographic order by code units. */
  ghost predicate Precedes(a: Text, b: Text) {
    exists k: nat ::
      && k <= |a| && k < |b| && a[..k] == b[..k] && (k == |a| || a[k] < b[k])
  }

  lemma PrefixFirst(a: Text, b: Text, n: nat)
    requires 0 < n <= |a| && n <= |b| && a[..n] == b[..n]
    ensures a[0] == b[0]
  {
    assert a[..n][0] == b[..n][0];
  }

  lemma {:induction false} KeyLessIs(a: Text, b: Text)
    ensures KeyLess(a, b) <==> Precedes(a, b)
  {
    if b != [] && a != [] && a[0] == b[0] {
      KeyLessIs(a[1..], b[1..]);
      if Precedes(a[1..], b[1..]) {
        var k: nat :| k <= |a[1..]| && k < |b[1..]| && a[1..][..k] == b[1..][..k] && (k == |a[1..]| || a[1..][k] < b[1..][k]);
        assert a[..k + 1] == [a[0]] + a[1..][..k] && b[..k + 1] == [b[0]] + b[1..][..k];
        assert k + 1 <= |a| && k + 1 < |b| && (k + 1 == |a| || a[k + 1] < b[k + 1]);
      }
      if Precedes(a, b) {
        var k: nat :| k <= |a| && k < |b| && a[..k] == b[..k] && (k == |a| || a[k] < b[k]);
        assert k > 0 && a[..k][1..] == a[1..][..k - 1] && b[..k][1..] == b[1..][..k - 1];
        var n: nat := k - 1;
        assert n <= |a[1..]| && n < |b[1..]| && (n == |a[1..]| || a[1..][n] < b[1..][n]);
      }
    } else if b != [] {
      var k: nat := 0;
      assert a[..k] == b[..k];
      if a != [] && Precedes(a, b) {
        var n: nat :| n <= |a| && n < |b| && a[..n] == b[..n] && (n == |a| || a[n] < b[n]);
        if n > 0 { PrefixFirst(a, b, n); }
      }
    }
  }

  /** In every object in the value, keys stand in ascending order. */
  ghost predicate KeysAscend(j: Json) {
    match j
    case Arr(items) => forall i :: 0 <= i < |items| ==> KeysAscend(items[i])
    case Obj(members) =>
      && (forall i, k :: 0 <= i < k < |members| ==> Precedes(members[i].key, members[k].key))
      && forall i :: 0 <= i < |members| ==> KeysAscend(members[i].value)
    case _ => true
  }

  lemma {:induction false} SortDeepAscends(j: Json)
    requires WellFormed(j)
    ensures KeysAscend(SortDeep(j))
    decreases j
  {
    match j
    case Arr(items) =>
      forall i | 0 <= i < |items| ensures SortDeeps(items)[i] == SortDeep(items[i]) && KeysAscend(SortDeep(items[i])) {
        SortDeepsAt(items, i);
        SortDeepAscends(items[i]);
      }
    case Obj(members) =>
      var pairs := SortDeepPairs(members);
      var sorted := SortByKey(pairs);
      forall i | 0 <= i < |members| ensures pairs[i] == (members[i].key, SortDeep(members[i].value)) && KeysAscend(pairs[i].1) {
        SortDeepAt(members, i);
        SortDeepAscends(members[i].value);
      }
      SortAscending(pairs);
      var now := FromPairs(sorted);
      forall i, k | 0 <= i < k < |now| ensures Precedes(now[i].key, now[k].key) { KeyLessIs(sorted[i].0, sorted[k].0); }
      forall i | 0 <= i < |now| ensures KeysAscend(now[i].value) { SortedElement(pairs, i); }
    case _ =>
  }

  lemma {:induction false} SortDeepsAt(items: seq<Json>, i: nat)
    requires i < |items|
    ensures SortDeeps(items)[i] == SortDeep(items[i])
  {
    if i > 0 { SortDeepsAt(items[1..], i - 1); }
  }

  /** What canonical text reads as: the value itself, with the keys of all its objects in
      ascending order. */
  lemma CanonicalSortsKeys(j: Json) returns (read: Json)
    requires WellFormed(j)
    ensures Parse(Canonical(j)) == Some(read) && Meaning(read) == Meaning(j) && KeysAscend(read)
  {
    read := SortDeep(j);
    ParseUndoesPrinting(j);
    SortDeepAscends(j);
  }

  /** The seven short escapes; other control characters and lone surrogates by their number,
      in lower case; and everything else as it is, pairs included. */
  lemma EscapesAreTheUsual(u: Unit, low: Unit)
    ensures Escape(34) == [92, 34] && Escape(92) == [92, 92]
    ensures Escape(8) == [92, 98] && Escape(9) == [92, 116] && Escape(10) == [92, 110] && Escape(12) == [92, 102] && Escape(13) == [92, 114]
    ensures Escape(0x1F) == [92, 117, 48, 48, 49, 102] && Escape(0xDEAD) == [92, 117, 100, 101, 97, 100]
    ensures 32 <= u && u != 34 && u != 92 && (u < 0xD800 || u >= 0xE000) ==> Escape(u) == [u]
    ensures 0xD800 <= u < 0xDC00 <= low < 0xE000 ==> QuoteBody([u, low]) == [u, low]
  {
    assert [u, low][2..] == [];
  }
}
