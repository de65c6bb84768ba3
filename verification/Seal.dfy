/** Building a hybrid seal and checking its signatures (packages/esig-core/src/pq-seal.ts). */
module Seal {
  import opened Domain
  import opened Json
  import opened JsonProofs
  import Base64

  type Bytes = seq<Base64.Byte>

  /** The functions of the platform: SHA-256 in lower-case hexadecimal digits, UTF-8, and
      the two signature schemes on raw keys. */
  datatype Platform = Platform(
    sha256Hex: Bytes -> Text,
    utf8: Text -> Bytes,
    fromUtf8: Bytes -> Text,
    edPublic: Bytes -> Bytes,
    edSign: (Bytes, Bytes) -> Bytes,
    edVerify: (Bytes, Bytes, Bytes) -> bool,
    mlPublic: Bytes -> Bytes,
    mlSign: (Bytes, Bytes) -> Bytes,
    mlVerify: (Bytes, Bytes, Bytes) -> bool)

  const ED25519_PUBLIC_LENGTH := 32
  const ED25519_SIGNATURE_LENGTH := 64
  const MLDSA65_PUBLIC_LENGTH := 1952
  const MLDSA65_SIGNATURE_LENGTH := 3309

  predicate IsDigest(t: Text) {
    |t| == 64 && forall i :: 0 <= i < |t| ==> 48 <= t[i] <= 57 || 97 <= t[i] <= 102
  }

  ghost predicate SchemeWorks(
    public: Bytes -> Bytes, sign: (Bytes, Bytes) -> Bytes, verify: (Bytes, Bytes, Bytes) -> bool,
    publicLength: nat, signatureLength: nat)
  {
    && (forall k :: |public(k)| == publicLength)
    && (forall k, m :: |sign(k, m)| == signatureLength && verify(public(k), m, sign(k, m)))
  }

  /** What the platform is trusted for: digests are digests, well-formed text survives
      UTF-8, and what a key signs its public key verifies. */
  ghost predicate Sound(p: Platform) {
    && (forall b :: IsDigest(p.sha256Hex(b)))
    && (forall t {:trigger p.utf8(t)} :: Paired(t) ==> p.fromUtf8(p.utf8(t)) == t)
    && (forall t {:trigger p.utf8(t)} :: t != [] ==> p.utf8(t) != [])
    && SchemeWorks(p.edPublic, p.edSign, p.edVerify, ED25519_PUBLIC_LENGTH, ED25519_SIGNATURE_LENGTH)
    && SchemeWorks(p.mlPublic, p.mlSign, p.mlVerify, MLDSA65_PUBLIC_LENGTH, MLDSA65_SIGNATURE_LENGTH)
  }

  // ---------------------------------------------------------------------------
  // Names and values
  // ---------------------------------------------------------------------------

  const V := Ascii("v")
  const ALG := Ascii("alg")
  const OVER := Ascii("over")
  const DIGEST := Ascii("digest")
  const COVERED_BYTES := Ascii("coveredBytes")
  const SIGNED_AT := Ascii("signedAt")
  const KEY_ID := Ascii("keyId")
  const UUAID := Ascii("uuaid")
  const KEYS := Ascii("keys")
  const SIG := Ascii("sig")
  const ED25519 := Ascii("ed25519")
  const MLDSA65 := Ascii("mldsa65")
  const MLDSA65_FPR := Ascii("mldsa65Fpr")

  const PQ_SEAL_VERSION := 1
  const PQ_SEAL_ALG := Ascii("hybrid-ed25519-ml-dsa-65")
  const SHA256 := Ascii("sha256")

  /** Property access: the member of an object, if there is one. */
  function Get(j: Json, key: Text): Option<Json> {
    if j.Obj? then Find(j.members, key) else None
  }

  function Find(members: seq<Member>, key: Text): Option<Json> {
    if members == [] then None
    else if members[0].key == key then Some(members[0].value)
    else Find(members[1..], key)
  }

  /** The members but one, in their order: `{ sig, ...payload }`. */
  function Without(members: seq<Member>, key: Text): seq<Member> {
    if members == [] then []
    else if members[0].key == key then Without(members[1..], key)
    else [members[0]] + Without(members[1..], key)
  }

  function AsciiChars(t: Text): string {
    seq(|t|, i requires 0 <= i < |t| => if t[i] < 128 then t[i] as char else '?')
  }

  function ToBase64(b: Bytes): Text {
    TextIsAscii(Base64.Encode(b));
    Ascii(Base64.Encode(b))
  }

  lemma TextIsAscii(s: string)
    requires forall i :: 0 <= i < |s| ==> Base64.InText(s[i])
    ensures forall i :: 0 <= i < |s| ==> s[i] as int < 128
  {
  }

  /** `Buffer.from(value, "base64")`, which needs a string. */
  function FromBase64(j: Option<Json>): Option<Bytes> {
    if j.Some? && j.value.Str? then Some(Base64.Decode(AsciiChars(j.value.s))) else None
  }

  lemma Base64RoundTrip(b: Bytes)
    ensures FromBase64(Some(Str(ToBase64(b)))) == Some(b)
  {
    var s := Base64.Encode(b);
    TextIsAscii(s);
    assert AsciiChars(Ascii(s)) == s;
    Base64.RoundTrip(b);
  }

  predicate IsSegmentUnit(u: Unit) {
    48 <= u <= 57 || 65 <= u <= 90 || 97 <= u <= 122 || u == 95 || u == 45
  }

  function SegmentEnd(t: Text): (n: nat)
    ensures n <= |t|
  {
    if t == [] || !IsSegmentUnit(t[0]) then 0 else 1 + SegmentEnd(t[1..])
  }

  /** How many non-empty segments a text consists of, separated by colons. */
  function Segments(t: Text): Option<nat>
    decreases |t|
  {
    var n := SegmentEnd(t);
    if n == 0 then None
    else if n == |t| then Some(1)
    else if t[n] != COLON then None
    else
      var more := Segments(t[n + 1..]);
      if more.None? then None else Some(more.value + 1)
  }

  const UUAID_PREFIX := Ascii("uuaid:")

  predicate IsWellFormedUuaid(j: Json) {
    && j.Str? && |j.s| <= 255 && UUAID_PREFIX <= j.s
    && (Segments(j.s[|UUAID_PREFIX|..]) == Some(3) || Segments(j.s[|UUAID_PREFIX|..]) == Some(4))
  }

  // ---------------------------------------------------------------------------
  // buildPqSeal
  // ---------------------------------------------------------------------------

  datatype SealInput = SealInput(
    digestHex: Text, coveredBytes: int, edKey: Bytes, mlKey: Bytes, signedAt: Text, uuaid: Option<Text>)

  /** The first 32 hexadecimal digits of a digest over both public keys. */
  function KeyId(p: Platform, ed: Bytes, ml: Bytes): Text {
    var d := p.sha256Hex(ed + ml);
    if |d| >= 32 then d[..32] else d
  }

  function PayloadOf(p: Platform, input: SealInput): seq<Member> {
    var ed, ml := p.edPublic(input.edKey), p.mlPublic(input.mlKey);
    [Member(V, Num(PQ_SEAL_VERSION)), Member(ALG, Str(PQ_SEAL_ALG)), Member(OVER, Str(SHA256)),
     Member(DIGEST, Str(input.digestHex)), Member(COVERED_BYTES, Num(input.coveredBytes)),
     Member(SIGNED_AT, Str(input.signedAt)), Member(KEY_ID, Str(KeyId(p, ed, ml)))]
    + (if input.uuaid.Some? then [Member(UUAID, Str(input.uuaid.value))] else [])
    + [Member(KEYS, Obj([Member(ED25519, Str(ToBase64(ed))), Member(MLDSA65, Str(ToBase64(ml))),
                         Member(MLDSA65_FPR, Str(p.sha256Hex(ml)))]))]
  }

  /** What both schemes sign: the canonical text of the seal without its signatures. */
  function SigningInput(p: Platform, payload: seq<Member>): Bytes {
    p.utf8(Canonical(Obj(payload)))
  }

  function SignaturesOf(p: Platform, input: SealInput, signed: Bytes): Json {
    Obj([Member(ED25519, Str(ToBase64(p.edSign(input.edKey, signed)))),
         Member(MLDSA65, Str(ToBase64(p.mlSign(input.mlKey, signed))))])
  }

  /** None stands for the three errors that the program throws. */
  function BuildPqSeal(p: Platform, input: SealInput): Option<Json> {
    if !IsDigest(input.digestHex) || input.coveredBytes <= 0
       || (input.uuaid.Some? && !IsWellFormedUuaid(Str(input.uuaid.value)))
    then None
    else
      var payload := PayloadOf(p, input);
      Some(Obj(payload + [Member(SIG, SignaturesOf(p, input, SigningInput(p, payload)))]))
  }

  // ---------------------------------------------------------------------------
  // verifyPqSealSignatures
  // ---------------------------------------------------------------------------

  datatype SealChecks = SealChecks(ed25519: bool, mldsa65: bool, fingerprintOk: bool, keyIdOk: bool, uuaidOk: bool)

  const NO_CHECKS := SealChecks(false, false, false, false, false)

  predicate AllOk(c: SealChecks) {
    c.ed25519 && c.mldsa65 && c.fingerprintOk && c.keyIdOk && c.uuaidOk
  }

  function GetIn(j: Json, outer: Text, inner: Text): Option<Json> {
    if Get(j, outer).Some? then Get(Get(j, outer).value, inner) else None
  }

  function VerifyPqSealSignatures(p: Platform, seal: Json): SealChecks {
    var edPub, mlPub := FromBase64(GetIn(seal, KEYS, ED25519)), FromBase64(GetIn(seal, KEYS, MLDSA65));
    var edSig, mlSig := FromBase64(GetIn(seal, SIG, ED25519)), FromBase64(GetIn(seal, SIG, MLDSA65));
    if !seal.Obj? || Get(seal, V) != Some(Num(PQ_SEAL_VERSION)) || Get(seal, ALG) != Some(Str(PQ_SEAL_ALG))
       || Get(seal, OVER) != Some(Str(SHA256))
       || edPub.None? || mlPub.None? || edSig.None? || mlSig.None?
       || |edPub.value| != ED25519_PUBLIC_LENGTH || |mlPub.value| != MLDSA65_PUBLIC_LENGTH
       || |edSig.value| != ED25519_SIGNATURE_LENGTH || |mlSig.value| != MLDSA65_SIGNATURE_LENGTH
    then NO_CHECKS
    else
      var signed := SigningInput(p, Without(seal.members, SIG));
      SealChecks(
        p.edVerify(edPub.value, signed, edSig.value),
        p.mlVerify(mlPub.value, signed, mlSig.value),
        GetIn(seal, KEYS, MLDSA65_FPR) == Some(Str(p.sha256Hex(mlPub.value))),
        Get(seal, KEY_ID) == Some(Str(KeyId(p, edPub.value, mlPub.value))),
        Get(seal, UUAID).None? || IsWellFormedUuaid(Get(seal, UUAID).value))
  }

  // ---------------------------------------------------------------------------
  // What is built verifies
  // ---------------------------------------------------------------------------

  lemma NamesDiffer()
    ensures |V| == 1 && |ALG| == |SIG| == 3 && ALG[0] == 97 && SIG[0] == 115
    ensures |OVER| == |KEYS| == 4 && OVER[0] == 111 && KEYS[0] == 107
    ensures |KEY_ID| == |UUAID| == 5 && KEY_ID[0] == 107 && UUAID[0] == 117
    ensures |DIGEST| == 6 && |SIGNED_AT| == 8 && |COVERED_BYTES| == 12
    ensures |ED25519| == |MLDSA65| == 7 && ED25519[0] == 101 && MLDSA65[0] == 109 && |MLDSA65_FPR| == 10
  {
  }

  lemma {:induction false} FindAt(members: seq<Member>, i: nat)
    requires i < |members| && DistinctMembers(members)
    ensures Find(members, members[i].key) == Some(members[i].value)
  {
    if i > 0 {
      assert members[0].key != members[i].key;
      FindAt(members[1..], i - 1);
    }
  }

  lemma {:induction false} FindNone(members: seq<Member>, key: Text)
    requires forall i :: 0 <= i < |members| ==> members[i].key != key
    ensures Find(members, key).None? && Without(members, key) == members
  {
    if members != [] { FindNone(members[1..], key); }
  }

  lemma {:induction false} WithoutLast(members: seq<Member>, m: Member)
    requires forall i :: 0 <= i < |members| ==> members[i].key != m.key
    ensures Without(members + [m], m.key) == members
  {
    if members == [] {
      assert ([] + [m])[1..] == [];
    } else {
      WithoutLast(members[1..], m);
      assert (members + [m])[1..] == members[1..] + [m];
    }
  }

  lemma PayloadIsDistinct(p: Platform, input: SealInput, sig: Json)
    ensures DistinctMembers(PayloadOf(p, input) + [Member(SIG, sig)])
    ensures forall i :: 0 <= i < |PayloadOf(p, input)| ==> PayloadOf(p, input)[i].key != SIG
  {
    NamesDiffer();
    hide ToBase64, KeyId;
  }

  lemma InnerAreDistinct(a: Json, b: Json, c: Json)
    ensures DistinctMembers([Member(ED25519, a), Member(MLDSA65, b), Member(MLDSA65_FPR, c)])
    ensures DistinctMembers([Member(ED25519, a), Member(MLDSA65, b)])
    ensures Get(Obj([Member(ED25519, a), Member(MLDSA65, b), Member(MLDSA65_FPR, c)]), ED25519) == Some(a)
    ensures Get(Obj([Member(ED25519, a), Member(MLDSA65, b), Member(MLDSA65_FPR, c)]), MLDSA65) == Some(b)
    ensures Get(Obj([Member(ED25519, a), Member(MLDSA65, b), Member(MLDSA65_FPR, c)]), MLDSA65_FPR) == Some(c)
    ensures Get(Obj([Member(ED25519, a), Member(MLDSA65, b)]), ED25519) == Some(a)
    ensures Get(Obj([Member(ED25519, a), Member(MLDSA65, b)]), MLDSA65) == Some(b)
  {
    NamesDiffer();
    var three := [Member(ED25519, a), Member(MLDSA65, b), Member(MLDSA65_FPR, c)];
    var two := [Member(ED25519, a), Member(MLDSA65, b)];
    FindAt(three, 0);
    FindAt(three, 1);
    FindAt(three, 2);
    FindAt(two, 0);
    FindAt(two, 1);
  }

  /** What the fields of a built seal are. */
  lemma BuiltFields(p: Platform, input: SealInput, sig: Json)
    ensures var seal := Obj(PayloadOf(p, input) + [Member(SIG, sig)]);
            var ed, ml := p.edPublic(input.edKey), p.mlPublic(input.mlKey);
            && Get(seal, V) == Some(Num(PQ_SEAL_VERSION)) && Get(seal, ALG) == Some(Str(PQ_SEAL_ALG))
            && Get(seal, OVER) == Some(Str(SHA256)) && Get(seal, DIGEST) == Some(Str(input.digestHex))
            && Get(seal, COVERED_BYTES) == Some(Num(input.coveredBytes))
            && Get(seal, SIGNED_AT) == Some(Str(input.signedAt))
            && Get(seal, KEY_ID) == Some(Str(KeyId(p, ed, ml)))
            && Get(seal, UUAID) == (if input.uuaid.Some? then Some(Str(input.uuaid.value)) else None)
            && Get(seal, KEYS) == Some(Obj([Member(ED25519, Str(ToBase64(ed))), Member(MLDSA65, Str(ToBase64(ml))),
                                            Member(MLDSA65_FPR, Str(p.sha256Hex(ml)))]))
            && Get(seal, SIG) == Some(sig)
            && Without(seal.members, SIG) == PayloadOf(p, input)
  {
    var members := PayloadOf(p, input) + [Member(SIG, sig)];
    PayloadIsDistinct(p, input, sig);
    WithoutLast(PayloadOf(p, input), Member(SIG, sig));
    hide DistinctMembers, Without, Find, ToBase64, KeyId;
    FindAt(members, 0);
    FindAt(members, 1);
    FindAt(members, 2);
    FindAt(members, 3);
    FindAt(members, 4);
    FindAt(members, 5);
    FindAt(members, 6);
    if input.uuaid.Some? {
      FindAt(members, 7);
      FindAt(members, 8);
      FindAt(members, 9);
    } else {
      FindAt(members, 7);
      FindAt(members, 8);
      NamesDiffer();
      FindNone(members, UUAID);
    }
  }

  /** Whatever keys, digest, length, time and identity went in: both signatures, the
      fingerprint, the key id and the identity of a built seal check. */
  lemma BuiltSealVerifies(p: Platform, input: SealInput)
    requires Sound(p) && BuildPqSeal(p, input).Some?
    ensures AllOk(VerifyPqSealSignatures(p, BuildPqSeal(p, input).value))
  {
    var seal := BuildPqSeal(p, input).value;
    var payload := PayloadOf(p, input);
    var signed := SigningInput(p, payload);
    var ed, ml := p.edPublic(input.edKey), p.mlPublic(input.mlKey);
    var edSig, mlSig := p.edSign(input.edKey, signed), p.mlSign(input.mlKey, signed);
    BuiltFields(p, input, SignaturesOf(p, input, signed));
    InnerAreDistinct(Str(ToBase64(ed)), Str(ToBase64(ml)), Str(p.sha256Hex(ml)));
    InnerAreDistinct(Str(ToBase64(edSig)), Str(ToBase64(mlSig)), Null);
    Base64RoundTrip(ed);
    Base64RoundTrip(ml);
    Base64RoundTrip(edSig);
    Base64RoundTrip(mlSig);
    assert p.edVerify(ed, signed, edSig) && p.mlVerify(ml, signed, mlSig);
    hide PayloadOf, SigningInput, Get, FromBase64, ToBase64, KeyId, IsWellFormedUuaid, Without, DistinctMembers;
  }

  /** A built seal is a value that both printers print faithfully. */
  lemma BuiltSealIsWellFormed(p: Platform, input: SealInput)
    requires BuildPqSeal(p, input).Some? && IsSafeInteger(input.coveredBytes)
    ensures WellFormed(BuildPqSeal(p, input).value)
  {
    var payload := PayloadOf(p, input);
    var sig := SignaturesOf(p, input, SigningInput(p, payload));
    PayloadIsDistinct(p, input, sig);
    InnerAreDistinct(Null, Null, Null);
    NamesDiffer();
    hide ToBase64, KeyId, SigningInput, IsWellFormedUuaid, IsDigest;
    var members := payload + [Member(SIG, sig)];
    forall i | 0 <= i < |members| ensures WellFormed(members[i].value) {
    }
  }

  // ---------------------------------------------------------------------------
  // What a signature binds
  // ---------------------------------------------------------------------------

  /** What a field of an object means; None if it is absent. */
  function FieldMeaning(j: Json, key: Text): Option<Tree> {
    if Get(j, key).Some? then Some(Meaning(Get(j, key).value)) else None
  }

  /** Two seals that differ in their signatures at most. */
  ghost predicate SameFields(a: Json, b: Json) {
    forall key: Text :: key != SIG ==> FieldMeaning(a, key) == FieldMeaning(b, key)
  }

  /** One key, one signature, two messages that it verifies: what a signature scheme is
      there to prevent. */
  predicate SignsTwo(verify: (Bytes, Bytes, Bytes) -> bool, key: Bytes, sig: Bytes, m: Bytes, m': Bytes) {
    m != m' && verify(key, m, sig) && verify(key, m', sig)
  }

  function SignedBytes(p: Platform, seal: Json): Bytes
    requires seal.Obj?
  {
    SigningInput(p, Without(seal.members, SIG))
  }

  lemma {:induction false} WithoutKeepsDistinct(members: seq<Member>, key: Text)
    requires DistinctMembers(members) && forall i :: 0 <= i < |members| ==> WellFormed(members[i].value)
    ensures forall m :: m in Without(members, key) ==> m in members && m.key != key
    ensures WellFormed(Obj(Without(members, key)))
  {
    if members != [] {
      WithoutKeepsDistinct(members[1..], key);
      var rest := Without(members[1..], key);
      forall i | 0 <= i < |rest| ensures rest[i].key != members[0].key {
        assert rest[i] in rest;
        var k :| 0 <= k < |members[1..]| && members[1..][k] == rest[i];
        assert members[k + 1] == rest[i];
      }
    }
  }

  /** An object means the map of its fields. */
  lemma {:induction false} MeaningAtKey(m: map<Text, Tree>, members: seq<Member>, key: Text)
    requires DistinctMembers(members)
    ensures var all := Extend(m, MemberMeanings(members));
            if Find(members, key).Some? then key in all && all[key] == Meaning(Find(members, key).value)
            else (key in all <==> key in m) && (key in m ==> all[key] == m[key])
    decreases |members|
  {
    if members != [] {
      var first, now := members[0], m[members[0].key := Meaning(members[0].value)];
      assert MemberMeanings(members)[1..] == MemberMeanings(members[1..]);
      MeaningAtKey(now, members[1..], key);
      if first.key == key { FindNone(members[1..], key); }
    }
  }

  lemma {:induction false} FindWithout(members: seq<Member>, key: Text, other: Text)
    ensures Find(Without(members, other), key) == if key == other then None else Find(members, key)
  {
    if members != [] { FindWithout(members[1..], key, other); }
  }

  /** Two payloads mean the same exactly when all their fields do. */
  lemma PayloadMeansItsFields(a: Json, b: Json)
    requires a.Obj? && b.Obj? && WellFormed(a) && WellFormed(b)
    ensures Meaning(Obj(Without(a.members, SIG))) == Meaning(Obj(Without(b.members, SIG))) <==> SameFields(a, b)
  {
    var xs, ys := Without(a.members, SIG), Without(b.members, SIG);
    WithoutKeepsDistinct(a.members, SIG);
    WithoutKeepsDistinct(b.members, SIG);
    var m, n := Extend(map[], MemberMeanings(xs)), Extend(map[], MemberMeanings(ys));
    forall key: Text
      ensures Lookup(m, key) == if key == SIG then None else FieldMeaning(a, key)
      ensures Lookup(n, key) == if key == SIG then None else FieldMeaning(b, key)
    {
      MeaningAtKey(map[], xs, key);
      MeaningAtKey(map[], ys, key);
      FindWithout(a.members, key, SIG);
      FindWithout(b.members, key, SIG);
      hide Find, Without, Extend, MemberMeanings, Meaning, WellFormed;
    }
    hide Find, Without, Extend, MemberMeanings, WellFormed, FieldMeaning;
    if SameFields(a, b) {
      forall key: Text ensures key in m <==> key in n {
        assert Lookup(m, key) == Lookup(n, key);
      }
      forall key | key in m ensures m[key] == n[key] {
        assert Lookup(m, key) == Lookup(n, key);
      }
      assert m == n;
    } else {
      var key: Text :| key != SIG && FieldMeaning(a, key) != FieldMeaning(b, key);
      assert Lookup(m, key) != Lookup(n, key);
    }
  }

  /** What is signed determines every field but the signatures, and is determined by them. */
  lemma SignedBytesIffSameFields(p: Platform, a: Json, b: Json)
    requires Sound(p) && a.Obj? && b.Obj? && WellFormed(a) && WellFormed(b)
    ensures SignedBytes(p, a) == SignedBytes(p, b) <==> SameFields(a, b)
  {
    var x, y := Obj(Without(a.members, SIG)), Obj(Without(b.members, SIG));
    WithoutKeepsDistinct(a.members, SIG);
    WithoutKeepsDistinct(b.members, SIG);
    hide WellFormed, Without, Canonical, Meaning, SameFields;
    PayloadMeansItsFields(a, b);
    CanonicalIsPaired(x);
    CanonicalIsPaired(y);
    hide Paired;
    assert p.fromUtf8(p.utf8(Canonical(x))) == Canonical(x) && p.fromUtf8(p.utf8(Canonical(y))) == Canonical(y);
    CanonicalIffSameMeaning(x, y);
  }

  /** The keys and signatures that a seal carries. */
  function Carried(seal: Json, outer: Text, scheme: Text): Bytes {
    var b := FromBase64(GetIn(seal, outer, scheme));
    if b.Some? then b.value else []
  }

  lemma ChecksCoverSignedBytes(p: Platform, seal: Json)
    requires AllOk(VerifyPqSealSignatures(p, seal))
    ensures seal.Obj?
    ensures p.edVerify(Carried(seal, KEYS, ED25519), SignedBytes(p, seal), Carried(seal, SIG, ED25519))
    ensures p.mlVerify(Carried(seal, KEYS, MLDSA65), SignedBytes(p, seal), Carried(seal, SIG, MLDSA65))
  {
    hide FromBase64, GetIn, Get, IsWellFormedUuaid, KeyId, SigningInput, Without;
  }

  /** Two seals that check agree in every field, if either scheme's key and signature are
      the same in both; or else that key has signed two messages with one signature, and
      the two messages are what the seals sign. No field can be added, removed or changed. */
  lemma SignatureBindsFields(p: Platform, a: Json, b: Json)
    requires Sound(p) && WellFormed(a) && WellFormed(b)
    requires AllOk(VerifyPqSealSignatures(p, a)) && AllOk(VerifyPqSealSignatures(p, b))
    ensures a.Obj? && b.Obj? && (SignedBytes(p, a) == SignedBytes(p, b) <==> SameFields(a, b))
    ensures Carried(a, KEYS, ED25519) == Carried(b, KEYS, ED25519) && Carried(a, SIG, ED25519) == Carried(b, SIG, ED25519) ==>
              || SameFields(a, b)
              || SignsTwo(p.edVerify, Carried(a, KEYS, ED25519), Carried(a, SIG, ED25519), SignedBytes(p, a), SignedBytes(p, b))
    ensures Carried(a, KEYS, MLDSA65) == Carried(b, KEYS, MLDSA65) && Carried(a, SIG, MLDSA65) == Carried(b, SIG, MLDSA65) ==>
              || SameFields(a, b)
              || SignsTwo(p.mlVerify, Carried(a, KEYS, MLDSA65), Carried(a, SIG, MLDSA65), SignedBytes(p, a), SignedBytes(p, b))
  {
    ChecksCoverSignedBytes(p, a);
    ChecksCoverSignedBytes(p, b);
    SignedBytesIffSameFields(p, a, b);
    hide VerifyPqSealSignatures, Carried, SignedBytes, SameFields, WellFormed, Sound;
  }

  // ---------------------------------------------------------------------------
  // What a seal says
  // ---------------------------------------------------------------------------

  /** The identity of a pair of keys: 32 digits of the digest over the Ed25519 key followed
      by the ML-DSA key, and the whole digest over the latter. */
  ghost predicate NamesKeys(p: Platform, seal: Json, ed: Bytes, ml: Bytes) {
    && |p.sha256Hex(ed + ml)| >= 32
    && Get(seal, KEY_ID) == Some(Str(p.sha256Hex(ed + ml)[..32]))
    && GetIn(seal, KEYS, MLDSA65_FPR) == Some(Str(p.sha256Hex(ml)))
    && Carried(seal, KEYS, ED25519) == ed && Carried(seal, KEYS, MLDSA65) == ml
  }

  /** A seal is built exactly for 64 lower-case hexadecimal digits, a positive length, and no
      identity or one of the right shape. */
  lemma BuildsIff(p: Platform, input: SealInput)
    ensures BuildPqSeal(p, input).Some? <==>
              && |input.digestHex| == 64
              && (forall i :: 0 <= i < 64 ==> 48 <= input.digestHex[i] <= 57 || 97 <= input.digestHex[i] <= 102)
              && 0 < input.coveredBytes && (input.uuaid.Some? ==> IsUuaid(input.uuaid.value))
  {
    if input.uuaid.Some? { UuaidIff(input.uuaid.value); }
    hide PayloadOf, SigningInput, SignaturesOf, IsUuaid, IsWellFormedUuaid;
  }

  /** A built seal says what was asked for, names the public keys of the keys that it was
      built with, and carries what these keys sign of everything else in it. */
  lemma BuiltSealSays(p: Platform, input: SealInput)
    requires Sound(p) && BuildPqSeal(p, input).Some?
    ensures var seal := BuildPqSeal(p, input).value;
            && seal.Obj?
            && Get(seal, DIGEST) == Some(Str(input.digestHex)) && Get(seal, COVERED_BYTES) == Some(Num(input.coveredBytes))
            && Get(seal, SIGNED_AT) == Some(Str(input.signedAt))
            && Get(seal, UUAID) == (if input.uuaid.Some? then Some(Str(input.uuaid.value)) else None)
            && NamesKeys(p, seal, p.edPublic(input.edKey), p.mlPublic(input.mlKey))
            && Carried(seal, SIG, ED25519) == p.edSign(input.edKey, SignedBytes(p, seal))
            && Carried(seal, SIG, MLDSA65) == p.mlSign(input.mlKey, SignedBytes(p, seal))
  {
    var seal := BuildPqSeal(p, input).value;
    var signed := SigningInput(p, PayloadOf(p, input));
    var ed, ml := p.edPublic(input.edKey), p.mlPublic(input.mlKey);
    var edSig, mlSig := p.edSign(input.edKey, signed), p.mlSign(input.mlKey, signed);
    BuiltFields(p, input, SignaturesOf(p, input, signed));
    InnerAreDistinct(Str(ToBase64(ed)), Str(ToBase64(ml)), Str(p.sha256Hex(ml)));
    InnerAreDistinct(Str(ToBase64(edSig)), Str(ToBase64(mlSig)), Null);
    Base64RoundTrip(ed);
    Base64RoundTrip(ml);
    Base64RoundTrip(edSig);
    Base64RoundTrip(mlSig);
    assert IsDigest(p.sha256Hex(ed + ml));
    hide PayloadOf, SigningInput, Get, FromBase64, ToBase64, IsWellFormedUuaid, Without, DistinctMembers, Sound;
  }

  /** A seal that passes names the keys that it carries, whoever made it: nobody else's
      identity can be put beside a key. */
  lemma PassingSealNamesItsKeys(p: Platform, seal: Json)
    requires Sound(p) && AllOk(VerifyPqSealSignatures(p, seal))
    ensures NamesKeys(p, seal, Carried(seal, KEYS, ED25519), Carried(seal, KEYS, MLDSA65))
    ensures |Carried(seal, KEYS, ED25519)| == 32 && |Carried(seal, KEYS, MLDSA65)| == 1952
    ensures |Carried(seal, SIG, ED25519)| == 64 && |Carried(seal, SIG, MLDSA65)| == 3309
  {
    var ed, ml := Carried(seal, KEYS, ED25519), Carried(seal, KEYS, MLDSA65);
    assert IsDigest(p.sha256Hex(ed + ml));
    hide FromBase64, Get, IsWellFormedUuaid, SigningInput, Without, Sound;
  }

  /** The seal asserts no identity, or one of the right shape. */
  ghost predicate AssertsUuaid(seal: Json) {
    match Get(seal, UUAID)
    case None => true
    case Some(Str(t)) => IsUuaid(t)
    case _ => false
  }

  lemma PassingSealIsOfItsKind(p: Platform, seal: Json)
    requires AllOk(VerifyPqSealSignatures(p, seal))
    ensures AssertsUuaid(seal)
    ensures Get(seal, V) == Some(Num(1)) && Get(seal, ALG) == Some(Str(PQ_SEAL_ALG)) && Get(seal, OVER) == Some(Str(SHA256))
  {
    PassingFields(p, seal);
    hide VerifyPqSealSignatures, Get, IsUuaid, IsWellFormedUuaid, Ascii;
    if Get(seal, UUAID).Some? && Get(seal, UUAID).value.Str? { UuaidIff(Get(seal, UUAID).value.s); }
    OnlyTextIsUuaid();
  }

  lemma OnlyTextIsUuaid()
    ensures forall j: Json :: IsWellFormedUuaid(j) ==> j.Str?
  {
  }

  lemma PassingFields(p: Platform, seal: Json)
    requires AllOk(VerifyPqSealSignatures(p, seal))
    ensures Get(seal, V) == Some(Num(PQ_SEAL_VERSION)) && Get(seal, ALG) == Some(Str(PQ_SEAL_ALG)) && Get(seal, OVER) == Some(Str(SHA256))
    ensures Get(seal, UUAID).Some? ==> IsWellFormedUuaid(Get(seal, UUAID).value)
  {
    hide FromBase64, Get, GetIn, SigningInput, Without, KeyId, IsWellFormedUuaid;
  }

  /** Segments with colons between them. */
  function Joined(segments: seq<Text>): Text {
    if segments == [] then []
    else if |segments| == 1 then segments[0]
    else segments[0] + [COLON] + Joined(segments[1..])
  }

  predicate IsSegment(t: Text) {
    t != [] && forall u :: u in t ==> 48 <= u <= 57 || 65 <= u <= 90 || 97 <= u <= 122 || u == 95 || u == 45
  }

  ghost predicate AreSegments(t: Text, segments: seq<Text>) {
    t == Joined(segments) && forall s :: s in segments ==> IsSegment(s)
  }

  /** "uuaid:" and three or four non-empty segments of letters, digits, `_` and `-`, in at
      most 255 units. */
  ghost predicate IsUuaid(t: Text) {
    && |t| <= 255 && Ascii("uuaid:") <= t
    && exists segments :: (|segments| == 3 || |segments| == 4) && AreSegments(t[6..], segments)
  }

  lemma {:induction false} SegmentEndsAt(t: Text, s: Text, rest: Text)
    requires t == s + rest && IsSegment(s) && (rest != [] ==> rest[0] == COLON)
    ensures SegmentEnd(t) == |s|
  {
    assert s[0] in s && forall u :: u in s[1..] ==> u in s;
    if |s| == 1 {
      assert t[1..] == rest;
    } else {
      assert t[1..] == s[1..] + rest;
      SegmentEndsAt(t[1..], s[1..], rest);
    }
  }

  lemma {:induction false} SegmentsOfJoined(t: Text, segments: seq<Text>)
    requires AreSegments(t, segments) && segments != []
    ensures Segments(t) == Some(|segments|)
  {
    assert segments[0] in segments;
    if |segments| == 1 {
      SegmentEndsAt(t, t, []);
    } else {
      var rest := Joined(segments[1..]);
      assert t == segments[0] + ([COLON] + rest);
      SegmentEndsAt(t, segments[0], [COLON] + rest);
      assert t[|segments[0]| + 1..] == rest;
      SegmentsOfJoined(rest, segments[1..]);
    }
  }

  lemma {:induction false} SegmentEndIs(t: Text)
    ensures SegmentEnd(t) > 0 ==> IsSegment(t[..SegmentEnd(t)])
  {
    if t != [] && IsSegmentUnit(t[0]) {
      SegmentEndIs(t[1..]);
      assert t[..SegmentEnd(t)] == [t[0]] + t[1..][..SegmentEnd(t[1..])];
    }
  }

  lemma {:induction false} JoinedOfSegments(t: Text) returns (segments: seq<Text>)
    requires Segments(t).Some?
    ensures AreSegments(t, segments) && |segments| == Segments(t).value && segments != []
    decreases |t|
  {
    var n := SegmentEnd(t);
    SegmentEndIs(t);
    if n == |t| {
      segments := [t];
      assert t[..n] == t;
    } else {
      var rest := JoinedOfSegments(t[n + 1..]);
      segments := [t[..n]] + rest;
      assert segments[1..] == rest && t == t[..n] + [COLON] + t[n + 1..];
    }
  }

  lemma UuaidIff(t: Text)
    ensures IsWellFormedUuaid(Str(t)) <==> IsUuaid(t)
  {
    assert |UUAID_PREFIX| == 6 && UUAID_PREFIX == Ascii("uuaid:");
    if IsWellFormedUuaid(Str(t)) { var segments := JoinedOfSegments(t[6..]); }
    if IsUuaid(t) {
      var segments :| (|segments| == 3 || |segments| == 4) && AreSegments(t[6..], segments);
      SegmentsOfJoined(t[6..], segments);
    }
  }

  // ---------------------------------------------------------------------------
  // Altering a seal
  // ---------------------------------------------------------------------------

  /** The seal with one of its members given another value. */
  function Altered(seal: Json, i: nat, value: Json): Json
    requires seal.Obj? && i < |seal.members|
  {
    Obj(seal.members[i := Member(seal.members[i].key, value)])
  }

  lemma {:induction false} FindAltered(members: seq<Member>, i: nat, value: Json, key: Text)
    requires DistinctMembers(members) && i < |members|
    ensures var now := members[i := Member(members[i].key, value)];
            DistinctMembers(now) && Find(now, key) == if key == members[i].key then Some(value) else Find(members, key)
  {
    var now := members[i := Member(members[i].key, value)];
    assert DistinctMembers(now);
    if i > 0 {
      assert now[1..] == members[1..][i - 1 := Member(members[i].key, value)];
      FindAltered(members[1..], i - 1, value, key);
    } else {
      assert now[1..] == members[1..];
    }
  }

  /** Whatever field of a passing seal is altered, beside its keys and signatures: the seal
      fails, or both of its keys have signed two messages with one signature. */
  lemma AlteredFieldIsRefused(p: Platform, seal: Json, i: nat, value: Json)
    requires Sound(p) && WellFormed(seal) && AllOk(VerifyPqSealSignatures(p, seal)) && seal.Obj?
    requires i < |seal.members| && seal.members[i].key != SIG && seal.members[i].key != KEYS
    requires WellFormed(value) && Meaning(value) != Meaning(seal.members[i].value)
    ensures AllOk(VerifyPqSealSignatures(p, Altered(seal, i, value))) ==>
              var m, m' := SignedBytes(p, seal), SignedBytes(p, Altered(seal, i, value));
              && SignsTwo(p.edVerify, Carried(seal, KEYS, ED25519), Carried(seal, SIG, ED25519), m, m')
              && SignsTwo(p.mlVerify, Carried(seal, KEYS, MLDSA65), Carried(seal, SIG, MLDSA65), m, m')
  {
    var now, key := Altered(seal, i, value), seal.members[i].key;
    FindAltered(seal.members, i, value, key);
    FindAltered(seal.members, i, value, SIG);
    FindAltered(seal.members, i, value, KEYS);
    FindAt(seal.members, i);
    assert WellFormed(now);
    assert FieldMeaning(seal, key) != FieldMeaning(now, key);
    assert Get(now, KEYS) == Get(seal, KEYS) && Get(now, SIG) == Get(seal, SIG);
    hide Get, Find, FieldMeaning, Meaning, WellFormed, VerifyPqSealSignatures, SignedBytes, FromBase64, Sound, Altered, DistinctMembers;
    if AllOk(VerifyPqSealSignatures(p, now)) {
      SignatureBindsFields(p, seal, now);
    }
  }

  // ---------------------------------------------------------------------------
  // A sound platform
  // ---------------------------------------------------------------------------

  /** Each unit in two bytes. */
  function UnitBytes(t: Text): Bytes {
    if t == [] then [] else [t[0] / 256, t[0] % 256] + UnitBytes(t[1..])
  }

  function BytesUnits(b: Bytes): Text {
    if |b| < 2 then [] else [b[0] as int * 256 + b[1] as int] + BytesUnits(b[2..])
  }

  lemma {:induction false} UnitsReadBack(t: Text)
    ensures BytesUnits(UnitBytes(t)) == t
  {
    if t != [] {
      UnitsReadBack(t[1..]);
      assert UnitBytes(t)[2..] == UnitBytes(t[1..]);
    }
  }

  function Zeros(n: nat): Bytes {
    seq(n, _ => 0)
  }

  /** The laws of a sound platform do not contradict each other. */
  lemma SoundPlatformExists() returns (p: Platform)
    ensures Sound(p)
  {
    p := Platform(
      _ => seq(64, _ => 48), UnitBytes, BytesUnits,
      _ => Zeros(ED25519_PUBLIC_LENGTH), (_, _) => Zeros(ED25519_SIGNATURE_LENGTH), (_, _, _) => true,
      _ => Zeros(MLDSA65_PUBLIC_LENGTH), (_, _) => Zeros(MLDSA65_SIGNATURE_LENGTH), (_, _, _) => true);
    forall t: Text ensures p.fromUtf8(p.utf8(t)) == t { UnitsReadBack(t); }
  }
}
