/** Verifying a sealed document (packages/esig-core/src/pq-verify.ts): the verdict that is
    filled step by step, and what an accepted document is. */
module Verdict {
  import opened Domain
  import opened Json
  import opened JsonProofs
  import opened Seal
  import PdfText
  import PdfSeal
  import Base64
  import Der

  /** The bytes of a file's latin1 text. */
  function Latin1(s: string): Bytes {
    seq(|s|, i requires 0 <= i < |s| => s[i] as int % 256)
  }

  /** `extractPqSeal`: the embedded value, if there is one that parses and is not null. */
  function ExtractSeal(p: Platform, pdf: string): Option<Json> {
    var bytes := PdfSeal.Extract(pdf);
    var parsed := if bytes.Some? then Parse(p.fromUtf8(bytes.value)) else None;
    if parsed.Some? && IsFalsy(parsed.value) then None else parsed
  }

  /** What `!seal` rejects. */
  predicate IsFalsy(j: Json) {
    j == Null || j == Bool(false) || j == Num(0) || j == Str([])
  }

  /** What `verifyMlDsaCertificate` says of a certificate, and the fingerprint of its key. */
  datatype Certificate = Certificate(valid: bool, fingerprint: Text)

  datatype Options = Options(
    expectedMldsa65Fpr: Option<Text>, signerCert: Option<Certificate>, expectedUuaid: Option<Text>, requirePq: bool)

  datatype Complaint =
    | NoSeal | OutOfRange | DigestDiffers
    | Ed25519Invalid | Mldsa65Invalid | FingerprintInconsistent | KeyIdInconsistent | UuaidMalformed
    | FingerprintUnexpected | UuaidMissing | UuaidUnexpected | CertificateMismatch
    | CoversBeyondSignature | SealRequired

  class PqSealVerdict {
    var present: bool
    var ok: bool
    var digestBinds: bool
    var checks: SealChecks
    var uuaidMatches: Option<bool>
    var certIdentityOk: Option<bool>
    var coveredBytes: Option<Json>
    var failures: seq<Complaint>

    constructor (present: bool, coveredBytes: Option<Json>, failures: seq<Complaint>)
      ensures this.present == present && !ok && !digestBinds && checks == NO_CHECKS
      ensures this.coveredBytes == coveredBytes && this.failures == failures
    {
      this.present, this.ok, this.digestBinds, this.checks := present, false, false, NO_CHECKS;
      this.uuaidMatches, this.certIdentityOk := None, None;
      this.coveredBytes, this.failures := coveredBytes, failures;
    }
  }

  // ---------------------------------------------------------------------------
  // What an accepted seal is
  // ---------------------------------------------------------------------------

  /** The seal covers a non-empty prefix that is there, and its digest is that prefix's. */
  predicate BindsDocument(p: Platform, pdf: string, seal: Json) {
    match Get(seal, COVERED_BYTES)
    case Some(Num(n)) =>
      0 < n <= |pdf| && Get(seal, DIGEST) == Some(Str(p.sha256Hex(Latin1(pdf[..n]))))
    case _ => false
  }

  function Lower(u: Unit): Unit {
    if 65 <= u <= 90 then u + 32 else u
  }

  function ToLowerCase(t: Text): Text {
    seq(|t|, i requires 0 <= i < |t| => Lower(t[i]))
  }

  function FingerprintOf(seal: Json): Text {
    match GetIn(seal, KEYS, MLDSA65_FPR)
    case Some(Str(t)) => t
    case _ => []
  }

  predicate Asked(t: Option<Text>) {
    t.Some? && t.value != []
  }

  const TO_STRING := Ascii("toString")

  /** A value that a template literal cannot convert: an object whose own `toString` hides
      the inherited one, which no value of JSON can be called instead of, or an array with
      such an element. */
  predicate Unprintable(j: Json) {
    match j
    case Obj(members) => Find(members, TO_STRING).Some?
    case Arr(items) => exists i :: 0 <= i < |items| && Unprintable(items[i])
    case _ => false
  }

  /** The complaint about the covered length cannot be written. */
  predicate CoversNothingPrintable(seal: Json) {
    Get(seal, COVERED_BYTES).Some? && Unprintable(Get(seal, COVERED_BYTES).value)
  }

  /** `toLowerCase` is asked of something that is neither text nor missing. */
  predicate LowersNoText(seal: Json, opts: Options) {
    var fingerprint := GetIn(seal, KEYS, MLDSA65_FPR);
    Asked(opts.expectedMldsa65Fpr) && fingerprint.Some? && !fingerprint.value.Str? && fingerprint.value != Null
  }

  /** `seal.keys` is undefined or null. An array has a method of that name. */
  predicate HasNoKeys(seal: Json) {
    !seal.Arr? && (Get(seal, KEYS).None? || Get(seal, KEYS) == Some(Null))
  }

  /** A valid certificate is compared with a seal that has no keys. */
  predicate ComparesNoKeys(seal: Json, opts: Options) {
    opts.signerCert.Some? && opts.signerCert.value.valid && HasNoKeys(seal)
  }

  predicate CertMatches(cert: Certificate, seal: Json) {
    cert.valid && GetIn(seal, KEYS, MLDSA65_FPR) == Some(Str(cert.fingerprint))
  }

  /** Every identity that the caller pinned is the seal's; an empty pin asks for nothing. */
  predicate MeetsPins(seal: Json, opts: Options) {
    && (Asked(opts.expectedMldsa65Fpr) ==> ToLowerCase(FingerprintOf(seal)) == ToLowerCase(opts.expectedMldsa65Fpr.value))
    && (Asked(opts.expectedUuaid) ==> Get(seal, UUAID) == Some(Str(opts.expectedUuaid.value)))
    && (opts.signerCert.Some? ==> CertMatches(opts.signerCert.value, seal))
  }

  /** The seal that the file carries binds it, checks and meets the pins. */
  predicate Accepted(p: Platform, pdf: string, opts: Options) {
    var seal := ExtractSeal(p, pdf);
    && seal.Some? && BindsDocument(p, pdf, seal.value)
    && AllOk(VerifyPqSealSignatures(p, seal.value)) && MeetsPins(seal.value, opts)
  }

  /** What is wrong with the covered prefix. */
  predicate IsAbout(p: Platform, pdf: string, seal: Json, c: Complaint)
    requires c == OutOfRange || c == DigestDiffers
  {
    match Get(seal, COVERED_BYTES)
    case Some(Num(n)) =>
      if 0 < n && n <= |pdf| then c == DigestDiffers && Get(seal, DIGEST) != Some(Str(p.sha256Hex(Latin1(pdf[..n])))) else c == OutOfRange
    case _ => c == OutOfRange
  }

  predicate IsBinding(c: Complaint) {
    c == OutOfRange || c == DigestDiffers
  }

  predicate IsUnchecked(checks: SealChecks, c: Complaint) {
    match c
    case Ed25519Invalid => !checks.ed25519
    case Mldsa65Invalid => !checks.mldsa65
    case FingerprintInconsistent => !checks.fingerprintOk
    case KeyIdInconsistent => !checks.keyIdOk
    case UuaidMalformed => !checks.uuaidOk
    case _ => false
  }

  predicate IsUnmet(seal: Json, opts: Options, c: Complaint) {
    match c
    case FingerprintUnexpected =>
      Asked(opts.expectedMldsa65Fpr) && ToLowerCase(FingerprintOf(seal)) != ToLowerCase(opts.expectedMldsa65Fpr.value)
    case UuaidMissing => Asked(opts.expectedUuaid) && Get(seal, UUAID).None?
    case UuaidUnexpected => Asked(opts.expectedUuaid) && Get(seal, UUAID).Some? && Get(seal, UUAID).value != Str(opts.expectedUuaid.value)
    case CertificateMismatch => opts.signerCert.Some? && !CertMatches(opts.signerCert.value, seal)
    case _ => false
  }

  function If(condition: bool, c: Complaint): seq<Complaint> {
    if condition then [c] else []
  }

  function PinComplaints(seal: Json, opts: Options): seq<Complaint> {
    If(IsUnmet(seal, opts, FingerprintUnexpected), FingerprintUnexpected)
    + (If(IsUnmet(seal, opts, UuaidMissing), UuaidMissing) + If(IsUnmet(seal, opts, UuaidUnexpected), UuaidUnexpected))
    + If(IsUnmet(seal, opts, CertificateMismatch), CertificateMismatch)
  }

  lemma PinComplaintsAre(seal: Json, opts: Options)
    ensures forall c :: c in PinComplaints(seal, opts) <==> IsUnmet(seal, opts, c)
    ensures PinComplaints(seal, opts) == [] <==> MeetsPins(seal, opts)
  {
    hide Get, CertMatches, ToLowerCase, FingerprintOf;
  }

  /** Each complaint is made exactly for its own reason. */
  predicate IsDue(p: Platform, pdf: string, seal: Json, opts: Options, c: Complaint) {
    || (IsBinding(c) && IsAbout(p, pdf, seal, c))
    || IsUnchecked(VerifyPqSealSignatures(p, seal), c)
    || IsUnmet(seal, opts, c)
  }

  // ---------------------------------------------------------------------------
  // verifyPqSeal
  // ---------------------------------------------------------------------------

  /** The three seals that verification, documented never to throw, throws on: one that
      covers what has no text form, whatever the options; under a pinned fingerprint, one
      whose own is not text; and under a valid certificate, one without keys. */
  predicate ThrowsOn(seal: Json, opts: Options) {
    CoversNothingPrintable(seal) || LowersNoText(seal, opts) || ComparesNoKeys(seal, opts)
  }

  predicate VerifyThrows(p: Platform, pdf: string, opts: Options) {
    ExtractSeal(p, pdf).Some? && ThrowsOn(ExtractSeal(p, pdf).value, opts)
  }

  /** The verdict is positive exactly for accepted files, and it lists a complaint exactly
      when it is negative: no check is skipped and none fails silently. */
  method VerifyPqSeal(p: Platform, pdf: string, opts: Options) returns (threw: bool, v: PqSealVerdict)
    ensures fresh(v)
    ensures threw <==> VerifyThrows(p, pdf, opts)
    ensures threw ==> !Accepted(p, pdf, opts)
    ensures !threw ==>
              && (v.present <==> ExtractSeal(p, pdf).Some?)
              && (v.ok <==> Accepted(p, pdf, opts))
              && (v.ok ==> v.present)
              && (v.failures == [] <==> v.ok)
    ensures !threw && v.present ==> forall c :: c in v.failures <==> IsDue(p, pdf, ExtractSeal(p, pdf).value, opts, c)
    ensures !threw && !v.present ==> v.failures == [NoSeal]
    ensures !threw && v.present ==>
              && ExtractSeal(p, pdf).Some?
              && v.coveredBytes == Get(ExtractSeal(p, pdf).value, COVERED_BYTES)
              && (v.digestBinds <==> BindsDocument(p, pdf, ExtractSeal(p, pdf).value))
              && v.checks == VerifyPqSealSignatures(p, ExtractSeal(p, pdf).value)
  {
    hide ExtractSeal, VerifyPqSealSignatures, Get, GetIn, MeetsPins, BindsDocument, AllOk, LowersNoText, ComparesNoKeys,
      CoversNothingPrintable;
    var found := ExtractSeal(p, pdf);
    if found.None? {
      v := new PqSealVerdict(false, None, [NoSeal]);
      return false, v;
    }
    var seal := found.value;
    v := new PqSealVerdict(true, Get(seal, COVERED_BYTES), []);
    if ThrowsOn(seal, opts) { ThrowsOnNoGoodSeal(p, pdf, seal, opts); }

    threw := BindDocument(v, p, pdf, seal);
    if threw { return true, v; }
    CheckSignatures(v, p, seal);
    var identityOk := CheckIdentity(v, seal, opts);
    PinComplaintsAre(seal, opts);
    if identityOk.None? { return true, v; }
    v.ok := v.digestBinds && AllOk(v.checks) && identityOk.value;
    return false, v;
  }

  /** A seal that is thrown on would not be accepted either. */
  lemma ThrowsOnNoGoodSeal(p: Platform, pdf: string, seal: Json, opts: Options)
    requires ThrowsOn(seal, opts)
    ensures !BindsDocument(p, pdf, seal) || !AllOk(VerifyPqSealSignatures(p, seal))
  {
    if ComparesNoKeys(seal, opts) { KeysAreNotRead(seal); }
    hide FromBase64, Get, IsWellFormedUuaid, KeyId, SigningInput, Without, Latin1;
  }

  lemma KeysAreNotRead(seal: Json)
    requires HasNoKeys(seal)
    ensures FromBase64(GetIn(seal, KEYS, ED25519)).None?
  {
  }

  /** Step 1: the seal must cover a prefix that is there, with that prefix's digest. What it
      covers instead is part of the complaint. */
  method BindDocument(v: PqSealVerdict, p: Platform, pdf: string, seal: Json) returns (threw: bool)
    requires v.coveredBytes == Get(seal, COVERED_BYTES) && v.failures == [] && !v.digestBinds
    modifies v`digestBinds, v`failures
    ensures threw <==> CoversNothingPrintable(seal)
    ensures v.digestBinds <==> BindsDocument(p, pdf, seal)
    ensures !threw ==> (v.failures == [] <==> v.digestBinds)
    ensures !threw ==> forall c :: c in v.failures <==> IsBinding(c) && IsAbout(p, pdf, seal, c)
  {
    if v.coveredBytes.None? || !v.coveredBytes.value.Num?
       || v.coveredBytes.value.n <= 0 || v.coveredBytes.value.n > |pdf| {
      if v.coveredBytes.Some? && Unprintable(v.coveredBytes.value) { return true; }
      v.failures := v.failures + [OutOfRange];
    } else {
      var recomputed := p.sha256Hex(Latin1(pdf[..v.coveredBytes.value.n]));
      v.digestBinds := Some(Str(recomputed)) == Get(seal, DIGEST);
      if !v.digestBinds { v.failures := v.failures + [DigestDiffers]; }
    }
    return false;
  }

  /** Step 2: both signatures and the identity fields must check. */
  method CheckSignatures(v: PqSealVerdict, p: Platform, seal: Json)
    modifies v`checks, v`failures
    ensures v.checks == VerifyPqSealSignatures(p, seal)
    ensures v.failures == [] <==> old(v.failures) == [] && AllOk(v.checks)
    ensures forall c :: c in v.failures <==> c in old(v.failures) || IsUnchecked(v.checks, c)
  {
    hide VerifyPqSealSignatures;
    v.checks := VerifyPqSealSignatures(p, seal);
    if !v.checks.ed25519 { v.failures := v.failures + [Ed25519Invalid]; }
    if !v.checks.mldsa65 { v.failures := v.failures + [Mldsa65Invalid]; }
    if !v.checks.fingerprintOk { v.failures := v.failures + [FingerprintInconsistent]; }
    if !v.checks.keyIdOk { v.failures := v.failures + [KeyIdInconsistent]; }
    if !v.checks.uuaidOk { v.failures := v.failures + [UuaidMalformed]; }
  }

  /** The pins, each with its complaint; None stands for a TypeError. */
  method CheckIdentity(v: PqSealVerdict, seal: Json, opts: Options) returns (identityOk: Option<bool>)
    modifies v`failures, v`uuaidMatches, v`certIdentityOk
    ensures identityOk.None? <==> LowersNoText(seal, opts) || ComparesNoKeys(seal, opts)
    ensures identityOk.Some? ==>
              && (identityOk.value <==> MeetsPins(seal, opts))
              && v.failures == old(v.failures) + PinComplaints(seal, opts)
  {
    hide LowersNoText, HasNoKeys, CertMatches, Get, ToLowerCase, FingerprintOf, IsUnmet, MeetsPins;
    if LowersNoText(seal, opts) { return None; }
    var fingerprint := CheckFingerprint(v, seal, opts);
    var uuaid := CheckUuaid(v, seal, opts);
    if opts.signerCert.Some? && opts.signerCert.value.valid && HasNoKeys(seal) { return None; }
    var certificate := CheckCertificate(v, seal, opts);
    PinsAreMet(seal, opts);
    identityOk := Some(fingerprint && uuaid && certificate);
  }

  lemma PinsAreMet(seal: Json, opts: Options)
    ensures MeetsPins(seal, opts) <==>
              && !IsUnmet(seal, opts, FingerprintUnexpected) && !IsUnmet(seal, opts, UuaidMissing)
              && !IsUnmet(seal, opts, UuaidUnexpected) && !IsUnmet(seal, opts, CertificateMismatch)
  {
    hide Get, CertMatches, ToLowerCase, FingerprintOf;
  }

  method CheckFingerprint(v: PqSealVerdict, seal: Json, opts: Options) returns (ok: bool)
    modifies v`failures
    ensures ok <==> !IsUnmet(seal, opts, FingerprintUnexpected)
    ensures v.failures == old(v.failures) + If(!ok, FingerprintUnexpected)
  {
    hide ToLowerCase, FingerprintOf;
    ok := true;
    if Asked(opts.expectedMldsa65Fpr) {
      ok := ToLowerCase(FingerprintOf(seal)) == ToLowerCase(opts.expectedMldsa65Fpr.value);
      if !ok { v.failures := v.failures + [FingerprintUnexpected]; }
    }
  }

  method CheckUuaid(v: PqSealVerdict, seal: Json, opts: Options) returns (ok: bool)
    modifies v`failures, v`uuaidMatches
    ensures ok <==> !IsUnmet(seal, opts, UuaidMissing) && !IsUnmet(seal, opts, UuaidUnexpected)
    ensures v.failures == old(v.failures) + (If(IsUnmet(seal, opts, UuaidMissing), UuaidMissing)
                                             + If(IsUnmet(seal, opts, UuaidUnexpected), UuaidUnexpected))
    ensures v.uuaidMatches == if Asked(opts.expectedUuaid) then Some(ok) else old(v.uuaidMatches)
  {
    hide Get;
    ok := true;
    if Asked(opts.expectedUuaid) {
      ok := Get(seal, UUAID) == Some(Str(opts.expectedUuaid.value));
      v.uuaidMatches := Some(ok);
      if !ok { v.failures := v.failures + [if Get(seal, UUAID).None? then UuaidMissing else UuaidUnexpected]; }
    }
  }

  method CheckCertificate(v: PqSealVerdict, seal: Json, opts: Options) returns (ok: bool)
    modifies v`failures, v`certIdentityOk
    ensures ok <==> !IsUnmet(seal, opts, CertificateMismatch)
    ensures v.failures == old(v.failures) + If(!ok, CertificateMismatch)
    ensures v.certIdentityOk == if opts.signerCert.Some? then Some(ok) else old(v.certIdentityOk)
  {
    hide CertMatches;
    ok := true;
    if opts.signerCert.Some? {
      ok := CertMatches(opts.signerCert.value, seal);
      v.certIdentityOk := Some(ok);
      if !ok { v.failures := v.failures + [CertificateMismatch]; }
    }
  }

  // ---------------------------------------------------------------------------
  // verifyDocument
  // ---------------------------------------------------------------------------

  /** What PKCS#7, RSA and time stamp verification say of a signature over some text. */
  type SignatureCheck = (Der.Bytes, string) -> bool

  /** `verifyPdfSignature`: the structure is right, and the signature in the hole is good
      for the covered text. */
  predicate ClassicalOk(check: SignatureCheck, pdf: string) {
    var range, der := Der.FindByteRange(pdf), Der.ContentsOf(pdf);
    range.Some? && der.Some? && check(der.value, Der.Covered(pdf, range.value))
  }

  /** The sealed prefix ends before the hole of the classical signature. */
  predicate EndsBeforeHole(range: Option<Der.ByteRange>, covered: Option<Json>) {
    range.Some? && covered.Some? && covered.value.Num? ==> covered.value.n <= range.value.a + range.value.b
  }

  /** A document is good exactly when its classical signature is, and its seal, if it has
      one, is accepted and ends before the hole; without a seal the caller's demand
      decides. The seal's own verdict and complaints agree with that. */
  method VerifyDocument(p: Platform, check: SignatureCheck, pdf: string, opts: Options)
    returns (threw: bool, ok: bool, v: PqSealVerdict)
    ensures fresh(v)
    ensures threw <==> VerifyThrows(p, pdf, opts)
    ensures threw ==> !ok
    ensures var seal := ExtractSeal(p, pdf);
            !threw ==>
              && (v.present <==> seal.Some?)
              && (seal.Some? ==>
                    (v.ok <==> Accepted(p, pdf, opts)
                               && EndsBeforeHole(Der.FindByteRange(pdf), Get(seal.value, COVERED_BYTES))))
              && (ok <==> ClassicalOk(check, pdf) && if seal.Some? then v.ok else !opts.requirePq)
              && (v.failures == [] <==> v.ok)
              && (CoversBeyondSignature in v.failures <==>
                    seal.Some? && !EndsBeforeHole(Der.FindByteRange(pdf), Get(seal.value, COVERED_BYTES)))
              && (SealRequired in v.failures <==> seal.None? && opts.requirePq)
    ensures opts.requirePq && ok ==> Accepted(p, pdf, opts)
  {
    hide ExtractSeal, Accepted, Get, VerifyThrows, ClassicalOk, Der.FindByteRange;
    threw, v := VerifyPqSeal(p, pdf, opts);
    if threw { return true, false, v; }
    var range := Der.FindByteRange(pdf);
    var sealWithinSignedRegion := true;
    if v.present && range.Some? && v.coveredBytes.Some? && v.coveredBytes.value.Num? {
      var contentsStart := range.value.a + range.value.b;
      if v.coveredBytes.value.n > contentsStart {
        sealWithinSignedRegion := false;
        v.failures := v.failures + [CoversBeyondSignature];
        v.ok := false;
      }
    }
    if opts.requirePq && !v.present {
      v.failures := v.failures + [SealRequired];
    }
    var pqSatisfied := if v.present then v.ok && sealWithinSignedRegion else !opts.requirePq;
    ok := ClassicalOk(check, pdf) && pqSatisfied;
  }

  /** A byte that the classical signature is computed over. */
  predicate IsSigned(range: Der.ByteRange, i: nat) {
    range.a <= i < range.a + range.b || range.c <= i < range.c + range.d
  }

  /** The program takes a prefix that ends before the hole for signed. In a file with a hole
      a prefix is signed exactly if it does end there and the first range starts the file:
      otherwise a byte of the hole, or the first byte, is not. Without a hole everything is. */
  lemma SealedPrefixIsSignedIff(pdf: string, n: nat)
    requires Der.ContentsOf(pdf).Some? && 0 < n <= |pdf|
    ensures var range := Der.FindByteRange(pdf).value;
            (forall i :: 0 <= i < n ==> IsSigned(range, i))
            <==> range.c == 0 || (range.a == 0 && EndsBeforeHole(Some(range), Some(Num(n))))
  {
    var range := Der.FindByteRange(pdf).value;
    hide Der.FindByteRange;
    Der.RangesAreOrdered(pdf, range);
    hide Der.ContentsAt;
    if range.c > 0 {
      if range.a > 0 { assert !IsSigned(range, 0); }
      assert !IsSigned(range, range.a + range.b);
    }
  }

  /** Text in front of a file, with a /ByteRange array of its own that shifts the ranges of
      the file, leaves the classical verdict as it is if the file has a hole: it is about
      the covered text, not about the whole file. Without a hole, the verdict is negative. */
  lemma ClassicalVerdictIgnoresFront(check: SignatureCheck, front: string, pdf: string)
    requires Der.ContentsOf(pdf).Some?
    requires Der.FindByteRange(front + pdf) == Some(Der.Shifted(Der.FindByteRange(pdf).value, |front|))
    ensures ClassicalOk(check, front + pdf)
            <==> ClassicalOk(check, pdf) && (Der.FindByteRange(pdf).value.c > 0 || front == "")
  {
    var range := Der.FindByteRange(pdf).value;
    hide Der.FindByteRange, Der.Covered;
    if range.c > 0 {
      Der.TextInFrontIsNotCovered(front, pdf, range);
    } else if front != "" {
      Der.TextInFrontIsRefused(front, pdf, range);
    } else {
      assert front + pdf == pdf;
    }
    hide Der.ContentsAt;
  }

  // ---------------------------------------------------------------------------
  // Sealed documents are accepted, altered ones are not
  // ---------------------------------------------------------------------------

  /** What `signPdf` seals: the whole file as it is. */
  function InputFor(p: Platform, pdf: string, edKey: Bytes, mlKey: Bytes, signedAt: Text, uuaid: Option<Text>): SealInput {
    SealInput(p.sha256Hex(Latin1(pdf)), |pdf|, edKey, mlKey, signedAt, uuaid)
  }

  lemma EmbedKeepsFile(pdf: string, seal: Bytes)
    ensures PdfSeal.Embed(pdf, seal).Success? <==> PdfSeal.ReadLastTrailer(pdf).Success?
    ensures PdfSeal.Embed(pdf, seal).Success? ==> pdf <= PdfSeal.Embed(pdf, seal).value
  {
    hide PdfSeal.ReadLastTrailer, PdfSeal.Update;
  }

  /** The seal's bytes in the file, read back from a file that never had a seal. */
  lemma EmbeddedSealIsExtracted(p: Platform, pdf: string, seal: Json, suffix: string)
    requires Sound(p) && WellFormed(seal) && seal.Obj? && PdfText.Search(PdfText.SealObject, pdf).None?
    requires PdfSeal.ReadLastTrailer(pdf).Success?
    ensures PdfSeal.Embed(pdf, p.utf8(Stringify(seal))).Success?
    ensures ExtractSeal(p, PdfSeal.Embed(pdf, p.utf8(Stringify(seal))).value + suffix) == Some(seal)
  {
    hide Paired, PdfSeal.Embed, PdfSeal.Extract, Parse, WellFormed, PdfSeal.ReadLastTrailer, PdfText.Search;
    assert Stringify(seal) != [];
    hide Stringify;
    StringifyIsPaired(seal);
    ParseUndoesPrinting(seal);
    EmbedKeepsFile(pdf, p.utf8(Stringify(seal)));
    PdfSeal.ExtractReturnsEmbedded(pdf, p.utf8(Stringify(seal)), suffix);
  }

  lemma AcceptedIffPinsMet(p: Platform, file: string, opts: Options, seal: Json, n: nat)
    requires ExtractSeal(p, file) == Some(seal) && AllOk(VerifyPqSealSignatures(p, seal))
    requires Get(seal, COVERED_BYTES) == Some(Num(n)) && 0 < n <= |file|
    requires Get(seal, DIGEST) == Some(Str(p.sha256Hex(Latin1(file[..n]))))
    ensures Accepted(p, file, opts) <==> MeetsPins(seal, opts)
  {
    hide ExtractSeal, Latin1, Get, VerifyPqSealSignatures, AllOk, MeetsPins;
  }

  lemma SealIsBuilt(p: Platform, input: SealInput)
    requires Sound(p) && input.coveredBytes > 0 && (input.uuaid.Some? ==> IsWellFormedUuaid(Str(input.uuaid.value)))
    requires exists b :: input.digestHex == p.sha256Hex(b)
    ensures BuildPqSeal(p, input).Some?
  {
    hide PayloadOf, SigningInput, SignaturesOf, IsWellFormedUuaid, IsDigest;
  }

  /** The seal that is built over a whole file. */
  lemma SealOfFile(p: Platform, pdf: string, input: SealInput)
    requires Sound(p) && BuildPqSeal(p, input).Some? && |pdf| <= MAX_SAFE_INTEGER
    requires input.coveredBytes == |pdf| && input.digestHex == p.sha256Hex(Latin1(pdf))
    ensures var seal := BuildPqSeal(p, input).value;
            && seal.Obj? && WellFormed(seal) && AllOk(VerifyPqSealSignatures(p, seal))
            && Get(seal, COVERED_BYTES) == Some(Num(|pdf|)) && Get(seal, DIGEST) == Some(Str(p.sha256Hex(Latin1(pdf))))
  {
    BuiltSealVerifies(p, input);
    BuiltSealIsWellFormed(p, input);
    BuiltFields(p, input, SignaturesOf(p, input, SigningInput(p, PayloadOf(p, input))));
    hide VerifyPqSealSignatures, WellFormed, Sound, Get, Without, PayloadOf, SigningInput, SignaturesOf, Latin1;
  }

  /** Two texts that differ in the case of ASCII letters at most, the second in lower case. */
  predicate LowersTo(t: Text, lower: Text) {
    |t| == |lower| && forall i :: 0 <= i < |t| ==> lower[i] == (if 65 <= t[i] <= 90 then t[i] + 32 else t[i])
  }

  /** The pins are those of a key's fingerprint and an identity: a pinned fingerprint in
      either case, an identity exactly, and a valid certificate for the same key. */
  predicate PinsAre(opts: Options, fingerprint: Text, uuaid: Option<Text>) {
    && (opts.expectedMldsa65Fpr.Some? && opts.expectedMldsa65Fpr.value != [] ==> LowersTo(opts.expectedMldsa65Fpr.value, fingerprint))
    && (opts.expectedUuaid.Some? && opts.expectedUuaid.value != [] ==> uuaid == opts.expectedUuaid)
    && (opts.signerCert.Some? ==> opts.signerCert.value.valid && opts.signerCert.value.fingerprint == fingerprint)
  }

  lemma LoweredIs(t: Text, lower: Text)
    requires IsDigest(lower)
    ensures ToLowerCase(lower) == ToLowerCase(t) <==> LowersTo(t, lower)
  {
    assert ToLowerCase(lower) == lower;
    if LowersTo(t, lower) { assert ToLowerCase(t) == lower; }
  }

  function UuaidOf(seal: Json): Option<Text> {
    match Get(seal, UUAID)
    case Some(Str(t)) => Some(t)
    case _ => None
  }

  /** A seal that passes meets exactly the pins of the key that it carries and of the
      identity that it asserts. */
  lemma PassingSealMeetsPinsIff(p: Platform, seal: Json, opts: Options)
    requires Sound(p) && AllOk(VerifyPqSealSignatures(p, seal))
    ensures MeetsPins(seal, opts) <==> PinsAre(opts, p.sha256Hex(Carried(seal, KEYS, MLDSA65)), UuaidOf(seal))
  {
    PassingSealNamesItsKeys(p, seal);
    PassingSealIsOfItsKind(p, seal);
    var digest := p.sha256Hex(Carried(seal, KEYS, MLDSA65));
    assert IsDigest(digest);
    if opts.expectedMldsa65Fpr.Some? { LoweredIs(opts.expectedMldsa65Fpr.value, digest); }
    hide VerifyPqSealSignatures, Carried, Get, Sound, LowersTo, ToLowerCase, IsUuaid;
  }

  lemma SealSaysIdentity(p: Platform, input: SealInput)
    requires Sound(p) && BuildPqSeal(p, input).Some?
    ensures var seal := BuildPqSeal(p, input).value;
            Carried(seal, KEYS, MLDSA65) == p.mlPublic(input.mlKey) && UuaidOf(seal) == input.uuaid
  {
    BuiltSealSays(p, input);
    hide BuildPqSeal, Carried, Get, Sound;
  }

  /** For every file without an earlier seal, whatever keys, time and identity, and
      whatever is appended afterwards: the file can be sealed if its trailer can be read,
      and then it is accepted under exactly the pins that the seal meets. */
  lemma SealedDocumentIsAccepted(
    p: Platform, pdf: string, edKey: Bytes, mlKey: Bytes, signedAt: Text, uuaid: Option<Text>,
    opts: Options, suffix: string)
    requires Sound(p) && 0 < |pdf| <= MAX_SAFE_INTEGER && PdfText.Search(PdfText.SealObject, pdf).None?
    requires uuaid.Some? ==> IsWellFormedUuaid(Str(uuaid.value))
    ensures BuildPqSeal(p, InputFor(p, pdf, edKey, mlKey, signedAt, uuaid)).Some?
    ensures var seal := BuildPqSeal(p, InputFor(p, pdf, edKey, mlKey, signedAt, uuaid)).value;
            var sealed := PdfSeal.Embed(pdf, p.utf8(Stringify(seal)));
            && (sealed.Success? <==> PdfSeal.ReadLastTrailer(pdf).Success?)
            && (sealed.Success? ==>
                  && (Accepted(p, sealed.value + suffix, opts) <==> PinsAre(opts, p.sha256Hex(p.mlPublic(mlKey)), uuaid))
                  && !VerifyThrows(p, sealed.value + suffix, opts))
  {
    hide BuildPqSeal, VerifyPqSealSignatures, MeetsPins, WellFormed, Stringify, Sound, PdfSeal.ReadLastTrailer, PdfSeal.Update,
      PdfSeal.Embed, PdfText.Search, IsWellFormedUuaid, ExtractSeal, Latin1, Get, Accepted, ThrowsOn, PinsAre, Carried, UuaidOf;
    var input := InputFor(p, pdf, edKey, mlKey, signedAt, uuaid);
    SealIsBuilt(p, input);
    var seal := BuildPqSeal(p, input).value;
    SealOfFile(p, pdf, input);
    EmbedKeepsFile(pdf, p.utf8(Stringify(seal)));
    if PdfSeal.ReadLastTrailer(pdf).Success? {
      EmbeddedSealIsExtracted(p, pdf, seal, suffix);
      var file := PdfSeal.Embed(pdf, p.utf8(Stringify(seal))).value + suffix;
      assert file[..|pdf|] == pdf;
      AcceptedIffPinsMet(p, file, opts, seal, |pdf|);
      PassingSealMeetsPinsIff(p, seal, opts);
      SealSaysIdentity(p, input);
      if ThrowsOn(seal, opts) { ThrowsOnNoGoodSeal(p, file, seal, opts); }
    }
  }

  // ---------------------------------------------------------------------------
  // Files that verification throws on
  // ---------------------------------------------------------------------------

  /** Any file without an earlier seal can carry any value as its seal. */
  lemma EmbeddedThrows(p: Platform, pdf: string, seal: Json, opts: Options, suffix: string)
    requires Sound(p) && PdfText.Search(PdfText.SealObject, pdf).None? && PdfSeal.ReadLastTrailer(pdf).Success?
    requires WellFormed(seal) && seal.Obj? && ThrowsOn(seal, opts)
    ensures PdfSeal.Embed(pdf, p.utf8(Stringify(seal))).Success?
    ensures VerifyThrows(p, PdfSeal.Embed(pdf, p.utf8(Stringify(seal))).value + suffix, opts)
  {
    hide Stringify, ExtractSeal, PdfSeal.Embed, PdfSeal.ReadLastTrailer, PdfText.Search, WellFormed, ThrowsOn, Sound;
    EmbeddedSealIsExtracted(p, pdf, seal, suffix);
  }

  lemma OneMember(key: Text, value: Json)
    requires WellFormed(value)
    ensures WellFormed(Obj([Member(key, value)])) && Get(Obj([Member(key, value)]), key) == Some(value)
    ensures forall other: Text :: other != key ==> Get(Obj([Member(key, value)]), other).None?
  {
    assert [Member(key, value)][1..] == [] && Find([], key) == None;
    assert forall other: Text :: other != key ==> Find([Member(key, value)], other) == Find([], other);
  }

  /** A value whose fingerprint is a number. */
  const NUMBERED := Obj([Member(KEYS, Obj([Member(MLDSA65_FPR, Num(1))]))])

  /** Embedded in any file without an earlier seal, it makes verification throw under every
      pinned fingerprint. */
  lemma NumberedFingerprintThrows(p: Platform, pdf: string, opts: Options, suffix: string)
    requires Sound(p) && PdfText.Search(PdfText.SealObject, pdf).None? && PdfSeal.ReadLastTrailer(pdf).Success?
    requires Asked(opts.expectedMldsa65Fpr)
    ensures PdfSeal.Embed(pdf, p.utf8(Stringify(NUMBERED))).Success?
    ensures VerifyThrows(p, PdfSeal.Embed(pdf, p.utf8(Stringify(NUMBERED))).value + suffix, opts)
  {
    hide Stringify, ExtractSeal, PdfSeal.Embed, PdfSeal.ReadLastTrailer, PdfText.Search, WellFormed, Sound, Get;
    OneMember(MLDSA65_FPR, Num(1));
    OneMember(KEYS, Obj([Member(MLDSA65_FPR, Num(1))]));
    EmbeddedThrows(p, pdf, NUMBERED, opts, suffix);
  }

  /** A value without keys. */
  const KEYLESS := Obj([Member(V, Num(PQ_SEAL_VERSION))])

  /** Embedded in any file without an earlier seal, it makes verification throw under every
      valid certificate, pinned fingerprint or not. */
  lemma MissingKeysThrow(p: Platform, pdf: string, opts: Options, suffix: string)
    requires Sound(p) && PdfText.Search(PdfText.SealObject, pdf).None? && PdfSeal.ReadLastTrailer(pdf).Success?
    requires opts.signerCert.Some? && opts.signerCert.value.valid
    ensures PdfSeal.Embed(pdf, p.utf8(Stringify(KEYLESS))).Success?
    ensures VerifyThrows(p, PdfSeal.Embed(pdf, p.utf8(Stringify(KEYLESS))).value + suffix, opts)
  {
    hide Stringify, ExtractSeal, PdfSeal.Embed, PdfSeal.ReadLastTrailer, PdfText.Search, WellFormed, Sound, Get;
    OneMember(V, Num(PQ_SEAL_VERSION));
    NamesDiffer();
    EmbeddedThrows(p, pdf, KEYLESS, opts, suffix);
  }

  /** A value that covers an object with a `toString` of its own. */
  const TEXTLESS := Obj([Member(COVERED_BYTES, Obj([Member(TO_STRING, Num(0))]))])

  /** Embedded in any file without an earlier seal, it makes verification throw whatever the
      options. */
  lemma UnprintableLengthThrows(p: Platform, pdf: string, opts: Options, suffix: string)
    requires Sound(p) && PdfText.Search(PdfText.SealObject, pdf).None? && PdfSeal.ReadLastTrailer(pdf).Success?
    ensures PdfSeal.Embed(pdf, p.utf8(Stringify(TEXTLESS))).Success?
    ensures VerifyThrows(p, PdfSeal.Embed(pdf, p.utf8(Stringify(TEXTLESS))).value + suffix, opts)
  {
    hide Stringify, ExtractSeal, PdfSeal.Embed, PdfSeal.ReadLastTrailer, PdfText.Search, WellFormed, Sound;
    OneMember(TO_STRING, Num(0));
    OneMember(COVERED_BYTES, Obj([Member(TO_STRING, Num(0))]));
    EmbeddedThrows(p, pdf, TEXTLESS, opts, suffix);
  }

  /** Two inputs of one digest. */
  predicate Collide(p: Platform, x: Bytes, y: Bytes) {
    x != y && p.sha256Hex(x) == p.sha256Hex(y)
  }

  /** What a seal says it covers; 0 if it says nothing usable. */
  function CoveredLength(seal: Json): nat {
    match Get(seal, COVERED_BYTES)
    case Some(Num(n)) => if n > 0 then n else 0
    case _ => 0
  }

  predicate SameKeysAndSignatures(a: Json, b: Json) {
    && Carried(a, KEYS, ED25519) == Carried(b, KEYS, ED25519) && Carried(a, SIG, ED25519) == Carried(b, SIG, ED25519)
    && Carried(a, KEYS, MLDSA65) == Carried(b, KEYS, MLDSA65) && Carried(a, SIG, MLDSA65) == Carried(b, SIG, MLDSA65)
  }

  lemma BoundLength(p: Platform, pdf: string, seal: Json)
    requires BindsDocument(p, pdf, seal)
    ensures 0 < CoveredLength(seal) <= |pdf| && Get(seal, COVERED_BYTES) == Some(Num(CoveredLength(seal)))
    ensures Get(seal, DIGEST) == Some(Str(p.sha256Hex(Latin1(pdf[..CoveredLength(seal)]))))
  {
    hide Get, Latin1;
  }

  lemma SameFieldsCover(a: Json, b: Json, n: int, m: int, x: Text, y: Text)
    requires SameFields(a, b) && Get(a, COVERED_BYTES) == Some(Num(n)) && Get(b, COVERED_BYTES) == Some(Num(m))
    requires Get(a, DIGEST) == Some(Str(x)) && Get(b, DIGEST) == Some(Str(y))
    ensures n == m && x == y
  {
    NamesDiffer();
    hide Get;
    assert FieldMeaning(a, COVERED_BYTES) == FieldMeaning(b, COVERED_BYTES);
    assert FieldMeaning(a, DIGEST) == FieldMeaning(b, DIGEST);
  }

  /** Two files that are accepted under the same keys and signatures agree on every sealed
      byte; or else the two sealed prefixes collide under the digest, or both keys have
      signed two messages with one signature. So content cannot be altered under a seal. */
  lemma AcceptedFilesAgree(p: Platform, first: string, second: string, opts: Options, opts': Options)
    requires Sound(p) && Accepted(p, first, opts) && Accepted(p, second, opts')
    requires var a, b := ExtractSeal(p, first).value, ExtractSeal(p, second).value;
             WellFormed(a) && WellFormed(b) && SameKeysAndSignatures(a, b)
    ensures var a, b := ExtractSeal(p, first).value, ExtractSeal(p, second).value;
            var n, m := CoveredLength(a), CoveredLength(b);
            && a.Obj? && b.Obj? && 0 < n <= |first| && 0 < m <= |second|
            && (|| (n == m && Latin1(first[..n]) == Latin1(second[..m]))
                || Collide(p, Latin1(first[..n]), Latin1(second[..m]))
                || (&& SignsTwo(p.edVerify, Carried(a, KEYS, ED25519), Carried(a, SIG, ED25519), SignedBytes(p, a), SignedBytes(p, b))
                    && SignsTwo(p.mlVerify, Carried(a, KEYS, MLDSA65), Carried(a, SIG, MLDSA65), SignedBytes(p, a), SignedBytes(p, b))))
  {
    var a, b := ExtractSeal(p, first).value, ExtractSeal(p, second).value;
    hide ExtractSeal, BindsDocument, MeetsPins, VerifyPqSealSignatures, Carried, SignedBytes, SameFields, Get, CoveredLength,
      Latin1, WellFormed, Sound;
    BoundLength(p, first, a);
    BoundLength(p, second, b);
    SignatureBindsFields(p, a, b);
    if SameFields(a, b) {
      SameFieldsCover(a, b, CoveredLength(a), CoveredLength(b),
                      p.sha256Hex(Latin1(first[..CoveredLength(a)])), p.sha256Hex(Latin1(second[..CoveredLength(b)])));
    }
  }
}
