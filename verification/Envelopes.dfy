/** Multi-signer envelopes (packages/esig-core/src/envelope.ts): what one operation does to
    the copy it read, and what holds along every run against a store that rejects updates
    of anything but the latest version. Token hashes stand for their tokens. */
module Envelopes {
  import opened Domain

  datatype EnvelopeStatus = Sent | PartiallySigned | Completed | Voided | Expired

  datatype SignerStatus = Unsigned | Signed | Declined

  datatype Signer = Signer(
    name: string, email: string, order: int, status: SignerStatus, tokenHash: string,
    signedAt: Option<int>, image: Option<string>, declinedAt: Option<int>)

  datatype Envelope = Envelope(
    html: string, status: EnvelopeStatus, signers: seq<Signer>,
    expiresAt: Option<int>, completedAt: Option<int>, voidedAt: Option<int>)

  datatype EnvelopeError = InvalidInput | InvalidToken | NotYourTurn | AlreadySigned | NotSignable | NotComplete

  datatype Outcome<+T> = Success(value: T) | Failure(error: EnvelopeError)

  // ---------------------------------------------------------------------------
  // Creation
  // ---------------------------------------------------------------------------

  /** A requested signer, with the hash of the token that is minted for it. */
  datatype SignerInput = SignerInput(name: string, email: string, order: Option<int>, tokenHash: string)

  /** White space and line ends as `trim` knows them. */
  predicate IsSpace(c: char) {
    var n := c as int;
    9 <= n <= 13 || n in {32, 0xA0, 0x1680, 0x2028, 0x2029, 0x202F, 0x205F, 0x3000, 0xFEFF} || 0x2000 <= n <= 0x200A
  }

  predicate IsBlank(s: string) {
    forall c :: c in s ==> IsSpace(c)
  }

  predicate ValidSigner(s: SignerInput) {
    !IsBlank(s.name) && '@' in s.email && (s.order.Some? ==> s.order.value >= 1)
  }

  function NewSigner(s: SignerInput): Signer {
    Signer(s.name, s.email, if s.order.Some? then s.order.value else 1, Unsigned, s.tokenHash, None, None, None)
  }

  function CreateEnvelope(html: string, inputs: seq<SignerInput>, expiresAt: Option<int>, now: int): Outcome<Envelope> {
    if IsBlank(html) || inputs == [] || (expiresAt.Some? && expiresAt.value <= now)
       || !(forall i :: 0 <= i < |inputs| ==> ValidSigner(inputs[i]))
    then Failure(InvalidInput)
    else
      Success(Envelope(html, Sent, seq(|inputs|, i requires 0 <= i < |inputs| => NewSigner(inputs[i])), expiresAt, None, None))
  }

  // ---------------------------------------------------------------------------
  // Token resolution
  // ---------------------------------------------------------------------------

  predicate IsLive(e: Envelope) {
    e.status == Sent || e.status == PartiallySigned
  }

  predicate HasExpired(e: Envelope, now: int) {
    e.expiresAt.Some? && e.expiresAt.value <= now
  }

  /** The first signer with this token hash. */
  function FindSigner(signers: seq<Signer>, tokenHash: string): (r: Option<nat>)
    ensures r.Some? ==> r.value < |signers| && signers[r.value].tokenHash == tokenHash
    ensures r.Some? ==> forall i :: 0 <= i < r.value ==> signers[i].tokenHash != tokenHash
    ensures r.None? ==> forall i :: 0 <= i < |signers| ==> signers[i].tokenHash != tokenHash
  {
    if signers == [] then None
    else if signers[0].tokenHash == tokenHash then Some(0)
    else
      var r := FindSigner(signers[1..], tokenHash);
      if r.None? then None else Some(r.value + 1)
  }

  predicate MustWait(signers: seq<Signer>, i: nat)
    requires i < |signers|
  {
    exists j :: 0 <= j < |signers| && signers[j].order < signers[i].order && signers[j].status != Signed
  }

  datatype Resolution = Invalid | Closed(status: EnvelopeStatus) | Used | Waiting(signer: nat) | Turn(signer: nat)

  /** The gates for a token, on an envelope whose expiry has been applied. */
  function Gate(e: Envelope, i: nat): Resolution
    requires i < |e.signers|
  {
    if !IsLive(e) then Closed(e.status)
    else if e.signers[i].status == Signed then Used
    else if MustWait(e.signers, i) then Waiting(i)
    else Turn(i)
  }

  /** `resolveSigningToken`: the resolution, and the envelope with its expiry applied. */
  function ResolveToken(e: Envelope, tokenHash: string, now: int): (Resolution, Envelope) {
    var found := FindSigner(e.signers, tokenHash);
    if found.None? then (Invalid, e)
    else
      var applied := if IsLive(e) && HasExpired(e, now) then e.(status := Expired) else e;
      (Gate(applied, found.value), applied)
  }

  // ---------------------------------------------------------------------------
  // Operations
  // ---------------------------------------------------------------------------

  /** A token used, a signature drawn (None when the image is refused), a refusal, or the
      sender's cancellation. */
  datatype Op =
    | Resolve(tokenHash: string)
    | Record(tokenHash: string, image: Option<string>, signedAt: Option<int>)
    | Decline(tokenHash: string)
    | Void

  predicate AllSigned(signers: seq<Signer>) {
    forall i :: 0 <= i < |signers| ==> signers[i].status == Signed
  }

  function SignedBy(e: Envelope, i: nat, image: string, at: int, now: int): Envelope
    requires i < |e.signers|
  {
    var signers := e.signers[i := e.signers[i].(status := Signed, signedAt := Some(at), image := Some(image))];
    if AllSigned(signers)
    then e.(signers := signers, status := Completed, completedAt := Some(now))
    else e.(signers := signers, status := PartiallySigned)
  }

  function DeclinedBy(e: Envelope, i: nat, now: int): Envelope
    requires i < |e.signers|
  {
    e.(signers := e.signers[i := e.signers[i].(status := Declined, declinedAt := Some(now))],
       status := Voided, voidedAt := Some(now))
  }

  /** What is stored once a token is resolved: the applied expiry, or else what the
      operation adds to the envelope. */
  function AfterGate(e: Envelope, resolved: (Resolution, Envelope), added: Option<Envelope>): Option<Envelope> {
    if resolved.1 != e then Some(resolved.1) else added
  }

  function Recorded(e: Envelope, r: Resolution, image: Option<string>, signedAt: Option<int>, now: int): Option<Envelope> {
    if r.Turn? && r.signer < |e.signers| && image.Some?
    then Some(SignedBy(e, r.signer, image.value, if signedAt.Some? then signedAt.value else now, now))
    else None
  }

  function Refused(e: Envelope, r: Resolution, now: int): Option<Envelope> {
    if (r.Turn? || r.Waiting?) && r.signer < |e.signers| then Some(DeclinedBy(e, r.signer, now)) else None
  }

  /** What an operation that read `e` stores; None when it stores nothing. */
  function Stored(e: Envelope, op: Op, now: int): Option<Envelope> {
    match op
    case Void => if e.status == Completed then None else Some(e.(status := Voided, voidedAt := Some(now)))
    case Resolve(h) => AfterGate(e, ResolveToken(e, h, now), None)
    case Record(h, image, signedAt) =>
      AfterGate(e, ResolveToken(e, h, now), Recorded(e, ResolveToken(e, h, now).0, image, signedAt, now))
    case Decline(h) => AfterGate(e, ResolveToken(e, h, now), Refused(e, ResolveToken(e, h, now).0, now))
  }

  /** The sender may void anything that is not completed. */
  lemma VoidingCloses(e: Envelope, now: int)
    ensures Stored(e, Void, now).None? <==> e.status == Completed
    ensures Stored(e, Void, now).Some? ==>
              Stored(e, Void, now).value == Envelope(e.html, Voided, e.signers, e.expiresAt, e.completedAt, Some(now))
  {
  }

  /** The signer whom a token belongs to: the first one with its hash. */
  predicate IsSigner(signers: seq<Signer>, tokenHash: string, i: int) {
    0 <= i < |signers| && signers[i].tokenHash == tokenHash && forall k :: 0 <= k < i ==> signers[k].tokenHash != tokenHash
  }

  predicate LiveAt(e: Envelope, now: int) {
    (e.status == Sent || e.status == PartiallySigned) && (e.expiresAt.Some? ==> now < e.expiresAt.value)
  }

  /** Someone of a lower order has not signed. */
  predicate Waits(e: Envelope, i: int)
    requires 0 <= i < |e.signers|
  {
    exists j :: 0 <= j < |e.signers| && e.signers[j].order < e.signers[i].order && e.signers[j].status != Signed
  }

  /** What signer `i` is told who sends a signature. */
  predicate RecordAnswer(e: Envelope, i: int, image: Option<string>, now: int, r: Outcome<()>)
    requires 0 <= i < |e.signers|
  {
    var live, signed, waits := LiveAt(e, now), e.signers[i].status == Signed, Waits(e, i);
    && (r == Failure(NotSignable) <==> !live)
    && (r == Failure(AlreadySigned) <==> live && signed)
    && (r == Failure(NotYourTurn) <==> live && !signed && waits)
    && (r == Failure(InvalidInput) <==> live && !signed && !waits && image.None?)
    && (r.Success? <==> live && !signed && !waits && image.Some?)
  }

  /** The envelope with a signature, completed by the last one. */
  predicate RecordedBy(e: Envelope, i: int, image: Option<string>, at: Option<int>, now: int, e': Envelope)
    requires 0 <= i < |e.signers|
  {
    && e'.signers == e.signers[i := e.signers[i].(status := Signed, image := image, signedAt := at)]
    && (if forall k :: 0 <= k < |e'.signers| ==> e'.signers[k].status == Signed
        then e' == e.(signers := e'.signers, status := Completed, completedAt := Some(now))
        else e' == e.(signers := e'.signers, status := PartiallySigned))
  }

  /** The program's working copy of an envelope, updated in place before it is stored. */
  class WorkingCopy {
    const html: string
    const expiresAt: Option<int>
    var status: EnvelopeStatus
    var signers: seq<Signer>
    var completedAt: Option<int>
    var voidedAt: Option<int>

    constructor (e: Envelope)
      ensures Value() == e
    {
      html, expiresAt := e.html, e.expiresAt;
      status, signers, completedAt, voidedAt := e.status, e.signers, e.completedAt, e.voidedAt;
    }

    function Value(): Envelope
      reads this
    {
      Envelope(html, status, signers, expiresAt, completedAt, voidedAt)
    }

    method Resolve(tokenHash: string, now: int) returns (r: Resolution, write: bool)
      modifies this`status
      ensures (r, Value()) == ResolveToken(old(Value()), tokenHash, now)
      ensures r == Invalid <==> forall k :: 0 <= k < |signers| ==> signers[k].tokenHash != tokenHash
      ensures forall i :: IsSigner(signers, tokenHash, i) ==>
                r == if LiveAt(old(Value()), now) then
                       (if signers[i].status == Signed then Used else if Waits(old(Value()), i) then Waiting(i) else Turn(i))
                     else if old(status) == Completed || old(status) == Voided then Closed(old(status))
                     else Closed(Expired)
      ensures r.Turn? || r.Waiting? ==> IsSigner(signers, tokenHash, r.signer) && !write
      ensures write <==> Value() != old(Value())
      ensures write ==> status == Expired
    {
      write := false;
      var found := FindSigner(signers, tokenHash);
      if found.None? { return Invalid, false; }
      if status == Sent || status == PartiallySigned {
        if expiresAt.Some? && expiresAt.value <= now {
          status := Expired;
          return Closed(Expired), true;
        }
      }
      if status == Completed || status == Voided || status == Expired { return Closed(status), false; }
      if signers[found.value].status == Signed { return Used, false; }
      if MustWait(signers, found.value) { return Waiting(found.value), false; }
      return Turn(found.value), false;
    }

    method RecordSignature(tokenHash: string, image: Option<string>, signedAt: Option<int>, now: int)
      returns (r: Outcome<()>, write: bool)
      modifies this
      ensures var spec := Stored(old(Value()), Record(tokenHash, image, signedAt), now);
              && (write <==> spec.Some?)
              && Value() == (if write then spec.value else old(Value()))
      ensures r == Failure(InvalidToken) <==> forall k :: 0 <= k < |old(signers)| ==> old(signers)[k].tokenHash != tokenHash
      ensures forall i :: IsSigner(old(signers), tokenHash, i) ==> RecordAnswer(old(Value()), i, image, now, r)
      ensures forall i :: IsSigner(old(signers), tokenHash, i) && r.Success? ==>
                write && RecordedBy(old(Value()), i, image, if signedAt.Some? then signedAt else Some(now), now, Value())
    {
      hide ResolveToken, FindSigner, LiveAt, Waits;
      var resolution;
      resolution, write := Resolve(tokenHash, now);
      match resolution
      case Invalid => return Failure(InvalidToken), write;
      case Waiting(_) => return Failure(NotYourTurn), write;
      case Used => return Failure(AlreadySigned), write;
      case Closed(_) => return Failure(NotSignable), write;
      case Turn(i) =>
        if image.None? { return Failure(InvalidInput), write; }
        var at := if signedAt.Some? then signedAt.value else now;
        signers := signers[i := signers[i].(status := Signed, signedAt := Some(at), image := image)];
        var allSigned := AllSigned(signers);
        status := if allSigned then Completed else PartiallySigned;
        if allSigned { completedAt := Some(now); }
        return Success(()), true;
    }

    method DeclineEnvelope(tokenHash: string, now: int) returns (r: Outcome<()>, write: bool)
      modifies this
      ensures var spec := Stored(old(Value()), Decline(tokenHash), now);
              && (write <==> spec.Some?)
              && Value() == (if write then spec.value else old(Value()))
      ensures r == Failure(InvalidToken) <==> forall k :: 0 <= k < |old(signers)| ==> old(signers)[k].tokenHash != tokenHash
      ensures forall i :: IsSigner(old(signers), tokenHash, i) ==>
                && (r == Failure(NotSignable) <==> !LiveAt(old(Value()), now) || old(signers)[i].status == Signed)
                && (r.Success? <==> LiveAt(old(Value()), now) && old(signers)[i].status != Signed)
                && (r.Success? ==>
                      && write && status == Voided && voidedAt == Some(now)
                      && signers == old(signers)[i := old(signers)[i].(status := Declined, declinedAt := Some(now))])
    {
      hide ResolveToken, FindSigner, LiveAt, Waits;
      var resolution;
      resolution, write := Resolve(tokenHash, now);
      match resolution
      case Invalid => return Failure(InvalidToken), write;
      case Used => return Failure(NotSignable), write;
      case Closed(_) => return Failure(NotSignable), write;
      case _ =>
        var i := resolution.signer;
        signers := signers[i := signers[i].(status := Declined, declinedAt := Some(now))];
        status, voidedAt := Voided, Some(now);
        return Success(()), true;
    }
  }

  datatype SignatureBlock = SignatureBlock(name: string, email: string, image: string, signedAt: int)

  /** The document and one block per signer; None stands for a missing image or date. */
  datatype Composed = Composed(html: string, blocks: seq<Option<SignatureBlock>>)

  /** `composeEnvelopeHtml`. */
  function ComposeEnvelopeHtml(e: Envelope): Outcome<Composed> {
    if e.status != Completed then Failure(NotComplete)
    else Success(Composed(e.html, seq(|e.signers|, i requires 0 <= i < |e.signers| => BlockOf(e.signers[i]))))
  }

  function BlockOf(s: Signer): Option<SignatureBlock> {
    if s.image.Some? && s.signedAt.Some? then Some(SignatureBlock(s.name, s.email, s.image.value, s.signedAt.value)) else None
  }

  // ---------------------------------------------------------------------------
  // The invariant
  // ---------------------------------------------------------------------------

  predicate DistinctHashes(signers: seq<Signer>) {
    forall i, j :: 0 <= i < j < |signers| ==> signers[i].tokenHash != signers[j].tokenHash
  }

  /** Everything signed has what the renderer needs, nobody signed out of turn, and the
      envelope is completed exactly when all have signed. */
  predicate EnvelopeOk(e: Envelope) {
    && e.signers != [] && DistinctHashes(e.signers)
    && (forall i :: 0 <= i < |e.signers| ==>
          e.signers[i].order >= 1
          && (e.signers[i].status == Signed ==> e.signers[i].image.Some? && e.signers[i].signedAt.Some?)
          && (IsLive(e) ==> e.signers[i].status != Declined))
    && (forall i, j :: 0 <= i < |e.signers| && 0 <= j < |e.signers|
                       && e.signers[i].status == Signed && e.signers[j].order < e.signers[i].order ==>
          e.signers[j].status == Signed)
    && (AllSigned(e.signers) <==> e.status == Completed)
    && (e.status == Completed ==> e.completedAt.Some?)
    && (e.status == Sent ==> forall i :: 0 <= i < |e.signers| ==> e.signers[i].status == Unsigned)
  }

  /** Creating fails exactly for an empty document, no signers, an expiry that is not in the
      future, or a signer without a name, an address or a positive order; and else the
      envelope is sent, with its signers in the order in which they were named. */
  lemma CreatedAsAsked(html: string, inputs: seq<SignerInput>, expiresAt: Option<int>, now: int)
    ensures var r := CreateEnvelope(html, inputs, expiresAt, now);
            && (r.Success? <==>
                  && (exists c :: c in html && !IsSpace(c)) && |inputs| > 0 && (expiresAt.Some? ==> now < expiresAt.value)
                  && forall i :: 0 <= i < |inputs| ==>
                       (exists c :: c in inputs[i].name && !IsSpace(c)) && '@' in inputs[i].email
                       && (inputs[i].order.None? || 0 < inputs[i].order.value))
            && (r.Failure? ==> r.error == InvalidInput)
            && (r.Success? ==>
                  && r.value.html == html && r.value.status == Sent && r.value.expiresAt == expiresAt
                  && r.value.completedAt == None && r.value.voidedAt == None && |r.value.signers| == |inputs|
                  && forall i :: 0 <= i < |inputs| ==>
                       r.value.signers[i] == Signer(inputs[i].name, inputs[i].email, if inputs[i].order == None then 1 else inputs[i].order.value,
                                                    Unsigned, inputs[i].tokenHash, None, None, None))
  {
    forall i | 0 <= i < |inputs| ensures ValidSigner(inputs[i]) <==>
      (exists c :: c in inputs[i].name && !IsSpace(c)) && '@' in inputs[i].email && (inputs[i].order.None? || 0 < inputs[i].order.value) {
    }
    hide IsSpace;
  }

  lemma CreatedIsOk(html: string, inputs: seq<SignerInput>, expiresAt: Option<int>, now: int)
    requires CreateEnvelope(html, inputs, expiresAt, now).Success?
    requires forall i, j :: 0 <= i < j < |inputs| ==> inputs[i].tokenHash != inputs[j].tokenHash
    ensures EnvelopeOk(CreateEnvelope(html, inputs, expiresAt, now).value)
  {
    var e := CreateEnvelope(html, inputs, expiresAt, now).value;
    assert e.signers[0].status == Unsigned;
  }

  /** What one stored operation changes. */
  predicate Follows(a: Envelope, b: Envelope) {
    && a.status != Completed && b.status != Sent
    && |b.signers| == |a.signers| && b.html == a.html && b.expiresAt == a.expiresAt
    && (!IsLive(a) ==> b.status == Voided && b.signers == a.signers)
    && (forall i :: 0 <= i < |a.signers| ==>
          b.signers[i].order == a.signers[i].order && b.signers[i].tokenHash == a.signers[i].tokenHash
          && b.signers[i].name == a.signers[i].name && b.signers[i].email == a.signers[i].email
          && (a.signers[i].status == Signed ==> b.signers[i] == a.signers[i]))
  }

  lemma SigningKeepsOk(e: Envelope, i: nat, image: string, at: int, now: int)
    requires EnvelopeOk(e) && i < |e.signers| && Gate(e, i) == Turn(i)
    ensures EnvelopeOk(SignedBy(e, i, image, at, now)) && Follows(e, SignedBy(e, i, image, at, now))
  {
    var next := SignedBy(e, i, image, at, now);
    assert next.signers[i].status == Signed;
    forall j | 0 <= j < |e.signers| && e.signers[j].order < e.signers[i].order ensures e.signers[j].status == Signed {
    }
    assert forall j :: 0 <= j < |e.signers| && j != i ==> next.signers[j] == e.signers[j];
  }

  lemma ClosingKeepsOk(e: Envelope, status: EnvelopeStatus, voidedAt: Option<int>)
    requires EnvelopeOk(e) && e.status != Completed && (status == Voided || (status == Expired && IsLive(e)))
    ensures var next := e.(status := status, voidedAt := voidedAt); EnvelopeOk(next) && Follows(e, next)
  {
  }

  lemma DecliningKeepsOk(e: Envelope, i: nat, now: int)
    requires EnvelopeOk(e) && i < |e.signers| && IsLive(e) && e.signers[i].status != Signed
    ensures EnvelopeOk(DeclinedBy(e, i, now)) && Follows(e, DeclinedBy(e, i, now))
  {
    var next := DeclinedBy(e, i, now);
    assert next.signers[i].status == Declined;
    assert forall j :: 0 <= j < |e.signers| && j != i ==> next.signers[j] == e.signers[j];
  }

  /** Every operation keeps the invariant and every signature already given. */
  lemma OperationKeepsOk(e: Envelope, op: Op, now: int)
    requires EnvelopeOk(e) && Stored(e, op, now).Some?
    ensures EnvelopeOk(Stored(e, op, now).value) && Follows(e, Stored(e, op, now).value)
  {
    hide EnvelopeOk, Follows, SignedBy, DeclinedBy, MustWait;
    if op.Void? {
      ClosingKeepsOk(e, Voided, Some(now));
    } else if ResolveToken(e, op.tokenHash, now).1 != e {
      ClosingKeepsOk(e, Expired, e.voidedAt);
    } else {
      var r := ResolveToken(e, op.tokenHash, now).0;
      if op.Record? {
        SigningKeepsOk(e, r.signer, op.image.value, if op.signedAt.Some? then op.signedAt.value else now, now);
      } else {
        DecliningKeepsOk(e, r.signer, now);
      }
    }
  }

  // ---------------------------------------------------------------------------
  // Runs
  // ---------------------------------------------------------------------------

  /** An operation that read version `read` and stores its copy some time later. */
  datatype Attempt = Attempt(read: nat, op: Op, now: int)

  /** The versions after some attempts; an attempt over an older version is rejected. */
  function Versions(start: Envelope, attempts: seq<Attempt>): (h: seq<Envelope>)
    ensures h != [] && h[0] == start
  {
    if attempts == [] then [start]
    else
      var before := Versions(start, attempts[..|attempts| - 1]);
      var a := attempts[|attempts| - 1];
      if a.read != |before| - 1 then before
      else
        var stored := Stored(before[a.read], a.op, a.now);
        if stored.None? then before else before + [stored.value]
  }

  /** Every stored version of every run is valid and follows from the one before. */
  lemma {:induction false} RunsAreOk(start: Envelope, attempts: seq<Attempt>)
    requires EnvelopeOk(start)
    ensures forall v :: 0 <= v < |Versions(start, attempts)| ==> EnvelopeOk(Versions(start, attempts)[v])
    ensures forall v :: 0 < v < |Versions(start, attempts)| ==>
              Follows(Versions(start, attempts)[v - 1], Versions(start, attempts)[v])
  {
    hide EnvelopeOk, Follows, Stored;
    if attempts != [] {
      var before, a := Versions(start, attempts[..|attempts| - 1]), attempts[|attempts| - 1];
      RunsAreOk(start, attempts[..|attempts| - 1]);
      if a.read == |before| - 1 && Stored(before[a.read], a.op, a.now).Some? {
        OperationKeepsOk(before[a.read], a.op, a.now);
      }
    }
  }

  /** Signed entries never change. */
  lemma {:induction false} SignedNeverChanges(start: Envelope, attempts: seq<Attempt>, v: nat, w: nat, i: nat)
    requires EnvelopeOk(start) && v <= w < |Versions(start, attempts)| && i < |start.signers|
    ensures var h := Versions(start, attempts);
            && |h[v].signers| == |h[w].signers| == |start.signers|
            && h[w].signers[i].order == start.signers[i].order
            && (h[v].signers[i].status == Signed ==> h[w].signers[i] == h[v].signers[i])
    decreases w
  {
    RunsAreOk(start, attempts);
    hide EnvelopeOk;
    if w > 0 {
      SignedNeverChanges(start, attempts, if v == w then w - 1 else v, w - 1, i);
      assert Follows(Versions(start, attempts)[w - 1], Versions(start, attempts)[w]);
      hide Versions;
    }
  }

  lemma VersionFollows(start: Envelope, attempts: seq<Attempt>, v: nat)
    requires EnvelopeOk(start) && v + 1 < |Versions(start, attempts)|
    ensures Follows(Versions(start, attempts)[v], Versions(start, attempts)[v + 1])
  {
    RunsAreOk(start, attempts);
    var w := v + 1;
    assert Follows(Versions(start, attempts)[w - 1], Versions(start, attempts)[w]);
    hide EnvelopeOk, Versions, Follows;
  }

  /** A completed envelope is the last version: nothing is stored over it. */
  lemma CompletedIsFinal(start: Envelope, attempts: seq<Attempt>, v: nat)
    requires EnvelopeOk(start) && v < |Versions(start, attempts)| && Versions(start, attempts)[v].status == Completed
    ensures v == |Versions(start, attempts)| - 1
  {
    if v + 1 < |Versions(start, attempts)| { VersionFollows(start, attempts, v); }
    hide Versions;
  }

  /** A closed envelope is never live again: its signers stay as they are, and it can only
      be voided. */
  lemma {:induction false} ClosedStaysClosed(start: Envelope, attempts: seq<Attempt>, v: nat, w: nat)
    requires EnvelopeOk(start) && v < w < |Versions(start, attempts)| && !IsLive(Versions(start, attempts)[v])
    ensures Versions(start, attempts)[w].status == Voided
    ensures Versions(start, attempts)[w].signers == Versions(start, attempts)[v].signers
    decreases w
  {
    VersionFollows(start, attempts, w - 1);
    if v < w - 1 { ClosedStaysClosed(start, attempts, v, w - 1); }
    hide Versions;
  }

  /** Signer `i` signed in the step to version `v`. */
  predicate SignsAt(h: seq<Envelope>, v: nat, i: nat) {
    && 0 < v < |h| && i < |h[v].signers| && i < |h[v - 1].signers|
    && h[v].signers[i].status == Signed && h[v - 1].signers[i].status != Signed
  }

  /** Signatures are given in the signing order, whoever raced whom. */
  lemma SignaturesFollowOrder(start: Envelope, attempts: seq<Attempt>, v: nat, i: nat, w: nat, j: nat)
    requires EnvelopeOk(start) && v < w
    requires SignsAt(Versions(start, attempts), v, i) && SignsAt(Versions(start, attempts), w, j)
    requires i < |start.signers| && j < |start.signers|
    ensures start.signers[i].order <= start.signers[j].order
  {
    hide Versions;
    var h := Versions(start, attempts);
    RunsAreOk(start, attempts);
    SignedNeverChanges(start, attempts, v, w - 1, j);
    SignedNeverChanges(start, attempts, v, w - 1, i);
    SignedNeverChanges(start, attempts, v, v, j);
    assert EnvelopeOk(h[v]);
  }

  /** Whose turn it is: a signer of least order among those who have not signed. */
  lemma {:induction false} FirstUnsigned(signers: seq<Signer>, n: nat) returns (i: nat)
    requires n <= |signers| && exists k :: 0 <= k < n && signers[k].status != Signed
    ensures i < n && signers[i].status != Signed
    ensures forall j :: 0 <= j < n && signers[j].status != Signed ==> signers[i].order <= signers[j].order
  {
    if exists k :: 0 <= k < n - 1 && signers[k].status != Signed {
      i := FirstUnsigned(signers, n - 1);
      if signers[n - 1].status != Signed && signers[n - 1].order < signers[i].order { i := n - 1; }
    } else {
      i := n - 1;
    }
  }

  /** A live envelope that has not expired is never stuck: some signer's token resolves. */
  lemma LiveEnvelopeHasATurn(start: Envelope, attempts: seq<Attempt>, v: nat, now: int) returns (i: nat)
    requires EnvelopeOk(start) && v < |Versions(start, attempts)|
    requires IsLive(Versions(start, attempts)[v]) && !HasExpired(Versions(start, attempts)[v], now)
    ensures var e := Versions(start, attempts)[v];
            i < |e.signers| && ResolveToken(e, e.signers[i].tokenHash, now) == (Turn(i), e)
  {
    RunsAreOk(start, attempts);
    var e := Versions(start, attempts)[v];
    hide Versions;
    assert !AllSigned(e.signers);
    i := FirstUnsigned(e.signers, |e.signers|);
    var found := FindSigner(e.signers, e.signers[i].tokenHash).value;
    assert found == i by {
      assert e.signers[found].tokenHash == e.signers[i].tokenHash;
    }
  }

  /** Composing a stored envelope succeeds exactly when it is completed, and then it is the
      document that was sent with a block for every signer, in their order, each with that
      signer's own name, address, image and date; none of them is missing. */
  lemma CompletedComposes(start: Envelope, attempts: seq<Attempt>, v: nat)
    requires EnvelopeOk(start) && v < |Versions(start, attempts)|
    ensures var e := Versions(start, attempts)[v]; var r := ComposeEnvelopeHtml(e);
            && (r.Success? <==> AllSigned(e.signers))
            && (r.Success? ==>
                  && r.value.html == start.html && |r.value.blocks| == |e.signers| == |start.signers|
                  && forall i :: 0 <= i < |e.signers| ==>
                       && r.value.blocks[i].Some?
                       && r.value.blocks[i].value.name == start.signers[i].name
                       && r.value.blocks[i].value.email == start.signers[i].email
                       && e.signers[i].image == Some(r.value.blocks[i].value.image)
                       && e.signers[i].signedAt == Some(r.value.blocks[i].value.signedAt))
  {
    RunsAreOk(start, attempts);
    NamesStay(start, attempts, v);
    hide Versions;
  }

  /** Document, names and addresses are those of the envelope that was sent. */
  lemma {:induction false} NamesStay(start: Envelope, attempts: seq<Attempt>, v: nat)
    requires EnvelopeOk(start) && v < |Versions(start, attempts)|
    ensures var e := Versions(start, attempts)[v];
            && e.html == start.html && e.expiresAt == start.expiresAt && |e.signers| == |start.signers|
            && forall i :: 0 <= i < |e.signers| ==> e.signers[i].name == start.signers[i].name && e.signers[i].email == start.signers[i].email
    decreases v
  {
    if v > 0 {
      NamesStay(start, attempts, v - 1);
      VersionFollows(start, attempts, v - 1);
    }
    hide Versions, EnvelopeOk;
  }
}
