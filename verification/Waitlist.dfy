/** Waitlist records and their outbox rows (infra/waitlist/src/handler.js:226-395 and
    infra/waitlist/src/backfill-outbox.js:60-108). */
module Waitlist {
  import opened Domain
  import Decimal

  /** A creation time: exact ISO text, known by its milliseconds, or other text. */
  datatype CreatedAt = Exact(ms: int) | Other(text: string)

  /** A row of the private table; attributes may be missing. */
  datatype Row = Row(
    key: string, recordType: Option<string>, version: Option<string>, submissionId: Option<string>,
    expiresAt: Option<int>, createdAt: Option<CreatedAt>, offer: Option<string>, retention: Option<string>)

  /** A row of the outbox table, without its constant attributes. */
  datatype Outbox = Outbox(submissionId: string, offer: string, createdAt: CreatedAt, retention: string, expiresAt: int)

  /** What a request handler stores. */
  datatype Submission = Submission(
    key: string, recordType: string, version: string, submissionId: string, expiresAt: int,
    createdAt: CreatedAt, offer: string, retention: string,
    source: string, permission: string, emailStatus: string)

  const WAITLIST := "waitlist_submission"
  const SMOKE := "smoke_test"
  const RANDOM_V1 := "random-v1"
  const ALLOWED_OFFERS: set<string> := 
    {"shared_starter", "shared_team", "shared_scale", "business", "dedicated", "addon_hipaa_baa",
     "addon_hsm_signer", "addon_21cfr_part11", "addon_uuaid_ent", "addon_worm", "addon_eidas_qes"}

  predicate IsHexDigit(c: char) {
    '0' <= c <= '9' || 'a' <= c <= 'f'
  }

  /** A prefix and then a fixed number of lower-case hexadecimal digits. */
  predicate HexAfter(s: string, prefix: string, digits: nat) {
    && |s| == |prefix| + digits && s[..|prefix|] == prefix
    && forall i :: |prefix| <= i < |s| ==> IsHexDigit(s[i])
  }

  predicate IsOpaqueId(s: string) {
    HexAfter(s, "wl_", 24)
  }

  predicate IsSubmissionKey(s: string) {
    HexAfter(s, "WAITLIST#", 64)
  }

  const RETENTION_PREFIX := "waitlist_"

  /** The days of a production retention class, of two or three digits. */
  function RetentionDays(s: string): Option<nat> {
    var n := |RETENTION_PREFIX|;
    if |s| < n + 3 || |s| > n + 4 || s[..n] != RETENTION_PREFIX || s[|s| - 1] != 'd' || !Decimal.AllDigits(s[n..|s| - 1])
    then None
    else Some(Decimal.Value(s[n..|s| - 1]))
  }

  const SECONDS_PER_DAY := 24 * 60 * 60

  function CreateNotificationOutbox(s: Submission): Option<Outbox> {
    var days := RetentionDays(s.retention);
    if s.recordType != WAITLIST || !IsOpaqueId(s.submissionId) || s.version != RANDOM_V1
       || s.offer !in ALLOWED_OFFERS || s.source != "pricing"
       || s.permission != "asserted_unverified" || s.emailStatus != "unverified"
       || days.None? || days.value < 30 || days.value > 180 || !s.createdAt.Exact?
       || s.expiresAt != s.createdAt.ms / 1000 + days.value * SECONDS_PER_DAY
    then None
    else Some(Outbox(s.submissionId, s.offer, s.createdAt, s.retention, s.expiresAt))
  }

  /** The stored form of a submission. */
  function ToItem(s: Submission): Row {
    Row(s.key, Some(s.recordType), Some(s.version), Some(s.submissionId), Some(s.expiresAt), Some(s.createdAt),
        Some(s.offer), Some(s.retention))
  }

  /** The backfill's projection of a stored row; None stands for its error. */
  function ToOutbox(r: Row): Option<Outbox> {
    if r.submissionId.None? || r.version.None? || r.createdAt.None? || r.offer.None? || r.retention.None?
       || r.expiresAt.None? || r.recordType.None?
    then None
    else
      CreateNotificationOutbox(Submission(
        r.key, r.recordType.value, r.version.value, r.submissionId.value, r.expiresAt.value, r.createdAt.value,
        r.offer.value, r.retention.value, "pricing", "asserted_unverified", "unverified"))
  }

  /** The backfill expects for a stored submission exactly what the handler wrote. */
  lemma HandlerAndBackfillAgree(s: Submission)
    requires CreateNotificationOutbox(s).Some?
    ensures ToOutbox(ToItem(s)) == CreateNotificationOutbox(s)
    ensures CreateNotificationOutbox(s).value == Outbox(s.submissionId, s.offer, s.createdAt, s.retention, s.expiresAt)
    ensures ToItem(s).key == s.key && ToItem(s).submissionId == Some(s.submissionId) && ToItem(s).offer == Some(s.offer)
            && ToItem(s).retention == Some(s.retention) && ToItem(s).version == Some(s.version)
  {
  }

  /** A submission stands for its notification exactly if it is a confirmed production
      submission with a random id, kept for whole days within bounds from its creation. */
  lemma OutboxIff(s: Submission)
    ensures CreateNotificationOutbox(s).Some? <==>
              && s.recordType == "waitlist_submission" && s.version == "random-v1" && IsOpaqueId(s.submissionId)
              && s.offer in ALLOWED_OFFERS && s.source == "pricing"
              && s.permission == "asserted_unverified" && s.emailStatus == "unverified"
              && s.createdAt.Exact? && RetentionDays(s.retention).Some?
              && 30 <= RetentionDays(s.retention).value <= 180
              && s.expiresAt == s.createdAt.ms / 1000 + 86_400 * RetentionDays(s.retention).value
  {
    hide RetentionDays, IsOpaqueId;
  }

  /** Ids are "wl_" and 24 lower-case hexadecimal digits, keys "WAITLIST#" and 64. */
  lemma IdsAndKeysAre(s: string)
    ensures IsOpaqueId(s) <==> |s| == 27 && s[..3] == "wl_" && forall c :: c in s[3..] ==> c in "0123456789abcdef"
    ensures IsSubmissionKey(s) <==> |s| == 73 && s[..9] == "WAITLIST#" && forall c :: c in s[9..] ==> c in "0123456789abcdef"
  {
    assert forall c: char :: c in "0123456789abcdef" <==> IsHexDigit(c);
    hide IsHexDigit;
    assert forall i :: 3 <= i < |s| ==> s[i] == s[3..][i - 3];
    assert forall i :: 9 <= i < |s| ==> s[i] == s[9..][i - 9];
  }

  /** A row that the backfill takes: a well-formed key, one of the two types, an expiry, and a
      version only together with a random id. */
  lemma ValidSourceIff(r: Row)
    ensures ValidSource(r) <==>
              && IsSubmissionKey(r.key) && r.recordType.Some? && r.recordType.value in ["waitlist_submission", "smoke_test"]
              && r.expiresAt.Some? && -0x1F_FFFF_FFFF_FFFF <= r.expiresAt.value <= 0x1F_FFFF_FFFF_FFFF
              && (r.version == None || (r.version == Some("random-v1") && r.submissionId.Some? && IsOpaqueId(r.submissionId.value)))
  {
    hide IsSubmissionKey, IsOpaqueId;
  }

  /** A retention class names its days in two or three digits. */
  lemma RetentionDaysIff(digits: string, days: nat)
    requires Decimal.AllDigits(digits) && (|digits| == 2 || |digits| == 3) && Decimal.Value(digits) == days
    ensures RetentionDays("waitlist_" + digits + "d") == Some(days)
  {
    var s := RETENTION_PREFIX + digits + "d";
    assert s[..|RETENTION_PREFIX|] == RETENTION_PREFIX && s[|RETENTION_PREFIX|..|s| - 1] == digits && s[|s| - 1] == 'd';
  }

  predicate ValidSource(r: Row) {
    && IsSubmissionKey(r.key) && (r.recordType == Some(WAITLIST) || r.recordType == Some(SMOKE))
    && (r.version.None? || r.version == Some(RANDOM_V1))
    && (r.version.Some? ==> r.submissionId.Some? && IsOpaqueId(r.submissionId.value))
    && r.expiresAt.Some? && IsSafeInteger(r.expiresAt.value)
  }

  predicate IsActiveAt(r: Row, now: int) {
    r.recordType == Some(WAITLIST) && r.expiresAt.Some? && r.expiresAt.value > now
  }

  function WithOpaqueId(r: Row, id: string): Row {
    r.(submissionId := Some(id), version := Some(RANDOM_V1))
  }

  /** A new id and its version are the only changes, so a row that can be projected with one
      id can be projected with any other. */
  lemma ProjectionFollowsId(r: Row, id: string, other: string)
    requires IsOpaqueId(id) && IsOpaqueId(other) && ToOutbox(WithOpaqueId(r, id)).Some?
    ensures ToOutbox(WithOpaqueId(r, other)).Some?
    ensures ToOutbox(WithOpaqueId(r, other)).value == ToOutbox(WithOpaqueId(r, id)).value.(submissionId := other)
  {
  }

  /** `createSubmission` for a validated request; retention in days or, for a smoke test, hours. */
  function CreateSubmission(
    digest: string, id: string, offer: string, smoke: bool, nowMs: int, retentionDays: nat, smokeHours: nat): Submission
  {
    Submission(
      "WAITLIST#" + digest, if smoke then SMOKE else WAITLIST, RANDOM_V1, id,
      nowMs / 1000 + (if smoke then smokeHours * 60 * 60 else retentionDays * SECONDS_PER_DAY),
      Exact(nowMs), offer,
      if smoke then "smoke_" + Decimal.Print(smokeHours) + "h" else RETENTION_PREFIX + Decimal.Print(retentionDays) + "d",
      "pricing", "asserted_unverified", "unverified")
  }

  lemma PrintedLength(n: nat)
    ensures n < 10 <==> |Decimal.Print(n)| < 2
    ensures n >= 1000 <==> |Decimal.Print(n)| > 3
  {
    if n >= 10 {
      assert Decimal.Print(n) == Decimal.Print(n / 10) + [Decimal.DigitChar(n % 10)];
      if n >= 100 {
        assert Decimal.Print(n / 10) == Decimal.Print(n / 10 / 10) + [Decimal.DigitChar(n / 10 % 10)];
        if n >= 1000 {
          assert Decimal.Print(n / 100) == Decimal.Print(n / 100 / 10) + [Decimal.DigitChar(n / 100 % 10)];
        }
      }
    }
  }

  lemma PrintedDays(days: nat)
    ensures RetentionDays(RETENTION_PREFIX + Decimal.Print(days) + "d") == if 10 <= days < 1000 then Some(days) else None
  {
    var digits, n := Decimal.Print(days), |RETENTION_PREFIX|;
    var s := RETENTION_PREFIX + digits + "d";
    assert s[..n] == RETENTION_PREFIX && s[n..|s| - 1] == digits && s[|s| - 1] == 'd';
    PrintedLength(days);
    Decimal.ReadsBack(days);
    hide Decimal.Print, Decimal.Value;
  }

  /** A submission of the handler has an outbox row exactly if it is a production submission
      for an allowed offer, kept between 30 and 180 days; so within the configured bounds
      storing one never fails for want of an outbox row. */
  lemma SubmissionHasOutboxIff(
    digest: string, id: string, offer: string, smoke: bool, nowMs: int, retentionDays: nat, smokeHours: nat)
    requires IsOpaqueId(id)
    ensures CreateNotificationOutbox(CreateSubmission(digest, id, offer, smoke, nowMs, retentionDays, smokeHours)).Some?
        <==> !smoke && offer in ALLOWED_OFFERS && 30 <= retentionDays <= 180
    ensures var s := CreateSubmission(digest, id, offer, smoke, nowMs, retentionDays, smokeHours);
            && s.submissionId == id && s.offer == offer && s.createdAt == Exact(nowMs) && s.key == "WAITLIST#" + digest
            && s.recordType == (if smoke then "smoke_test" else "waitlist_submission") && s.version == "random-v1"
            && s.expiresAt == nowMs / 1000 + (if smoke then 3600 * smokeHours else 86_400 * retentionDays)
  {
    PrintedDays(retentionDays);
    hide RetentionDays, IsOpaqueId, Decimal.Print;
  }
}
