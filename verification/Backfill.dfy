/** The waitlist outbox backfill (infra/waitlist/src/backfill-outbox.js:123-304), alone and
    against handlers that store submissions between any two of its calls. */
module Backfill {
  import opened Domain
  import opened Waitlist

  type Rows = map<string, Row>

  type OutboxRows = map<string, Outbox>

  /** `true`, `false`, and an exception. */
  datatype PutResult = Stored | Duplicate | PutFailed

  /** The two tables. Each method is one atomic request. */
  class Tables {
    var rows: Rows
    var outbox: OutboxRows

    constructor (rows: Rows, outbox: OutboxRows)
      ensures this.rows == rows && this.outbox == outbox
    {
      this.rows, this.outbox := rows, outbox;
    }

    /** `putSubmission`: the row and its outbox row, or neither. A submission that is there
        already is reported as such exactly if that is all that is wrong; a submission
        without a valid outbox row, or whose outbox key is taken, is an error. */
    method PutSubmission(s: Submission) returns (r: PutResult)
      modifies this
      ensures r == PutFailed <==> s.recordType == WAITLIST && (CreateNotificationOutbox(s).None? || s.submissionId in old(outbox))
      ensures r == Duplicate <==> r != PutFailed && s.key in old(rows)
      ensures rows == if r == Stored then old(rows)[s.key := ToItem(s)] else old(rows)
      ensures outbox == if r == Stored && s.recordType == WAITLIST
                        then old(outbox)[s.submissionId := CreateNotificationOutbox(s).value] else old(outbox)
    {
      if s.recordType == WAITLIST {
        var o := CreateNotificationOutbox(s);
        if o.None? || s.submissionId in outbox { return PutFailed; }
        if s.key in rows { return Duplicate; }
        outbox := outbox[s.submissionId := o.value];
      } else if s.key in rows {
        return Duplicate;
      }
      rows := rows[s.key := ToItem(s)];
      return Stored;
    }

    /** A conditional put of an outbox row. */
    method PutOutbox(o: Outbox) returns (stored: bool)
      modifies this`outbox
      ensures stored <==> o.submissionId !in old(outbox)
      ensures outbox == if stored then old(outbox)[o.submissionId := o] else old(outbox)
    {
      if o.submissionId in outbox { return false; }
      outbox := outbox[o.submissionId := o];
      return true;
    }

    /** The migration's transaction: the conditional update of the row, the conditional put
        of its outbox row, and the removal of the old one. */
    method Transact(key: string, old_id: Option<string>, id: string, put: Option<Outbox>) returns (stored: bool)
      requires key in rows && (put.Some? ==> put.value.submissionId == id)
      modifies this
      ensures stored <==> && old(rows)[key].version.None? && old(rows)[key].submissionId == old_id
                          && (put.Some? ==> id !in old(outbox))
      ensures rows == if stored then old(rows)[key := WithOpaqueId(old(rows)[key], id)] else old(rows)
      ensures outbox == if stored then Replaced(old(outbox), old_id, id, put) else old(outbox)
    {
      if rows[key].version.Some? || rows[key].submissionId != old_id || (put.Some? && id in outbox) { return false; }
      rows := rows[key := WithOpaqueId(rows[key], id)];
      outbox := Replaced(outbox, old_id, id, put);
      return true;
    }
  }

  function Replaced(outbox: OutboxRows, old_id: Option<string>, id: string, put: Option<Outbox>): OutboxRows {
    var added := if put.Some? then outbox[id := put.value] else outbox;
    if old_id.Some? && IsOpaqueId(old_id.value) then added - {old_id.value} else added
  }

  // ---------------------------------------------------------------------------
  // What the backfill is for
  // ---------------------------------------------------------------------------

  /** The row has a random id and, unless it is expired or a smoke test, its outbox row. */
  predicate Settled(r: Row, outbox: OutboxRows, now: int) {
    && r.version == Some(RANDOM_V1) && r.submissionId.Some?
    && (IsActiveAt(r, now) ==>
          ToOutbox(r).Some? && r.submissionId.value in outbox && outbox[r.submissionId.value] == ToOutbox(r).value)
  }

  /** A settled row has a random id; and if it is a waitlist submission that expires later
      than now, a row with that id, offer, creation, retention and expiry is in the outbox. */
  lemma SettledMeans(r: Row, outbox: OutboxRows, now: int)
    requires Settled(r, outbox, now)
    ensures r.version == Some("random-v1") && r.submissionId.Some?
    ensures r.recordType == Some("waitlist_submission") && r.expiresAt.Some? && now < r.expiresAt.value ==>
              && r.offer.Some? && r.createdAt.Some? && r.retention.Some? && r.submissionId.value in outbox
              && outbox[r.submissionId.value]
                 == Outbox(r.submissionId.value, r.offer.value, r.createdAt.value, r.retention.value, r.expiresAt.value)
  {
    hide RetentionDays, IsOpaqueId;
  }

  /** A row that has a random id and needs no outbox row, because it is a smoke test or has
      expired, is settled. */
  lemma ExpiredNeedsNothing(r: Row, outbox: OutboxRows, now: int)
    requires r.version == Some("random-v1") && r.submissionId.Some? && r.expiresAt.Some?
    requires r.recordType != Some("waitlist_submission") || r.expiresAt.value <= now
    ensures Settled(r, outbox, now)
  {
  }

  predicate AllSettled(rows: Rows, outbox: OutboxRows, now: int) {
    forall k :: k in rows ==> Settled(rows[k], outbox, now)
  }

  predicate Keyed(rows: Rows) {
    forall k :: k in rows ==> rows[k].key == k
  }

  /** What handlers can do to the tables: add rows, each with its outbox row. */
  predicate Grown(rows: Rows, outbox: OutboxRows, rows': Rows, outbox': OutboxRows, now: int) {
    && (forall k :: k in rows ==> k in rows' && rows'[k] == rows[k])
    && (forall id :: id in outbox ==> id in outbox' && outbox'[id] == outbox[id])
    && (forall k :: k in rows' && k !in rows ==> rows'[k].key == k && Settled(rows'[k], outbox', now))
  }

  lemma GrownTransitive(
    a: Rows, x: OutboxRows, b: Rows, y: OutboxRows, c: Rows, z: OutboxRows, now: int)
    requires Grown(a, x, b, y, now) && Grown(b, y, c, z, now)
    ensures Grown(a, x, c, z, now)
  {
    hide ToOutbox, IsActiveAt;
  }

  lemma SubmissionGrows(rows: Rows, outbox: OutboxRows, s: Submission, now: int)
    requires s.key !in rows && s.version == RANDOM_V1
    requires s.recordType == WAITLIST ==> CreateNotificationOutbox(s).Some? && s.submissionId !in outbox
    ensures Grown(rows, outbox, rows[s.key := ToItem(s)],
                  if s.recordType == WAITLIST then outbox[s.submissionId := CreateNotificationOutbox(s).value] else outbox, now)
  {
    if s.recordType == WAITLIST { HandlerAndBackfillAgree(s); }
    hide CreateNotificationOutbox, ToOutbox;
  }

  /** Handlers store any submissions, unless the backfill is to run alone. */
  method Handlers(t: Tables, alone: bool, now: int)
    modifies t
    ensures Grown(old(t.rows), old(t.outbox), t.rows, t.outbox, now)
    ensures alone ==> t.rows == old(t.rows) && t.outbox == old(t.outbox)
  {
    if alone { return; }
    var submissions: seq<Submission> := *;
    for n := 0 to |submissions|
      invariant Grown(old(t.rows), old(t.outbox), t.rows, t.outbox, now)
    {
      var s := submissions[n].(version := RANDOM_V1);
      ghost var rows, outbox := t.rows, t.outbox;
      var r := t.PutSubmission(s);
      if r == Stored { SubmissionGrows(rows, outbox, s, now); }
      hide Grown;
      if r == Stored { GrownTransitive(old(t.rows), old(t.outbox), rows, outbox, t.rows, t.outbox, now); }
    }
  }

  // ---------------------------------------------------------------------------
  // Requests of the backfill
  // ---------------------------------------------------------------------------

  /** `scanAll`: every row that was there when the scan began is listed once, some of those
      stored meanwhile may be, and what is listed is still there. */
  method ScanAll(t: Tables, alone: bool, now: int) returns (items: seq<Row>)
    requires Keyed(t.rows)
    modifies t
    ensures Keyed(t.rows) && Grown(old(t.rows), old(t.outbox), t.rows, t.outbox, now)
    ensures alone ==> t.rows == old(t.rows) && t.outbox == old(t.outbox) && |items| == |t.rows|
    ensures forall k :: k in old(t.rows) ==> old(t.rows)[k] in items
    ensures Listed(items, t.rows)
  {
    items := [];
    var left := t.rows.Keys;
    ghost var rows := t.rows;
    while left != {}
      invariant left <= rows.Keys && Keyed(t.rows) && Grown(rows, old(t.outbox), t.rows, t.outbox, now)
      invariant alone ==> t.rows == rows && t.outbox == old(t.outbox)
      invariant forall k :: k in rows && k !in left ==> rows[k] in items
      invariant forall i :: 0 <= i < |items| ==> items[i].key in rows && items[i].key !in left
      invariant Listed(items, t.rows) && |items| + |left| == |rows.Keys|
      decreases |left|
    {
      var k :| k in left;
      left := left - {k};
      ghost var r, o := t.rows, t.outbox;
      ListOne(items, t.rows, k);
      items := items + [t.rows[k]];
      hide Grown;
      Handlers(t, alone, now);
      GrownTransitive(rows, old(t.outbox), r, o, t.rows, t.outbox, now);
      GrownKeepsListed(items, r, o, t.rows, t.outbox, now);
    }
    if !alone { items := ListMore(items, t); }
  }

  /** Rows that were stored while the scan went on may be listed as well. */
  method ListMore(listed: seq<Row>, t: Tables) returns (items: seq<Row>)
    requires Listed(listed, t.rows) && Keyed(t.rows)
    ensures Listed(items, t.rows) && listed <= items
  {
    items := listed;
    var more: set<string> := *;
    more := more * t.rows.Keys;
    while more != {}
      invariant more <= t.rows.Keys && Listed(items, t.rows) && listed <= items
      decreases |more|
    {
      var k :| k in more;
      more := more - {k};
      if forall i :: 0 <= i < |items| ==> items[i].key != k {
        ListOne(items, t.rows, k);
        items := items + [t.rows[k]];
      }
    }
  }

  /** Each listed row is the stored row of its key, and none is listed twice. */
  predicate Listed(items: seq<Row>, rows: Rows) {
    && (forall i :: 0 <= i < |items| ==> items[i].key in rows && rows[items[i].key] == items[i])
    && (forall i, j :: 0 <= i < j < |items| ==> items[i].key != items[j].key)
  }

  lemma ListOne(items: seq<Row>, rows: Rows, k: string)
    requires Listed(items, rows) && Keyed(rows) && k in rows && forall i :: 0 <= i < |items| ==> items[i].key != k
    ensures Listed(items + [rows[k]], rows)
  {
  }

  lemma GrownKeepsListed(items: seq<Row>, r: Rows, o: OutboxRows, r': Rows, o': OutboxRows, now: int)
    requires Listed(items, r) && Keyed(r) && Grown(r, o, r', o', now)
    ensures Listed(items, r') && Keyed(r')
  {
    hide Settled;
  }

  datatype Step = Skipped | Inserted | Migrated | Retry | Threw

  /** `nextOpaqueId`: up to four draws until one differs; the source of randomness may dry up. */
  method NextOpaqueId(supply: seq<string>, next: nat, previous: Option<string>) returns (id: Option<string>, next': nat)
    requires next <= |supply| && forall i :: 0 <= i < |supply| ==> IsOpaqueId(supply[i])
    ensures next <= next' <= |supply|
    ensures id.Some? ==> next < next' && id.value == supply[next' - 1] && id != previous
    ensures next < |supply| && Some(supply[next]) != previous ==> id == Some(supply[next]) && next' == next + 1
    ensures id.None? ==> next' == |supply| || next' == next + 4
    ensures forall j :: next <= j < (if id.Some? then next' - 1 else next') ==> Some(supply[j]) == previous
  {
    next' := next;
    for attempt := 0 to 4
      invariant next' == next + attempt <= |supply|
      invariant forall j :: next <= j < next' ==> Some(supply[j]) == previous
      invariant attempt > 0 ==> Some(supply[next]) == previous
    {
      if next' == |supply| { return None, next'; }
      var candidate := supply[next'];
      next' := next' + 1;
      if Some(candidate) != previous { return Some(candidate), next'; }
    }
    return None, next';
  }

  /** The outbox row that a migrated row needs. */
  function NeededOutbox(item: Row, id: string, now: int): Option<Outbox> {
    if IsActiveAt(item, now) then ToOutbox(WithOpaqueId(item, id)) else None
  }

  /** `migrateSource` for a row that was listed without a version. It migrates the row in
      one transaction over the tables as they are then, `mid`, or changes nothing itself;
      before and after, handlers only add rows. */
  method MigrateSource(t: Tables, item: Row, alone: bool, now: int, supply: seq<string>, next: nat)
    returns (r: Step, next': nat, ghost mid: (Rows, OutboxRows))
    requires Keyed(t.rows) && item.key in t.rows && item.version.None? && ValidSource(item)
    requires next <= |supply| && forall i :: 0 <= i < |supply| ==> IsOpaqueId(supply[i])
    modifies t
    ensures Keyed(t.rows) && old(t.rows).Keys <= t.rows.Keys && next <= next' <= |supply|
    ensures r == Migrated || r == Retry || r == Threw
    ensures r != Migrated ==> Grown(old(t.rows), old(t.outbox), t.rows, t.outbox, now)
    ensures r == Migrated ==>
              && next < next' && Grown(old(t.rows), old(t.outbox), mid.0, mid.1, now)
              && item.key in mid.0 && mid.0[item.key].version.None? && mid.0[item.key].submissionId == item.submissionId
              && var id := supply[next' - 1];
                 && Some(id) != item.submissionId
                 && (IsActiveAt(item, now) ==> NeededOutbox(item, id, now).Some? && id !in mid.1)
                 && Grown(mid.0[item.key := WithOpaqueId(mid.0[item.key], id)],
                          Replaced(mid.1, item.submissionId, id, NeededOutbox(item, id, now)), t.rows, t.outbox, now)
    ensures alone && old(t.rows)[item.key] == item && next < |supply| && Some(supply[next]) != item.submissionId
            && supply[next] !in old(t.outbox) && (IsActiveAt(item, now) ==> ToOutbox(WithOpaqueId(item, supply[next])).Some?) ==>
              && r == Migrated && next' == next + 1
              && (t.rows, t.outbox) == AfterMigration(old(t.rows), old(t.outbox), item, supply[next], now)
  {
    hide ValidSource, ToOutbox, IsOpaqueId, IsActiveAt;
    mid := (t.rows, t.outbox);
    GrownReflexive(t.rows, t.outbox, now);
    var id;
    id, next' := NextOpaqueId(supply, next, item.submissionId);
    if id.None? { return Threw, next', mid; }
    var put := None;
    if IsActiveAt(item, now) {
      put := ToOutbox(WithOpaqueId(item, id.value));
      if put.None? { return Threw, next', mid; }
      ProjectionHasId(item, id.value);
    }
    Handlers(t, alone, now);
    mid := (t.rows, t.outbox);
    assert item.key in t.rows;
    var stored := t.Transact(item.key, item.submissionId, id.value, put);
    if !stored { return Retry, next', mid; }
    ghost var rows, outbox := t.rows, t.outbox;
    Handlers(t, alone, now);
    KeyedGrows(mid.0, item.key, WithOpaqueId(mid.0[item.key], id.value), rows, outbox, t.rows, t.outbox, now);
    NewRowStays(rows, outbox, t.rows, t.outbox, now, item.submissionId, id.value, put, mid.1);
    if put.Some? && (id.value !in t.outbox || t.outbox[id.value] != put.value) { return Threw, next', mid; }
    return Migrated, next', mid;
  }

  lemma KeyedGrows(
    before: Rows, key: string, row: Row, rows: Rows, outbox: OutboxRows, rows': Rows, outbox': OutboxRows, now: int)
    requires Keyed(before) && row.key == key && rows == before[key := row] && Grown(rows, outbox, rows', outbox', now)
    ensures Keyed(rows') && before.Keys <= rows'.Keys
  {
    hide Settled;
  }

  /** Nothing is wrong with the outbox row when it is read again. */
  lemma NewRowStays(
    rows: Rows, outbox: OutboxRows, rows': Rows, outbox': OutboxRows, now: int,
    previous: Option<string>, id: string, put: Option<Outbox>, before: OutboxRows)
    requires Grown(rows, outbox, rows', outbox', now) && outbox == Replaced(before, previous, id, put) && previous != Some(id)
    ensures put.Some? ==> id in outbox' && outbox'[id] == put.value
  {
    hide Settled, IsOpaqueId;
  }

  function AfterMigration(rows: Rows, outbox: OutboxRows, item: Row, id: string, now: int): (Rows, OutboxRows) {
    (rows[item.key := WithOpaqueId(item, id)],
     Replaced(outbox, item.submissionId, id, NeededOutbox(item, id, now)))
  }

  lemma ProjectionHasId(item: Row, id: string)
    requires ToOutbox(WithOpaqueId(item, id)).Some?
    ensures ToOutbox(WithOpaqueId(item, id)).value.submissionId == id
  {
  }

  /** One listed row: migrate it, or see to its outbox row, or leave it. */
  method ProcessItem(t: Tables, item: Row, alone: bool, now: int, supply: seq<string>, next: nat)
    returns (r: Step, next': nat)
    requires Keyed(t.rows) && item.key in t.rows
    requires next <= |supply| && forall i :: 0 <= i < |supply| ==> IsOpaqueId(supply[i])
    modifies t
    ensures Keyed(t.rows) && old(t.rows).Keys <= t.rows.Keys && next <= next' <= |supply|
    ensures r == Skipped || r == Retry ==> Grown(old(t.rows), old(t.outbox), t.rows, t.outbox, now)
    ensures r == Skipped ==> Settled(item, t.outbox, now)
    ensures alone && MigratesAlone(item, old(t.rows), old(t.outbox), now, supply, next) ==>
              && r == Migrated && next' == next + 1
              && (t.rows, t.outbox) == AfterMigration(old(t.rows), old(t.outbox), item, supply[next], now)
    ensures !ValidSource(item) ==> r == Threw && t.rows == old(t.rows) && t.outbox == old(t.outbox)
    ensures alone && FitsOutbox(item, old(t.outbox), now) ==>
              && (r == Skipped || r == Inserted) && next' == next && t.rows == old(t.rows)
              && t.outbox == AfterPut(old(t.outbox), item, now)
              && (Settled(item, old(t.outbox), now) ==> r == Skipped)
  {
    next' := next;
    if !ValidSource(item) { return Threw, next'; }
    if item.version.None? {
      ghost var mid;
      r, next', mid := MigrateSource(t, item, alone, now, supply, next);
      return;
    }
    GrownReflexive(t.rows, t.outbox, now);
    if !IsActiveAt(item, now) { return Skipped, next'; }
    var o := ToOutbox(item);
    if o.None? { return Threw, next'; }
    OwnProjectionHasId(item);
    hide ValidSource, ToOutbox, IsOpaqueId, IsActiveAt;
    ghost var r0, o0 := t.rows, t.outbox;
    Handlers(t, alone, now);
    ghost var r1, o1 := t.rows, t.outbox;
    var stored := t.PutOutbox(o.value);
    Handlers(t, alone, now);
    if o.value.submissionId !in t.outbox || t.outbox[o.value.submissionId] != o.value { return Threw, next'; }
    if stored { return Inserted, next'; }
    GrownTransitive(r0, o0, r1, o1, t.rows, t.outbox, now);
    return Skipped, next';
  }

  lemma OwnProjectionHasId(r: Row)
    requires ToOutbox(r).Some?
    ensures r.submissionId == Some(ToOutbox(r).value.submissionId)
  {
  }

  lemma GrownReflexive(rows: Rows, outbox: OutboxRows, now: int)
    ensures Grown(rows, outbox, rows, outbox, now)
  {
  }

  /** A row without a version, that the next id is new to and suits. */
  predicate MigratesAlone(item: Row, rows: Rows, outbox: OutboxRows, now: int, supply: seq<string>, next: nat) {
    && ValidSource(item) && item.version.None? && item.key in rows && rows[item.key] == item
    && next < |supply| && Some(supply[next]) != item.submissionId && supply[next] !in outbox
    && (IsActiveAt(item, now) ==> ToOutbox(WithOpaqueId(item, supply[next])).Some?)
  }

  /** A row with its version whose outbox row, if it needs one, is right or missing. */
  predicate FitsOutbox(item: Row, outbox: OutboxRows, now: int) {
    && ValidSource(item) && item.version.Some?
    && (IsActiveAt(item, now) ==>
          && ToOutbox(item).Some?
          && (item.submissionId.value in outbox ==> outbox[item.submissionId.value] == ToOutbox(item).value))
  }

  function AfterPut(outbox: OutboxRows, item: Row, now: int): OutboxRows {
    if IsActiveAt(item, now) && ToOutbox(item).Some? && ToOutbox(item).value.submissionId !in outbox
    then outbox[ToOutbox(item).value.submissionId := ToOutbox(item).value] else outbox
  }

  // ---------------------------------------------------------------------------
  // Running alone
  // ---------------------------------------------------------------------------

  predicate DistinctIds(rows: Rows) {
    forall k, l :: k in rows && l in rows && k != l && rows[k].submissionId.Some? ==>
      rows[k].submissionId != rows[l].submissionId
  }

  /** The ids still to be drawn are opaque, distinct and new. */
  predicate NewIds(rows: Rows, outbox: OutboxRows, supply: seq<string>, next: nat) {
    forall j :: next <= j < |supply| ==>
      && IsOpaqueId(supply[j]) && supply[j] !in outbox
      && (forall k :: k in rows ==> rows[k].submissionId != Some(supply[j]))
      && (forall l :: j < l < |supply| ==> supply[l] != supply[j])
  }

  /** A row that the backfill can process: it validates, and when it needs an outbox row its
      projection exists under any opaque id and does not contradict one that is there. */
  ghost predicate Processable(r: Row, outbox: OutboxRows, now: int) {
    && ValidSource(r)
    && (r.version.Some? ==> FitsOutbox(r, outbox, now))
    && (r.version.None? && IsActiveAt(r, now) ==>
          forall id :: IsOpaqueId(id) ==> ToOutbox(WithOpaqueId(r, id)).Some?)
  }

  ghost predicate ReadyAlone(rows: Rows, outbox: OutboxRows, now: int, supply: seq<string>, next: nat) {
    && Keyed(rows) && DistinctIds(rows) && NewIds(rows, outbox, supply, next)
    && forall k :: k in rows ==> Processable(rows[k], outbox, now)
  }

  /** Another row, with another id, is as processable and as settled after a row's id or
      outbox row changed. */
  lemma OtherRowUnaffected(u: Row, outbox: OutboxRows, outbox': OutboxRows, now: int)
    requires Processable(u, outbox, now)
    requires u.submissionId.Some? ==>
               (u.submissionId.value in outbox' <==> u.submissionId.value in outbox)
               && (u.submissionId.value in outbox ==> outbox'[u.submissionId.value] == outbox[u.submissionId.value])
    ensures Processable(u, outbox', now) && (Settled(u, outbox, now) ==> Settled(u, outbox', now))
  {
    hide IsActiveAt, ToOutbox, IsOpaqueId;
  }

  lemma MigratedRowIsSettled(item: Row, id: string, outbox: OutboxRows, now: int)
    requires Processable(item, outbox, now) && item.version.None? && IsOpaqueId(id) && id !in outbox
    requires item.submissionId != Some(id)
    ensures var after := Replaced(outbox, item.submissionId, id, NeededOutbox(item, id, now));
            Settled(WithOpaqueId(item, id), after, now) && Processable(WithOpaqueId(item, id), after, now)
  {
    hide ToOutbox, IsOpaqueId;
  }

  /** A migration settles its row and leaves the others as they were. */
  lemma MigrationAlone(rows: Rows, outbox: OutboxRows, now: int, supply: seq<string>, next: nat, item: Row)
    requires ReadyAlone(rows, outbox, now, supply, next) && item.key in rows && rows[item.key] == item
    requires item.version.None? && next < |supply|
    ensures MigratesAlone(item, rows, outbox, now, supply, next)
    ensures var (rows', outbox') := AfterMigration(rows, outbox, item, supply[next], now);
            && ReadyAlone(rows', outbox', now, supply, next + 1)
            && Settled(rows'[item.key], outbox', now)
            && (item.submissionId.Some? && IsOpaqueId(item.submissionId.value) ==> item.submissionId.value !in outbox')
            && forall k :: k in rows && k != item.key && Settled(rows[k], outbox, now) ==> Settled(rows'[k], outbox', now)
  {
    var id := supply[next];
    var (rows', outbox') := AfterMigration(rows, outbox, item, id, now);
    MigratedRowIsSettled(item, id, outbox, now);
    forall k | k in rows && k != item.key
      ensures Processable(rows'[k], outbox', now) && (Settled(rows[k], outbox, now) ==> Settled(rows'[k], outbox', now))
    {
      OtherRowUnaffected(rows[k], outbox, outbox', now);
    }
    hide Processable, Settled, IsOpaqueId, ToOutbox;
  }

  /** So does an inserted outbox row. */
  lemma PutAlone(rows: Rows, outbox: OutboxRows, now: int, supply: seq<string>, next: nat, item: Row)
    requires ReadyAlone(rows, outbox, now, supply, next) && item.key in rows && rows[item.key] == item && item.version.Some?
    ensures FitsOutbox(item, outbox, now)
    ensures var outbox' := AfterPut(outbox, item, now);
            && ReadyAlone(rows, outbox', now, supply, next)
            && Settled(item, outbox', now)
            && forall k :: k in rows && Settled(rows[k], outbox, now) ==> Settled(rows[k], outbox', now)
  {
    var outbox' := AfterPut(outbox, item, now);
    assert Processable(item, outbox, now);
    if ToOutbox(item).Some? { OwnProjectionHasId(item); }
    assert Settled(item, outbox', now) && Processable(item, outbox', now) by { hide ToOutbox; }
    forall k | k in rows && k != item.key
      ensures Processable(rows[k], outbox', now) && (Settled(rows[k], outbox, now) ==> Settled(rows[k], outbox', now))
    {
      OtherRowUnaffected(rows[k], outbox, outbox', now);
    }
    hide Processable, IsOpaqueId, ToOutbox, FitsOutbox;
  }

  /** How far a pass of a backfill that runs alone has come. */
  ghost predicate Progress(
    items: seq<Row>, n: nat, rows: Rows, outbox: OutboxRows, now: int, supply: seq<string>, next: nat)
  {
    && n <= |items| && ReadyAlone(rows, outbox, now, supply, next)
    && (forall i :: 0 <= i < n ==> items[i].key in rows && Settled(rows[items[i].key], outbox, now))
    && (forall i :: n <= i < |items| ==> items[i].key in rows && rows[items[i].key] == items[i])
    && (forall i, j :: 0 <= i < j < |items| ==> items[i].key != items[j].key)
  }

  lemma ProgressAlone(
    items: seq<Row>, n: nat, rows: Rows, outbox: OutboxRows, now: int, supply: seq<string>, next: nat)
    requires n < |items| && Progress(items, n, rows, outbox, now, supply, next)
    requires items[n].version.None? ==> next < |supply|
    ensures var item := items[n];
            if item.version.None? then
              && MigratesAlone(item, rows, outbox, now, supply, next)
              && var (rows', outbox') := AfterMigration(rows, outbox, item, supply[next], now);
                 Progress(items, n + 1, rows', outbox', now, supply, next + 1) && rows'.Keys == rows.Keys
            else
              && FitsOutbox(item, outbox, now)
              && Progress(items, n + 1, rows, AfterPut(outbox, item, now), now, supply, next)
  {
    var item := items[n];
    assert item.key in rows && rows[item.key] == item;
    hide ReadyAlone, Settled, MigratesAlone, FitsOutbox, AfterPut, Replaced;
    if item.version.None? {
      KeyedItem(rows, outbox, now, supply, next, item);
      MigrationAlone(rows, outbox, now, supply, next, item);
    } else {
      PutAlone(rows, outbox, now, supply, next, item);
    }
  }

  lemma KeyedItem(rows: Rows, outbox: OutboxRows, now: int, supply: seq<string>, next: nat, item: Row)
    requires ReadyAlone(rows, outbox, now, supply, next) && item.key in rows
    ensures rows[item.key].key == item.key
  {
  }

  lemma SettledNeedsNoPut(item: Row, outbox: OutboxRows, now: int)
    requires Settled(item, outbox, now)
    ensures item.version.Some? && AfterPut(outbox, item, now) == outbox
  {
    if ToOutbox(item).Some? { OwnProjectionHasId(item); }
    hide ToOutbox, IsActiveAt;
  }

  lemma GrownKeepsSettled(r: Row, rows: Rows, outbox: OutboxRows, rows': Rows, outbox': OutboxRows, now: int)
    requires Settled(r, outbox, now) && Grown(rows, outbox, rows', outbox', now)
    ensures Settled(r, outbox', now)
  {
    hide ToOutbox, IsActiveAt;
  }

  datatype Counts = Counts(eligible: nat, inserted: nat, migrated: nat, retryNeeded: bool)

  predicate IsClean(c: Counts) {
    c.inserted == 0 && c.migrated == 0 && !c.retryNeeded
  }

  function Counted(c: Counts, s: Step): Counts {
    match s
    case Inserted => c.(inserted := c.inserted + 1)
    case Migrated => c.(migrated := c.migrated + 1)
    case Retry => c.(retryNeeded := true)
    case _ => c
  }

  lemma OnlySkipsAreClean(c: Counts, s: Step)
    requires s != Threw
    ensures IsClean(Counted(c, s)) <==> IsClean(c) && s == Skipped
  {
  }

  /** The first `n` listed rows are settled, and only handlers have written since. */
  predicate CleanSoFar(items: seq<Row>, n: nat, r: Rows, o: OutboxRows, rows: Rows, outbox: OutboxRows, now: int) {
    n <= |items| && Grown(r, o, rows, outbox, now) && forall j :: 0 <= j < n ==> Settled(items[j], outbox, now)
  }

  lemma CleanStep(
    items: seq<Row>, n: nat, r: Rows, o: OutboxRows, r': Rows, o': OutboxRows, rows: Rows, outbox: OutboxRows, now: int)
    requires n < |items| && CleanSoFar(items, n, r, o, r', o', now) && Grown(r', o', rows, outbox, now)
    requires Settled(items[n], outbox, now)
    ensures CleanSoFar(items, n + 1, r, o, rows, outbox, now)
  {
    hide Settled, Grown;
    GrownTransitive(r, o, r', o', rows, outbox, now);
    forall j | 0 <= j < n ensures Settled(items[j], outbox, now) {
      GrownKeepsSettled(items[j], r', o', rows, outbox, now);
    }
  }

  lemma ListedAndReady(items: seq<Row>, rows: Rows, outbox: OutboxRows, now: int, supply: seq<string>, next: nat)
    requires Listed(items, rows) && ReadyAlone(rows, outbox, now, supply, next)
    ensures Progress(items, 0, rows, outbox, now, supply, next)
  {
    hide ReadyAlone;
  }

  /** One listed row of a pass, with what the pass needs to know. */
  method PassStep(
    t: Tables, items: seq<Row>, n: nat, alone: bool, ghost good: bool, ghost settled: bool, now: int,
    supply: seq<string>, next: nat)
    returns (step: Step, next': nat)
    requires Keyed(t.rows) && n < |items| && items[n].key in t.rows
    requires next <= |supply| && forall i :: 0 <= i < |supply| ==> IsOpaqueId(supply[i])
    requires good ==> alone && Progress(items, n, t.rows, t.outbox, now, supply, next)
    requires good ==> if settled then Settled(items[n], t.outbox, now) else |supply| - next >= |items| - n
    modifies t
    ensures Keyed(t.rows) && old(t.rows).Keys <= t.rows.Keys && next <= next' <= |supply|
    ensures step == Skipped ==> Grown(old(t.rows), old(t.outbox), t.rows, t.outbox, now) && Settled(items[n], t.outbox, now)
    ensures good ==> && step != Threw && t.rows.Keys == old(t.rows).Keys
                     && Progress(items, n + 1, t.rows, t.outbox, now, supply, next')
    ensures good && settled ==> step == Skipped && t.rows == old(t.rows) && t.outbox == old(t.outbox)
    ensures good && !settled ==> |supply| - next' >= |items| - (n + 1)
  {
    if good {
      if settled { SettledNeedsNoPut(items[n], t.outbox, now); }
      ProgressAlone(items, n, t.rows, t.outbox, now, supply, next);
    }
    hide Settled, Grown, ReadyAlone, IsOpaqueId, Progress, FitsOutbox, AfterPut, Keyed, Replaced;
    step, next' := ProcessItem(t, items[n], alone, now, supply, next);
  }

  /** One pass over everything that a scan lists; None stands for an error. */
  method RunPass(t: Tables, alone: bool, ghost good: bool, now: int, supply: seq<string>, next: nat)
    returns (r: Option<Counts>, next': nat)
    requires Keyed(t.rows) && next <= |supply| && forall i :: 0 <= i < |supply| ==> IsOpaqueId(supply[i])
    requires good ==> alone && ReadyAlone(t.rows, t.outbox, now, supply, next)
    requires good ==> AllSettled(t.rows, t.outbox, now) || |supply| - next >= |t.rows|
    modifies t
    ensures Keyed(t.rows) && next <= next' <= |supply|
    ensures r.Some? && IsClean(r.value) ==> AllSettled(t.rows, t.outbox, now)
    ensures good ==> r.Some? && AllSettled(t.rows, t.outbox, now) && ReadyAlone(t.rows, t.outbox, now, supply, next')
    ensures good && AllSettled(old(t.rows), old(t.outbox), now) ==> IsClean(r.value)
  {
    hide Settled, Grown, ReadyAlone, IsOpaqueId, Counted, IsClean, Progress;
    ghost var r0, o0 := t.rows, t.outbox;
    ghost var settled := AllSettled(r0, o0, now);
    next' := next;
    var items := ScanAll(t, alone, now);
    ghost var r1, o1 := t.rows, t.outbox;
    var counts := Counts(|items|, 0, 0, false);
    NewCountsAreClean(counts);
    GrownReflexive(r1, o1, now);
    if good { ListedAndReady(items, r1, o1, now, supply, next); }
    for n := 0 to |items|
      invariant Keyed(t.rows) && next <= next' <= |supply| && r1.Keys <= t.rows.Keys
      invariant IsClean(counts) ==> CleanSoFar(items, n, r1, o1, t.rows, t.outbox, now)
      invariant good ==> Progress(items, n, t.rows, t.outbox, now, supply, next') && t.rows.Keys == r1.Keys
      invariant good && settled ==> IsClean(counts) && t.rows == r1 && t.outbox == o1
      invariant good && !settled ==> |supply| - next' >= |items| - n
    {
      ghost var r2, o2 := t.rows, t.outbox;
      hide CleanSoFar, Keyed;
      var step;
      step, next' := PassStep(t, items, n, alone, good, settled, now, supply, next');
      if step == Threw { return None, next'; }
      OnlySkipsAreClean(counts, step);
      counts := Counted(counts, step);
      if IsClean(counts) { CleanStep(items, n, r1, o1, r2, o2, t.rows, t.outbox, now); }
    }
    if IsClean(counts) {
      GrownTransitive(r0, o0, r1, o1, t.rows, t.outbox, now);
      CleanMeansSettled(items, r0, o0, t.rows, t.outbox, now);
    }
    if good { ProgressMeansSettled(items, r0, t.rows, t.outbox, now, supply, next'); }
    return Some(counts), next';
  }

  lemma NewCountsAreClean(c: Counts)
    requires c.inserted == 0 && c.migrated == 0 && !c.retryNeeded
    ensures IsClean(c)
  {
  }

  lemma CleanMeansSettled(items: seq<Row>, r0: Rows, o0: OutboxRows, rows: Rows, outbox: OutboxRows, now: int)
    requires Grown(r0, o0, rows, outbox, now) && (forall k :: k in r0 ==> r0[k] in items)
    requires forall j :: 0 <= j < |items| ==> Settled(items[j], outbox, now)
    ensures AllSettled(rows, outbox, now)
  {
    hide Settled;
  }

  lemma ProgressMeansSettled(
    items: seq<Row>, r0: Rows, rows: Rows, outbox: OutboxRows, now: int, supply: seq<string>, next: nat)
    requires Progress(items, |items|, rows, outbox, now, supply, next) && rows.Keys == r0.Keys && Keyed(r0)
    requires forall k :: k in r0 ==> r0[k] in items
    ensures AllSettled(rows, outbox, now) && ReadyAlone(rows, outbox, now, supply, next)
  {
    hide Settled, ReadyAlone;
    forall k | k in rows ensures Settled(rows[k], outbox, now) {
      var i :| 0 <= i < |items| && items[i] == r0[k];
      assert items[i].key == k;
    }
  }

  // ---------------------------------------------------------------------------
  // The backfill
  // ---------------------------------------------------------------------------

  datatype Result = Verified(passes: nat, eligible: nat) | Error | NotConverged

  /** "Verified" means: when it returns, every row of the private table, whoever stored it
      and whenever, has a random id, and every submission that has not expired has its
      outbox row. Alone, over rows that it can process, it always gets there: in one pass if
      there was nothing to do, and in two at most. */
  method Run(t: Tables, alone: bool, now: int, supply: seq<string>) returns (r: Result, ghost passes: nat)
    requires Keyed(t.rows) && forall i :: 0 <= i < |supply| ==> IsOpaqueId(supply[i])
    modifies t
    ensures r.Verified? ==> 1 <= r.passes <= 3 && r.passes == passes && AllSettled(t.rows, t.outbox, now)
    ensures r.NotConverged? ==> passes == 3
    ensures alone && ReadyAlone(old(t.rows), old(t.outbox), now, supply, 0) && |supply| >= |old(t.rows)| ==>
              r.Verified? && r.passes <= 2 && (AllSettled(old(t.rows), old(t.outbox), now) ==> r.passes == 1)
  {
    hide AllSettled, ReadyAlone, IsOpaqueId, Keyed;
    var next := 0;
    passes := 0;
    ghost var good := alone && ReadyAlone(t.rows, t.outbox, now, supply, 0) && |supply| >= |t.rows|;
    for pass := 1 to 4
      invariant Keyed(t.rows) && next <= |supply| && passes == pass - 1
      invariant good ==> ReadyAlone(t.rows, t.outbox, now, supply, next)
      invariant good && pass == 1 ==> t.rows == old(t.rows) && t.outbox == old(t.outbox) && next == 0
      invariant good && pass == 2 ==> AllSettled(t.rows, t.outbox, now) && !AllSettled(old(t.rows), old(t.outbox), now)
      invariant good ==> pass <= 2
    {
      var counts;
      counts, next := RunPass(t, alone, good, now, supply, next);
      passes := passes + 1;
      if counts.None? { return Error, passes; }
      if IsClean(counts.value) { return Verified(pass, counts.value.eligible), passes; }
    }
    return NotConverged, passes;
  }
}
