/** Runs of event claims, order writes and job writes against the store (infra/provisioning/
    src/memory-store.ts:86-181): the first claim wins, a version is written over once, and a
    terminal order stays terminal whatever callers send. */
module StoreWrites {
  import opened Domain
  import opened Store

  // ---------------------------------------------------------------------------
  // Event claims
  // ---------------------------------------------------------------------------

  /** The ledger after some claims. */
  function Ledger(claims: seq<EventClaim>): map<EventId, EventClaim> {
    if claims == [] then map[]
    else
      var before, c := Ledger(claims[..|claims| - 1]), claims[|claims| - 1];
      if DecideClaim(Lookup(before, c.eventId), c) == Claimed then before[c.eventId := c] else before
  }

  function StatusOf(claims: seq<EventClaim>, i: nat): ClaimStatus
    requires i < |claims|
  {
    DecideClaim(Lookup(Ledger(claims[..i]), claims[i].eventId), claims[i])
  }

  /** The first claim of an event. */
  predicate IsFirst(claims: seq<EventClaim>, i: nat)
    requires i < |claims|
  {
    forall k :: 0 <= k < i ==> claims[k].eventId != claims[i].eventId
  }

  lemma {:induction false} UnclaimedIsOpen(claims: seq<EventClaim>, id: EventId)
    requires forall k :: 0 <= k < |claims| ==> claims[k].eventId != id
    ensures id !in Ledger(claims)
  {
    if claims != [] { UnclaimedIsOpen(claims[..|claims| - 1], id); }
  }

  lemma {:induction false} LedgerKeepsFirst(claims: seq<EventClaim>, first: nat)
    requires first < |claims| && IsFirst(claims, first)
    ensures Lookup(Ledger(claims), claims[first].eventId) == Some(claims[first])
  {
    var init := claims[..|claims| - 1];
    if first == |init| { UnclaimedIsOpen(init, claims[first].eventId); } else { LedgerKeepsFirst(init, first); }
  }

  /** In any run the first claim of an event wins; a later one is a duplicate if it carries
      the same payload as the first, and else a conflict. */
  lemma FirstClaimWins(claims: seq<EventClaim>, first: nat, i: nat)
    requires first < |claims| && IsFirst(claims, first)
    requires i < |claims| && claims[i].eventId == claims[first].eventId
    ensures StatusOf(claims, i) ==
              if i == first then Claimed
              else if claims[i].payloadDigest == claims[first].payloadDigest then Duplicate
              else Conflict
  {
    hide Ledger;
    var before := claims[..i];
    if i == first {
      UnclaimedIsOpen(before, claims[i].eventId);
    } else {
      assert IsFirst(before, first);
      LedgerKeepsFirst(before, first);
    }
  }

  // ---------------------------------------------------------------------------
  // Orders
  // ---------------------------------------------------------------------------

  /** What some caller sends: an order and the version it claims to have read. */
  datatype OrderPut = OrderPut(order: Order, expected: Option<nat>)

  function OrderAfterPuts(puts: seq<OrderPut>): Option<Order> {
    if puts == [] then None
    else
      var before, put := OrderAfterPuts(puts[..|puts| - 1]), puts[|puts| - 1];
      var r := DecidePutOrder(before, put.order, put.expected);
      if r.Ok? then Some(r.value) else before
  }

  predicate OrderPutSucceeds(puts: seq<OrderPut>, i: nat) {
    i < |puts| && DecidePutOrder(OrderAfterPuts(puts[..i]), puts[i].order, puts[i].expected).Ok?
  }

  function OrderWrites(puts: seq<OrderPut>): nat {
    if puts == [] then 0
    else OrderWrites(puts[..|puts| - 1]) + if OrderPutSucceeds(puts, |puts| - 1) then 1 else 0
  }

  /** Versions count the writes. */
  lemma {:induction false} OrderVersionsCount(puts: seq<OrderPut>)
    ensures OrderAfterPuts(puts).None? <==> OrderWrites(puts) == 0
    ensures OrderAfterPuts(puts).Some? ==> OrderAfterPuts(puts).value.version == OrderWrites(puts) - 1
  {
    if puts != [] { OrderVersionsCount(puts[..|puts| - 1]); }
  }

  /** A put succeeds exactly if nobody wrote since the version that it says it read, and it
      does not take the order out of a terminal state; then the order is stored as it was
      sent, under the next version. Only a stale version is worth another attempt. */
  lemma OrderPutSucceedsIff(puts: seq<OrderPut>, put: OrderPut)
    ensures var n, before := OrderWrites(puts), OrderAfterPuts(puts);
            var read := put.expected == (if n == 0 then None else Some(n - 1)) && put.order.version == (if n == 0 then 0 else n - 1);
            var leaves := before.Some? &&
                          ((before.value.billingState == Canceled && put.order.billingState != Canceled && put.order.billingState != Refunded)
                           || (before.value.billingState == Refunded && put.order.billingState != Refunded));
            && DecidePutOrder(before, put.order, put.expected)
               == (if !read then Err(SafeFailure(StoreConflict, true))
                   else if leaves then Err(SafeFailure(StoreConflict, false))
                   else Ok(put.order.(version := n)))
            && OrderAfterPuts(puts + [put]) == (if read && !leaves then Some(put.order.(version := n)) else before)
  {
    OrderVersionsCount(puts);
    assert (puts + [put])[..|puts|] == puts;
  }

  /** Whatever callers send: a refunded order stays refunded, and a canceled one canceled or
      refunded. */
  lemma {:induction false} TerminalOrdersStay(puts: seq<OrderPut>, i: nat)
    requires i <= |puts| && OrderAfterPuts(puts[..i]).Some?
    ensures OrderAfterPuts(puts).Some?
    ensures var before, after := OrderAfterPuts(puts[..i]).value.billingState, OrderAfterPuts(puts).value.billingState;
            && (before == Refunded ==> after == Refunded)
            && (before == Canceled ==> after == Canceled || after == Refunded)
    decreases |puts|
  {
    if i == |puts| {
      assert puts[..i] == puts;
    } else {
      var init := puts[..|puts| - 1];
      assert init[..i] == puts[..i];
      TerminalOrdersStay(init, i);
    }
  }

  // ---------------------------------------------------------------------------
  // Jobs
  // ---------------------------------------------------------------------------

  datatype JobPut = JobPut(job: Job, expected: Option<nat>)

  function JobAfterPuts(puts: seq<JobPut>): Option<Job> {
    if puts == [] then None
    else
      var before, put := JobAfterPuts(puts[..|puts| - 1]), puts[|puts| - 1];
      var r := DecidePutJob(before, put.job, put.expected);
      if r.Ok? then Some(r.value) else before
  }

  predicate JobPutSucceeds(puts: seq<JobPut>, i: nat) {
    i < |puts| && DecidePutJob(JobAfterPuts(puts[..i]), puts[i].job, puts[i].expected).Ok?
  }

  function JobWrites(puts: seq<JobPut>): nat {
    if puts == [] then 0
    else JobWrites(puts[..|puts| - 1]) + if JobPutSucceeds(puts, |puts| - 1) then 1 else 0
  }

  lemma {:induction false} JobVersionsCount(puts: seq<JobPut>)
    ensures JobAfterPuts(puts).None? <==> JobWrites(puts) == 0
    ensures JobAfterPuts(puts).Some? ==>
              JobAfterPuts(puts).value.version == JobWrites(puts) - 1
              && JobAfterPuts(puts).value.jobId == JobId(JobAfterPuts(puts).value.subscriptionId)
  {
    if puts != [] { JobVersionsCount(puts[..|puts| - 1]); }
  }

  /** A put succeeds exactly if the job has the id of its subscription, which is that of the
      stored job, and nobody wrote since the version that it says it read; no refusal is
      worth another attempt of the same put. */
  lemma JobPutSucceedsIff(puts: seq<JobPut>, put: JobPut)
    ensures var n, before := JobWrites(puts), JobAfterPuts(puts);
            var read := put.expected == (if n == 0 then None else Some(n - 1)) && put.job.version == (if n == 0 then 0 else n - 1);
            var named := put.job.jobId == JobId(put.job.subscriptionId)
                         && (before.Some? ==> before.value.subscriptionId == put.job.subscriptionId);
            && DecidePutJob(before, put.job, put.expected)
               == (if read && named then Ok(put.job.(version := n)) else Err(SafeFailure(StoreConflict, false)))
            && JobAfterPuts(puts + [put]) == (if read && named then Some(put.job.(version := n)) else before)
  {
    JobVersionsCount(puts);
    assert (puts + [put])[..|puts|] == puts;
  }
}
