/** What a lease promises over any run of store operations (infra/provisioning/src/
    memory-store.ts:183-365): it excludes everybody until it ends, it can be taken as soon as
    it has ended, and nothing is done without it. Leases are counted, so a token says which
    acquisition it belongs to. */
module Leases {
  import opened Domain
  import opened Store

  predicate IsLeaseOp(op: StoreOp) {
    op.Acquire? || op.Renew? || op.Release?
  }

  /** The last of the first `n` operations that changed the lease. */
  function LastLeaseOp(ops: seq<StoreOp>, n: nat): (k: Option<nat>)
    requires n <= |ops|
    ensures k.Some? ==> k.value < n && IsLeaseOp(ops[k.value])
  {
    if n == 0 then None
    else if SucceedsAt(ops, n - 1) && IsLeaseOp(ops[n - 1]) then Some(n - 1)
    else LastLeaseOp(ops, n - 1)
  }

  /** When the lease ends that such an operation leaves: the time it was asked for, or at
      once. */
  function EndOf(op: StoreOp): int
    requires IsLeaseOp(op)
  {
    if op.Release? then 0 else op.now + op.durationMs
  }

  /** How many acquisitions succeeded, and who made the last one. */
  function Acquisitions(ops: seq<StoreOp>, n: nat): nat
    requires n <= |ops|
  {
    if n == 0 then 0 else Acquisitions(ops, n - 1) + if SucceedsAt(ops, n - 1) && ops[n - 1].Acquire? then 1 else 0
  }

  function LastOwner(ops: seq<StoreOp>, n: nat): string
    requires n <= |ops|
  {
    if n == 0 then ""
    else if SucceedsAt(ops, n - 1) && ops[n - 1].Acquire? then ops[n - 1].ownerId
    else LastOwner(ops, n - 1)
  }

  /** The stored lease is that of the last acquisition, with the end that was asked for last. */
  lemma {:induction false} LeaseIs(ops: seq<StoreOp>, n: nat)
    requires n <= |ops|
    ensures var lease, k := After(ops, n).lease, LastLeaseOp(ops, n);
            && (lease.Some? <==> k.Some?)
            && (k.Some? ==> lease.value.expiresAt == EndOf(ops[k.value]) && lease.value.ownerId == LastOwner(ops, n)
                            && lease.value.fencingToken == Acquisitions(ops, n))
            && (k.None? ==> Acquisitions(ops, n) == 0)
  {
    if n > 0 { LeaseIs(ops, n - 1); }
  }

  predicate ValidRequest(sub: string, owner: string, now: int, durationMs: int) {
    sub != "" && owner != "" && now >= 0 && durationMs >= 1 && now + durationMs <= MAX_SAFE_INTEGER
  }

  /** Whoever asks, a lease is granted exactly if the last one was never there, was released,
      or has ended by the clock of who asks. */
  lemma AcquireSucceedsIff(ops: seq<StoreOp>, j: nat)
    requires j < |ops| && ops[j].Acquire?
    ensures SucceedsAt(ops, j) <==>
              && ValidRequest(ops[j].sub, ops[j].ownerId, ops[j].now, ops[j].durationMs)
              && (LastLeaseOp(ops, j).Some? ==> EndOf(ops[LastLeaseOp(ops, j).value]) <= ops[j].now)
  {
    LeaseIs(ops, j);
  }

  /** An operation that presents a lease succeeds only for the last acquisition, and only
      before its end. */
  predicate HeldBy(ops: seq<StoreOp>, j: nat, lease: Lease, now: int)
    requires j <= |ops|
  {
    && LastLeaseOp(ops, j).Some? && now < EndOf(ops[LastLeaseOp(ops, j).value])
    && lease.ownerId == LastOwner(ops, j) && lease.fencingToken == Acquisitions(ops, j)
  }

  lemma RenewSucceedsIff(ops: seq<StoreOp>, j: nat)
    requires j < |ops| && ops[j].Renew?
    ensures SucceedsAt(ops, j) <==>
              && ValidRequest(ops[j].lease.subscriptionId, ops[j].lease.ownerId, ops[j].now, ops[j].durationMs)
              && HeldBy(ops, j, ops[j].lease, ops[j].now)
  {
    LeaseIs(ops, j);
  }

  /** A handoff pointer is written only by the holder of the lease. A new one carries the
      holder's token and the generation after the one that the caller has seen; and what is
      bound, published or revoked is the pointer that the caller has seen, unless another
      generation began since. */
  lemma MutationIsHeld(ops: seq<StoreOp>, j: nat)
    requires SucceedsAt(ops, j) && IsMutation(ops[j])
    ensures HeldBy(ops, j, ops[j].lease, ops[j].now)
    ensures var seen, p := Lookup(After(ops, j).handoffs, ops[j].pointer.handoffId), ops[j].pointer;
            && (ops[j].Begin? ==>
                  && p.fencingToken == Acquisitions(ops, j) && p.subscriptionId == ops[j].lease.subscriptionId
                  && p.state == PendingPublication && p.publication == None
                  && (if seen.Some? then
                        && seen.value.state != Revoked && ops[j].expected == Some(seen.value.publicationGeneration)
                        && p.publicationGeneration == seen.value.publicationGeneration + 1
                      else ops[j].expected == None && p.publicationGeneration == 0))
            && (!ops[j].Begin? ==>
                  && seen.Some? && seen.value.publicationGeneration == p.publicationGeneration
                  && seen.value.fencingToken == p.fencingToken && seen.value.handoffId == p.handoffId
                  && seen.value.subscriptionId == p.subscriptionId && seen.value.jobId == p.jobId
                  && seen.value.activationGeneration == p.activationGeneration)
            && (ops[j].Bind? ==>
                  seen.value.state == PendingPublication
                  && (seen.value.publication == None || seen.value.publication == Some(ops[j].publication)))
            && (ops[j].Publish? ==> seen.value.publication.Some? && seen.value.publication == p.publication)
  {
    LeaseIs(ops, j);
  }

  /** A lease that was granted or renewed excludes everybody from then until its end, unless it is
      renewed or released first: whoever acquires meanwhile reads a later clock. */
  lemma {:induction false} LeaseExcludes(ops: seq<StoreOp>, i: nat, j: nat)
    requires i < j < |ops| && SucceedsAt(ops, i) && (ops[i].Acquire? || ops[i].Renew?)
    requires forall k :: i < k < j && SucceedsAt(ops, k) ==> !ops[k].Renew? && !ops[k].Release?
    requires ops[j].Acquire? && SucceedsAt(ops, j)
    ensures ops[j].now >= ops[i].now + ops[i].durationMs
  {
    EndStays(ops, i, j);
    AcquireSucceedsIff(ops, j);
  }

  lemma {:induction false} EndStays(ops: seq<StoreOp>, i: nat, j: nat)
    requires i < j <= |ops| && SucceedsAt(ops, i) && (ops[i].Acquire? || ops[i].Renew?)
    requires forall k :: i < k < j && SucceedsAt(ops, k) ==> !ops[k].Renew? && !ops[k].Release?
    ensures LastLeaseOp(ops, j).Some? && EndOf(ops[LastLeaseOp(ops, j).value]) >= ops[i].now + ops[i].durationMs
    decreases j
  {
    hide SucceedsAt, EndOf;
    if i < j - 1 {
      EndStays(ops, i, j - 1);
      if SucceedsAt(ops, j - 1) && IsLeaseOp(ops[j - 1]) { AcquireSucceedsIff(ops, j - 1); EndIsLater(ops[j - 1]); }
    } else {
      EndIsLater(ops[i]);
    }
  }

  lemma EndIsLater(op: StoreOp)
    requires op.Acquire? || op.Renew?
    ensures EndOf(op) == op.now + op.durationMs
  {
  }

  /** The holder can hand over a credential: from an activation without a pointer, or with one
      that was not revoked, it begins, binds and publishes, and what it bound is published;
      then it can revoke. */
  lemma HolderPublishes(c: Cell, lease: Lease, pointer: Pointer, publication: Publication, now: int, seen: Option<nat>)
    requires c.lease.Some? && c.lease.value.ownerId == lease.ownerId && c.lease.value.fencingToken == lease.fencingToken
    requires now < c.lease.value.expiresAt
    requires pointer.subscriptionId == lease.subscriptionId && pointer.fencingToken == lease.fencingToken
    requires pointer.state == PendingPublication && pointer.publication == None
    requires if pointer.handoffId in c.handoffs then
               && c.handoffs[pointer.handoffId].state != Revoked
               && seen == Some(c.handoffs[pointer.handoffId].publicationGeneration)
               && pointer.publicationGeneration == c.handoffs[pointer.handoffId].publicationGeneration + 1
             else seen == None && pointer.publicationGeneration == 0
    ensures var begun := Exec(c, Begin(pointer, lease, now, seen));
            var bound := Exec(begun, Bind(pointer, lease, now, publication));
            var published := Exec(bound, Publish(pointer.(publication := Some(publication)), lease, now));
            var revoked := Exec(published, Revoke(pointer, lease, now));
            && begun == c.(handoffs := c.handoffs[pointer.handoffId := pointer])
            && bound == c.(handoffs := c.handoffs[pointer.handoffId := pointer.(publication := Some(publication))])
            && published == c.(handoffs := c.handoffs[pointer.handoffId :=
                                           pointer.(publication := Some(publication), state := Published)])
            && revoked == c.(handoffs := c.handoffs[pointer.handoffId :=
                                         pointer.(publication := Some(publication), state := Revoked)])
  {
  }
}
