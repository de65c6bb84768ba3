/** The control-plane store (infra/provisioning/src/memory-store.ts): what each operation
    decides from the record it finds, and what any sequence of lease and handoff
    operations can do, whatever clocks its callers use. */
module Store {
  import opened Domain

  // ---------------------------------------------------------------------------
  // Decisions
  // ---------------------------------------------------------------------------

  datatype EventClaim = EventClaim(
    eventId: EventId, eventType: string, createdAt: int, payloadDigest: string,
    subscriptionId: Option<string>)

  datatype ClaimStatus = Claimed | Duplicate | Conflict

  function DecideClaim(existing: Option<EventClaim>, claim: EventClaim): ClaimStatus {
    if existing.None? then Claimed
    else if existing.value.payloadDigest == claim.payloadDigest then Duplicate
    else Conflict
  }

  function DecidePutOrder(existing: Option<Order>, order: Order, expected: Option<nat>): Result<Order> {
    if existing.None? then
      if expected.Some? || order.version != 0 then Transient(StoreConflict) else Ok(order)
    else if expected != Some(existing.value.version) || order.version != existing.value.version then
      Transient(StoreConflict)
    else if IsTerminalState(existing.value.billingState)
            && order.billingState != existing.value.billingState
            && !(existing.value.billingState == Canceled && order.billingState == Refunded) then
      Fatal(StoreConflict)
    else Ok(order.(version := existing.value.version + 1))
  }

  function DecidePutJob(existing: Option<Job>, job: Job, expected: Option<nat>): Result<Job> {
    if job.jobId != JobId(job.subscriptionId) then Fatal(StoreConflict)
    else if existing.None? then
      if expected.Some? || job.version != 0 then Fatal(StoreConflict) else Ok(job)
    else if existing.value.jobId != job.jobId
            || expected != Some(existing.value.version) || job.version != existing.value.version then
      Fatal(StoreConflict)
    else Ok(job.(version := existing.value.version + 1))
  }

  predicate ValidLeaseInput(sub: string, ownerId: string, now: int, durationMs: int) {
    && sub != "" && ownerId != ""
    && IsSafeInteger(now) && 0 <= now
    && IsSafeInteger(durationMs) && 1 <= durationMs
    && now <= MAX_SAFE_INTEGER - durationMs
  }

  function TokenOf(lease: Option<Lease>): nat {
    if lease.None? then 0 else lease.value.fencingToken
  }

  /** None means that the lease is held. */
  function DecideAcquire(
    existing: Option<Lease>, sub: string, ownerId: string, now: int, durationMs: int): Result<Option<Lease>>
  {
    if !ValidLeaseInput(sub, ownerId, now, durationMs) then Fatal(InvalidState)
    else if existing.Some? && existing.value.expiresAt > now then Ok(None)
    else Ok(Some(Lease(sub, ownerId, TokenOf(existing) + 1, now + durationMs)))
  }

  predicate SameHolder(existing: Option<Lease>, lease: Lease) {
    && existing.Some?
    && existing.value.ownerId == lease.ownerId
    && existing.value.fencingToken == lease.fencingToken
  }

  predicate IsActiveLease(existing: Option<Lease>, lease: Lease, now: int) {
    SameHolder(existing, lease) && existing.value.expiresAt > now
  }

  function DecideRenew(existing: Option<Lease>, lease: Lease, now: int, durationMs: int): Result<Lease> {
    if !ValidLeaseInput(lease.subscriptionId, lease.ownerId, now, durationMs) then Fatal(InvalidState)
    else if !IsActiveLease(existing, lease, now) then Transient(StoreConflict)
    else Ok(existing.value.(expiresAt := now + durationMs))
  }

  function DecideRelease(existing: Option<Lease>, lease: Lease): Option<Lease> {
    if SameHolder(existing, lease) then Some(existing.value.(expiresAt := 0)) else existing
  }

  predicate SamePointerGeneration(l: Pointer, r: Pointer) {
    && l.handoffId == r.handoffId && l.subscriptionId == r.subscriptionId && l.jobId == r.jobId
    && l.activationGeneration == r.activationGeneration
    && l.publicationGeneration == r.publicationGeneration
    && l.fencingToken == r.fencingToken
  }

  function DecideBegin(
    active: bool, existing: Option<Pointer>, pointer: Pointer, lease: Lease,
    expectedGeneration: Option<nat>): Result<Pointer>
  {
    var validNew := existing.None? && expectedGeneration.None? && pointer.publicationGeneration == 0;
    var validReplacement :=
      && existing.Some? && expectedGeneration == Some(existing.value.publicationGeneration)
      && pointer.publicationGeneration == existing.value.publicationGeneration + 1
      && existing.value.state != Revoked;
    if !active || (!validNew && !validReplacement) || pointer.state != PendingPublication
       || pointer.subscriptionId != lease.subscriptionId || pointer.fencingToken != lease.fencingToken
       || pointer.publication.Some?
    then Transient(StoreConflict)
    else Ok(pointer)
  }

  function DecideBind(
    active: bool, existing: Option<Pointer>, pointer: Pointer, publication: Publication): Result<Pointer>
  {
    if !active || existing.None? || !SamePointerGeneration(existing.value, pointer)
       || existing.value.state != PendingPublication
       || (existing.value.publication.Some? && existing.value.publication.value != publication)
    then Transient(StoreConflict)
    else Ok(existing.value.(publication := Some(publication)))
  }

  function DecidePublish(active: bool, existing: Option<Pointer>, pointer: Pointer): Result<Pointer> {
    if !active || existing.None? || !SamePointerGeneration(existing.value, pointer)
       || existing.value.publication.None? || existing.value.publication != pointer.publication
       || existing.value.state == Revoked
    then Transient(StoreConflict)
    else Ok(existing.value.(state := Published))
  }

  function DecideRevoke(active: bool, existing: Option<Pointer>, pointer: Pointer): Result<Pointer> {
    if !active || existing.None? || !SamePointerGeneration(existing.value, pointer)
    then Transient(StoreConflict)
    else Ok(existing.value.(state := Revoked))
  }

  /** The record kept under the key: immutable evidence keeps its first value. */
  function DecidePutResource(existing: Option<Resource>, resource: Resource): Result<Resource> {
    if resource.resourceKey != KeyOf(resource) then Fatal(StoreConflict)
    else if existing.Some? && (KeyOf(existing.value) != KeyOf(resource) || existing.value.retention != resource.retention)
    then Fatal(StoreConflict)
    else if existing.Some? && existing.value.retention == ImmutableEvidence then Ok(existing.value)
    else Ok(resource)
  }

  // ---------------------------------------------------------------------------
  // The store
  // ---------------------------------------------------------------------------

  /** `listResources`: exactly the records of the subscription, each once. */
  ghost predicate Lists(listed: seq<Resource>, resources: map<ResourceKey, Resource>, sub: string) {
    && (forall i, j :: 0 <= i < j < |listed| ==> listed[i].resourceKey != listed[j].resourceKey)
    && (forall r :: r in listed ==> r.resourceKey in resources && resources[r.resourceKey] == r && r.subscriptionId == sub)
    && (forall k :: k in resources && resources[k].subscriptionId == sub ==> resources[k] in listed)
  }

  class InMemoryProvisioningStore {
    var events: map<EventId, EventClaim>
    var orders: map<string, Order>
    var jobs: map<string, Job>
    var leases: map<string, Lease>
    var handoffs: map<HandoffId, Pointer>
    var resources: map<ResourceKey, Resource>

    constructor ()
      ensures events == map[] && orders == map[] && jobs == map[]
      ensures leases == map[] && handoffs == map[] && resources == map[]
    {
      events, orders, jobs := map[], map[], map[];
      leases, handoffs, resources := map[], map[], map[];
    }

    /** Records are filed under their own keys. */
    ghost predicate Valid()
      reads this`resources
    {
      forall k :: k in resources ==> resources[k].resourceKey == k == KeyOf(resources[k])
    }

    method ClaimEvent(claim: EventClaim) returns (status: ClaimStatus)
      modifies this`events
      ensures status == DecideClaim(Lookup(old(events), claim.eventId), claim)
      ensures events == if status == Claimed then old(events)[claim.eventId := claim] else old(events)
    {
      if claim.eventId in events {
        status := if events[claim.eventId].payloadDigest == claim.payloadDigest then Duplicate else Conflict;
      } else {
        events := events[claim.eventId := claim];
        status := Claimed;
      }
    }

    method GetOrder(sub: string) returns (order: Option<Order>)
      ensures order == Lookup(orders, sub)
    {
      order := if sub in orders then Some(orders[sub]) else None;
    }

    method PutOrder(order: Order, expected: Option<nat>) returns (r: Result<Order>)
      modifies this`orders
      ensures r == DecidePutOrder(Lookup(old(orders), order.subscriptionId), order, expected)
      ensures orders == if r.Ok? then old(orders)[order.subscriptionId := r.value] else old(orders)
    {
      var stored := order;
      if order.subscriptionId in orders {
        var existing := orders[order.subscriptionId];
        if expected.None? || expected.value != existing.version || order.version != expected.value {
          return Transient(StoreConflict);
        }
        if (existing.billingState == Canceled || existing.billingState == Refunded)
           && order.billingState != existing.billingState
           && !(existing.billingState == Canceled && order.billingState == Refunded) {
          return Fatal(StoreConflict);
        }
        stored := order.(version := existing.version + 1);
      } else if expected.Some? || order.version != 0 {
        return Transient(StoreConflict);
      }
      orders := orders[order.subscriptionId := stored];
      return Ok(stored);
    }

    method GetJob(sub: string) returns (job: Option<Job>)
      ensures job == Lookup(jobs, sub)
    {
      job := if sub in jobs then Some(jobs[sub]) else None;
    }

    method PutJob(job: Job, expected: Option<nat>) returns (r: Result<Job>)
      modifies this`jobs
      ensures r == DecidePutJob(Lookup(old(jobs), job.subscriptionId), job, expected)
      ensures jobs == if r.Ok? then old(jobs)[job.subscriptionId := r.value] else old(jobs)
    {
      if job.jobId != JobId(job.subscriptionId) { return Fatal(StoreConflict); }
      var stored := job;
      if job.subscriptionId in jobs {
        var existing := jobs[job.subscriptionId];
        if existing.jobId != job.jobId || expected.None? || expected.value != existing.version
           || job.version != expected.value {
          return Fatal(StoreConflict);
        }
        stored := job.(version := existing.version + 1);
      } else if expected.Some? || job.version != 0 {
        return Fatal(StoreConflict);
      }
      jobs := jobs[job.subscriptionId := stored];
      return Ok(stored);
    }

    method AcquireJobExecutionLease(sub: string, ownerId: string, now: int, durationMs: int)
      returns (r: Result<Option<Lease>>)
      modifies this`leases
      ensures r == DecideAcquire(Lookup(old(leases), sub), sub, ownerId, now, durationMs)
      ensures leases == if r.Ok? && r.value.Some? then old(leases)[sub := r.value.value] else old(leases)
    {
      if !ValidLeaseInput(sub, ownerId, now, durationMs) { return Fatal(InvalidState); }
      var token := 0;
      if sub in leases {
        if leases[sub].expiresAt > now { return Ok(None); }
        token := leases[sub].fencingToken;
      }
      var lease := Lease(sub, ownerId, token + 1, now + durationMs);
      leases := leases[sub := lease];
      return Ok(Some(lease));
    }

    method RenewJobExecutionLease(lease: Lease, now: int, durationMs: int) returns (r: Result<Lease>)
      modifies this`leases
      ensures r == DecideRenew(Lookup(old(leases), lease.subscriptionId), lease, now, durationMs)
      ensures leases == if r.Ok? then old(leases)[lease.subscriptionId := r.value] else old(leases)
    {
      if !ValidLeaseInput(lease.subscriptionId, lease.ownerId, now, durationMs) { return Fatal(InvalidState); }
      if lease.subscriptionId !in leases { return Transient(StoreConflict); }
      var existing := leases[lease.subscriptionId];
      if existing.ownerId != lease.ownerId || existing.fencingToken != lease.fencingToken
         || existing.expiresAt <= now {
        return Transient(StoreConflict);
      }
      var renewed := existing.(expiresAt := now + durationMs);
      leases := leases[lease.subscriptionId := renewed];
      return Ok(renewed);
    }

    method ReleaseJobExecutionLease(lease: Lease)
      modifies this`leases
      ensures Lookup(leases, lease.subscriptionId)
              == DecideRelease(Lookup(old(leases), lease.subscriptionId), lease)
      ensures leases - {lease.subscriptionId} == old(leases) - {lease.subscriptionId}
    {
      if lease.subscriptionId in leases {
        var existing := leases[lease.subscriptionId];
        if existing.ownerId == lease.ownerId && existing.fencingToken == lease.fencingToken {
          leases := leases[lease.subscriptionId := existing.(expiresAt := 0)];
        }
      }
    }

    method GetCredentialHandoffPointer(sub: string, handoffId: HandoffId) returns (p: Option<Pointer>)
      ensures p == (if handoffId in handoffs && handoffs[handoffId].subscriptionId == sub
                    then Some(handoffs[handoffId]) else None)
    {
      p := None;
      if handoffId in handoffs && handoffs[handoffId].subscriptionId == sub {
        p := Some(handoffs[handoffId]);
      }
    }

    method AssertActiveLease(lease: Lease, now: int) returns (active: bool)
      ensures active == IsActiveLease(Lookup(leases, lease.subscriptionId), lease, now)
    {
      active := false;
      if lease.subscriptionId in leases {
        var existing := leases[lease.subscriptionId];
        active := existing.ownerId == lease.ownerId && existing.fencingToken == lease.fencingToken
                  && existing.expiresAt > now;
      }
    }

    method BeginCredentialHandoff(pointer: Pointer, lease: Lease, now: int, expectedGeneration: Option<nat>)
      returns (r: Result<Pointer>)
      modifies this`handoffs
      ensures r == DecideBegin(IsActiveLease(Lookup(leases, lease.subscriptionId), lease, now),
                               Lookup(old(handoffs), pointer.handoffId), pointer, lease, expectedGeneration)
      ensures handoffs == if r.Ok? then old(handoffs)[pointer.handoffId := r.value] else old(handoffs)
    {
      var active := AssertActiveLease(lease, now);
      if !active { return Transient(StoreConflict); }
      var valid := expectedGeneration.None? && pointer.publicationGeneration == 0;
      if pointer.handoffId in handoffs {
        var existing := handoffs[pointer.handoffId];
        valid := expectedGeneration == Some(existing.publicationGeneration)
                 && pointer.publicationGeneration == existing.publicationGeneration + 1
                 && existing.state != Revoked;
      }
      if !valid || pointer.state != PendingPublication || pointer.subscriptionId != lease.subscriptionId
         || pointer.fencingToken != lease.fencingToken || pointer.publication.Some? {
        return Transient(StoreConflict);
      }
      handoffs := handoffs[pointer.handoffId := pointer];
      return Ok(pointer);
    }

    method BindCredentialHandoff(pointer: Pointer, lease: Lease, now: int, publication: Publication)
      returns (r: Result<Pointer>)
      modifies this`handoffs
      ensures r == DecideBind(IsActiveLease(Lookup(leases, lease.subscriptionId), lease, now),
                              Lookup(old(handoffs), pointer.handoffId), pointer, publication)
      ensures handoffs == if r.Ok? then old(handoffs)[pointer.handoffId := r.value] else old(handoffs)
    {
      var active := AssertActiveLease(lease, now);
      if !active || pointer.handoffId !in handoffs { return Transient(StoreConflict); }
      var existing := handoffs[pointer.handoffId];
      if !SamePointerGeneration(existing, pointer) || existing.state != PendingPublication {
        return Transient(StoreConflict);
      }
      if existing.publication.Some? && existing.publication.value != publication {
        return Transient(StoreConflict);
      }
      var bound := existing.(publication := Some(publication));
      handoffs := handoffs[pointer.handoffId := bound];
      return Ok(bound);
    }

    method PublishCredentialHandoff(pointer: Pointer, lease: Lease, now: int) returns (r: Result<Pointer>)
      modifies this`handoffs
      ensures r == DecidePublish(IsActiveLease(Lookup(leases, lease.subscriptionId), lease, now),
                                 Lookup(old(handoffs), pointer.handoffId), pointer)
      ensures handoffs == if r.Ok? then old(handoffs)[pointer.handoffId := r.value] else old(handoffs)
    {
      var active := AssertActiveLease(lease, now);
      if !active || pointer.handoffId !in handoffs { return Transient(StoreConflict); }
      var existing := handoffs[pointer.handoffId];
      if !SamePointerGeneration(existing, pointer) || existing.publication.None?
         || existing.publication != pointer.publication
         || (existing.state != PendingPublication && existing.state != Published) {
        return Transient(StoreConflict);
      }
      var published := existing.(state := Published);
      handoffs := handoffs[pointer.handoffId := published];
      return Ok(published);
    }

    method RevokeCredentialHandoff(pointer: Pointer, lease: Lease, now: int) returns (r: Result<Pointer>)
      modifies this`handoffs
      ensures r == DecideRevoke(IsActiveLease(Lookup(leases, lease.subscriptionId), lease, now),
                                Lookup(old(handoffs), pointer.handoffId), pointer)
      ensures handoffs == if r.Ok? then old(handoffs)[pointer.handoffId := r.value] else old(handoffs)
    {
      var active := AssertActiveLease(lease, now);
      if !active || pointer.handoffId !in handoffs { return Transient(StoreConflict); }
      var existing := handoffs[pointer.handoffId];
      if !SamePointerGeneration(existing, pointer) { return Transient(StoreConflict); }
      var revoked := existing.(state := Revoked);
      handoffs := handoffs[pointer.handoffId := revoked];
      return Ok(revoked);
    }

    method ListResources(sub: string) returns (listed: seq<Resource>)
      requires Valid()
      ensures Lists(listed, resources, sub)
    {
      listed := [];
      var left := resources.Keys;
      while left != {}
        invariant left <= resources.Keys
        invariant forall i, j :: 0 <= i < j < |listed| ==> listed[i].resourceKey != listed[j].resourceKey
        invariant forall r :: r in listed ==>
                    r.resourceKey in resources && r.resourceKey !in left
                    && resources[r.resourceKey] == r && r.subscriptionId == sub
        invariant forall k :: k in resources && k !in left && resources[k].subscriptionId == sub ==> resources[k] in listed
        decreases |left|
      {
        var k :| k in left;
        left := left - {k};
        if resources[k].subscriptionId == sub {
          listed := listed + [resources[k]];
        }
      }
    }

    method PutResource(resource: Resource) returns (r: Result<Resource>)
      requires Valid()
      modifies this`resources
      ensures Valid()
      ensures r == DecidePutResource(Lookup(old(resources), resource.resourceKey), resource)
      ensures resources == if r.Ok? then old(resources)[resource.resourceKey := r.value] else old(resources)
    {
      if resource.resourceKey != KeyOf(resource) { return Fatal(StoreConflict); }
      if resource.resourceKey in resources {
        var existing := resources[resource.resourceKey];
        if existing.subscriptionId != resource.subscriptionId || existing.step != resource.step
           || existing.kind != resource.kind || existing.opaqueId != resource.opaqueId
           || existing.retention != resource.retention {
          return Fatal(StoreConflict);
        }
        if existing.retention == ImmutableEvidence { return Ok(existing); }
      }
      resources := resources[resource.resourceKey := resource];
      return Ok(resource);
    }
  }

  // ---------------------------------------------------------------------------
  // Runs of lease and handoff operations
  // ---------------------------------------------------------------------------

  /** The lease of one subscription and its handoff pointers. */
  datatype Cell = Cell(lease: Option<Lease>, handoffs: map<HandoffId, Pointer>)

  const EMPTY_CELL := Cell(None, map[])

  /** The operations that callers of one subscription may issue, with any clock reading
      and any lease value they hold or make up. */
  datatype StoreOp =
    | Acquire(sub: string, ownerId: string, now: int, durationMs: int)
    | Renew(lease: Lease, now: int, durationMs: int)
    | Release(lease: Lease)
    | Begin(pointer: Pointer, lease: Lease, now: int, expected: Option<nat>)
    | Bind(pointer: Pointer, lease: Lease, now: int, publication: Publication)
    | Publish(pointer: Pointer, lease: Lease, now: int)
    | Revoke(pointer: Pointer, lease: Lease, now: int)

  predicate IsMutation(op: StoreOp) {
    op.Begin? || op.Bind? || op.Publish? || op.Revoke?
  }

  /** What a mutation decides; the new pointer is filed under its handoff id. */
  function DecideMutation(c: Cell, op: StoreOp): Result<Pointer>
    requires IsMutation(op)
  {
    var active := IsActiveLease(c.lease, op.lease, op.now);
    var existing := Lookup(c.handoffs, op.pointer.handoffId);
    match op
    case Begin(p, l, now, expected) => DecideBegin(active, existing, p, l, expected)
    case Bind(p, l, now, publication) => DecideBind(active, existing, p, publication)
    case Publish(p, l, now) => DecidePublish(active, existing, p)
    case Revoke(p, l, now) => DecideRevoke(active, existing, p)
  }

  predicate Succeeds(c: Cell, op: StoreOp) {
    match op
    case Acquire(sub, owner, now, d) =>
      var r := DecideAcquire(c.lease, sub, owner, now, d);
      r.Ok? && r.value.Some?
    case Renew(l, now, d) => DecideRenew(c.lease, l, now, d).Ok?
    case Release(l) => SameHolder(c.lease, l)
    case _ => DecideMutation(c, op).Ok?
  }

  function Exec(c: Cell, op: StoreOp): Cell {
    if !Succeeds(c, op) then c
    else
      match op
      case Acquire(sub, owner, now, d) => c.(lease := DecideAcquire(c.lease, sub, owner, now, d).value)
      case Renew(l, now, d) => c.(lease := Some(DecideRenew(c.lease, l, now, d).value))
      case Release(l) => c.(lease := DecideRelease(c.lease, l))
      case _ => c.(handoffs := c.handoffs[op.pointer.handoffId := DecideMutation(c, op).value])
  }

  /** The cell after the first `n` operations of a run that starts empty. */
  function After(ops: seq<StoreOp>, n: nat): Cell
    requires n <= |ops|
  {
    if n == 0 then EMPTY_CELL else Exec(After(ops, n - 1), ops[n - 1])
  }

  predicate SucceedsAt(ops: seq<StoreOp>, i: nat) {
    i < |ops| && Succeeds(After(ops, i), ops[i])
  }

  /** The token presented by an operation that needs a lease. */
  function Presented(op: StoreOp): nat
    requires !op.Acquire?
  {
    op.lease.fencingToken
  }

  /** Tokens never go back, and every acquisition makes a new one. */
  lemma {:induction false} TokensGrow(ops: seq<StoreOp>, i: nat, j: nat)
    requires i <= j <= |ops|
    ensures TokenOf(After(ops, i).lease) <= TokenOf(After(ops, j).lease)
    ensures i < j && ops[i].Acquire? && SucceedsAt(ops, i) ==>
              TokenOf(After(ops, i).lease) < TokenOf(After(ops, j).lease)
    decreases j - i
  {
    if i < j {
      TokensGrow(ops, i, j - 1);
    }
  }

  /** A superseded (owner, token) can never again renew, release or mutate a handoff. */
  lemma SupersededIsFenced(ops: seq<StoreOp>, i: nat, j: nat)
    requires i <= j < |ops| && !ops[j].Acquire?
    requires Presented(ops[j]) < TokenOf(After(ops, i).lease)
    ensures !SucceedsAt(ops, j)
    ensures After(ops, j + 1) == After(ops, j)
  {
    TokensGrow(ops, i, j);
  }

  /** The tokens that authorise successful handoff mutations never decrease. */
  lemma AuthorisingTokensNeverDecrease(ops: seq<StoreOp>, i: nat, j: nat)
    requires i <= j && SucceedsAt(ops, i) && SucceedsAt(ops, j)
    requires IsMutation(ops[i]) && IsMutation(ops[j])
    ensures Presented(ops[i]) <= Presented(ops[j])
  {
    TokensGrow(ops, i, j);
  }

  ghost predicate CellOk(c: Cell) {
    forall h :: h in c.handoffs ==> c.handoffs[h].handoffId == h
  }

  lemma {:induction false} CellsStayOk(ops: seq<StoreOp>, n: nat)
    requires n <= |ops|
    ensures CellOk(After(ops, n))
  {
    if n > 0 { CellsStayOk(ops, n - 1); }
  }

  /** Along every run the pointer of a handoff keeps its place: its generation never goes
      back and grows with each begin; revoked is final; a bound secret is never replaced
      within its generation. */
  lemma {:induction false} PointerOnlyAdvances(ops: seq<StoreOp>, i: nat, j: nat, h: HandoffId)
    requires i <= j <= |ops| && h in After(ops, i).handoffs
    ensures h in After(ops, j).handoffs
    ensures var p, q := After(ops, i).handoffs[h], After(ops, j).handoffs[h];
            && p.publicationGeneration <= q.publicationGeneration
            && (p.state == Revoked ==> q == p)
            && (p.publicationGeneration == q.publicationGeneration ==>
                  && SamePointerGeneration(p, q)
                  && (p.publication.Some? ==> q.publication == p.publication)
                  && (p.state == Published ==> q.state != PendingPublication))
    decreases j - i
  {
    if i < j {
      PointerOnlyAdvances(ops, i, j - 1, h);
      CellsStayOk(ops, j - 1);
    } else {
      CellsStayOk(ops, i);
    }
  }

  lemma BeginOpensNewGeneration(ops: seq<StoreOp>, i: nat, h: HandoffId)
    requires SucceedsAt(ops, i) && ops[i].Begin? && ops[i].pointer.handoffId == h
    ensures h in After(ops, i + 1).handoffs
    ensures h in After(ops, i).handoffs ==>
              After(ops, i + 1).handoffs[h].publicationGeneration
              == After(ops, i).handoffs[h].publicationGeneration + 1
  {
  }

  predicate BindsAt(ops: seq<StoreOp>, i: nat, p: Pointer) {
    && SucceedsAt(ops, i) && ops[i].Bind?
    && SamePointerGeneration(ops[i].pointer, p)
    && Some(ops[i].publication) == p.publication
  }

  /** Whatever secret a pointer carries was bound in that pointer's own generation. */
  lemma {:induction false} SecretWasBoundInItsGeneration(ops: seq<StoreOp>, n: nat, h: HandoffId) returns (i: nat)
    requires n <= |ops| && h in After(ops, n).handoffs && After(ops, n).handoffs[h].publication.Some?
    ensures i < n && BindsAt(ops, i, After(ops, n).handoffs[h])
  {
    CellsStayOk(ops, n - 1);
    var c, op := After(ops, n - 1), ops[n - 1];
    if Succeeds(c, op) && IsMutation(op) && op.pointer.handoffId == h
       && (op.Bind? || h !in c.handoffs || c.handoffs[h].publication.None?) {
      i := n - 1;
    } else {
      i := SecretWasBoundInItsGeneration(ops, n - 1, h);
    }
  }

  /** A secret can be published only while the generation it was bound in is current: a
      successful publication carries the secret bound in its generation, no later
      generation has begun, and the handoff was not revoked. */
  lemma PublicationIsCurrent(ops: seq<StoreOp>, j: nat) returns (i: nat)
    requires SucceedsAt(ops, j) && ops[j].Publish?
    ensures i < j && BindsAt(ops, i, ops[j].pointer)
    ensures forall k :: i <= k < j && SucceedsAt(ops, k) && IsMutation(ops[k])
                        && ops[k].pointer.handoffId == ops[j].pointer.handoffId
                        ==> !ops[k].Begin? && !ops[k].Revoke?
  {
    var h := ops[j].pointer.handoffId;
    CellsStayOk(ops, j);
    i := SecretWasBoundInItsGeneration(ops, j, h);
    forall k | i <= k < j && SucceedsAt(ops, k) && IsMutation(ops[k]) && ops[k].pointer.handoffId == h
      ensures !ops[k].Begin? && !ops[k].Revoke?
    {
      if k > i {
        CellsStayOk(ops, i);
        PointerOnlyAdvances(ops, i + 1, k, h);
        PointerOnlyAdvances(ops, k + 1, j, h);
        if ops[k].Begin? { BeginOpensNewGeneration(ops, k, h); }
      }
    }
  }

  // ---------------------------------------------------------------------------
  // Runs of resource writes
  // ---------------------------------------------------------------------------

  /** The resource table after a sequence of `putResource` calls, refused ones included. */
  function AfterPuts(table: map<ResourceKey, Resource>, puts: seq<Resource>): map<ResourceKey, Resource>
    decreases |puts|
  {
    if puts == [] then table
    else
      var before := AfterPuts(table, puts[..|puts| - 1]);
      var r := puts[|puts| - 1];
      var decided := DecidePutResource(Lookup(before, r.resourceKey), r);
      if decided.Ok? then before[r.resourceKey := decided.value] else before
  }

  /** No record ever disappears or changes identity or retention, and immutable evidence
      never changes at all. */
  lemma {:induction false} RecordsAreKept(table: map<ResourceKey, Resource>, puts: seq<Resource>, k: ResourceKey)
    requires k in table
    ensures k in AfterPuts(table, puts)
    ensures var now := AfterPuts(table, puts)[k];
            && KeyOf(now) == KeyOf(table[k]) && now.retention == table[k].retention
            && (table[k].retention == ImmutableEvidence ==> now == table[k])
    decreases |puts|
  {
    if puts != [] {
      RecordsAreKept(table, puts[..|puts| - 1], k);
    }
  }
}
