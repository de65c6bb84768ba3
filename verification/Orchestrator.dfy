/** The orchestrator's loops (infra/provisioning/src/orchestrator.ts) over the store: the
    two compare-and-set loops against rival writers, and an undisturbed compensation run. */
module Orchestrator {
  import opened Domain
  import opened Billing
  import opened Jobs
  import opened Store
  import opened Protocol
  import opened ProtocolSteps
  import opened ProtocolOrders
  import opened Wakeups

  // ---------------------------------------------------------------------------
  // reduceAndStoreOrder
  // ---------------------------------------------------------------------------

  /** Other handlers commit events, at most `budget` of them. */
  method RivalCommits(store: InMemoryProvisioningStore, sub: string, budget: nat, ghost before: seq<Event>)
    returns (left: nat, ghost after: seq<Event>)
    requires AllDeliverable(before, sub) && Lookup(store.orders, sub) == Replay(before, sub)
    modifies store`orders
    ensures AllDeliverable(after, sub) && Lookup(store.orders, sub) == Replay(after, sub)
    ensures before <= after && |after| - |before| == budget - left && left <= budget
  {
    left, after := budget, before;
    var events: seq<Event> := *;
    var i := 0;
    while i < |events| && left > 0
      invariant 0 <= i <= |events|
      invariant AllDeliverable(after, sub) && Lookup(store.orders, sub) == Replay(after, sub)
      invariant before <= after && |after| - |before| == budget - left && left <= budget
    {
      if Deliverable(events[i], sub) {
        var current := store.GetOrder(sub);
        var reduction := ReduceBillingEvent(current, events[i]).value;
        var stored := store.PutOrder(reduction.order.value, VersionOf(current));
        after, left := CommitOne(after, events[i], sub), left - 1;
      }
      i := i + 1;
    }
  }

  ghost function CommitOne(committed: seq<Event>, e: Event, sub: string): (r: seq<Event>)
    requires AllDeliverable(committed, sub) && Deliverable(e, sub)
    ensures r == committed + [e] && AllDeliverable(r, sub)
    ensures Replay(r, sub) == Some(Commit(Replay(committed, sub), e))
  {
    assert (committed + [e])[..|committed|] == committed;
    committed + [e]
  }

  const ORDER_CAS_ATTEMPTS := 4

  /** A reduction of what was read commits exactly when nobody committed since. */
  lemma CasOutcome(read: seq<Event>, now: seq<Event>, event: Event, sub: string)
    requires Deliverable(event, sub) && AllDeliverable(now, sub) && AllDeliverable(read, sub) && read <= now
    ensures var current := Replay(read, sub);
            var reduced := ReduceBillingEvent(current, event).value.order.value;
            DecidePutOrder(Replay(now, sub), reduced, VersionOf(current))
            == if now == read then Ok(Commit(current, event)) else Transient(StoreConflict)
  {
    if now == read && now != [] { TerminalGuardNeverFires(Replay(now, sub).value, event); }
  }

  /** Whoever interferes, the stored order stays the replay of what was committed; success
      means that the event was committed last, and giving up means that the event was not
      committed and that rivals won at least four times. An ignored event changes nothing
      and an invalid one is refused. */
  method ReduceAndStoreOrder(
    store: InMemoryProvisioningStore, event: Event, rivals: nat, ghost before: seq<Event>)
    returns (r: Result<Option<Order>>, left: nat, ghost after: seq<Event>)
    requires AllDeliverable(before, event.subscriptionId)
    requires Lookup(store.orders, event.subscriptionId) == Replay(before, event.subscriptionId)
    modifies store`orders
    ensures AllDeliverable(after, event.subscriptionId) && before <= after && left <= rivals
    ensures Lookup(store.orders, event.subscriptionId) == Replay(after, event.subscriptionId)
    ensures r.Ok? && r.value.Some? ==>
              && after != [] && after[|after| - 1] == event && r.value == Lookup(store.orders, event.subscriptionId)
              && |after| == |before| + (rivals - left) + 1
    ensures r.Ok? && r.value.None? <==> ValidEvent(event) && event.kind.Ignored?
    ensures r.Err? && ValidEvent(event) ==>
              && r.failure == SafeFailure(StoreConflict, true)
              && rivals - left >= 4 && |after| == |before| + (rivals - left)
    ensures !Deliverable(event, event.subscriptionId) ==> after == before && (r.Err? ==> r.failure.code == InvalidEvent)
  {
    var sub := event.subscriptionId;
    after, left := before, rivals;
    var current := None;
    if !event.kind.Ignored? { current := store.GetOrder(sub); }
    var attempt := 0;
    while attempt < ORDER_CAS_ATTEMPTS
      invariant 0 <= attempt <= ORDER_CAS_ATTEMPTS
      invariant AllDeliverable(after, sub) && before <= after && left <= rivals
      invariant |after| == |before| + (rivals - left) && rivals - left >= attempt
      invariant Lookup(store.orders, sub) == Replay(after, sub)
      invariant attempt < ORDER_CAS_ATTEMPTS && !event.kind.Ignored? ==> current == Lookup(store.orders, sub)
      invariant event.kind.Ignored? ==> current == None
      invariant !Deliverable(event, sub) ==> after == before && attempt == 0
    {
      var reduction := ReduceBillingEvent(current, event);
      if reduction.Err? { return Err(reduction.failure), left, after; }
      if reduction.value.order.None? { return Ok(None), left, after; }
      ghost var read := after;
      left, after := RivalCommits(store, sub, left, after);
      r := TryPut(store, reduction.value.order.value, VersionOf(current));
      CasOutcome(read, after, event, sub);
      hide ReduceBillingEvent, DecidePutOrder, Commit;
      if r.Ok? {
        after := CommitOne(after, event, sub);
        return;
      }
      if attempt == ORDER_CAS_ATTEMPTS - 1 {
        r := Transient(StoreConflict);
        return;
      }
      current := store.GetOrder(sub);
      attempt := attempt + 1;
    }
    r := Transient(StoreConflict);
  }

  method TryPut(store: InMemoryProvisioningStore, order: Order, expected: Option<nat>) returns (r: Result<Option<Order>>)
    modifies store`orders
    ensures var d := DecidePutOrder(Lookup(old(store.orders), order.subscriptionId), order, expected);
            && (d.Ok? ==> r == Ok(Some(d.value)) && store.orders == old(store.orders)[order.subscriptionId := d.value])
            && (d.Err? ==> r == Err(d.failure) && store.orders == old(store.orders))
  {
    var stored := store.PutOrder(order, expected);
    r := if stored.Ok? then Ok(Some(stored.value)) else Err(stored.failure);
  }

  // ---------------------------------------------------------------------------
  // transitionToCompensation
  // ---------------------------------------------------------------------------

  /** The job of the subscription is stored under its id and valid. */
  ghost predicate HasJob(store: InMemoryProvisioningStore, sub: string)
    reads store`jobs
  {
    sub in store.jobs && store.jobs[sub].subscriptionId == sub && JobOk(store.jobs[sub])
  }

  lemma ApplyKeepsNames(read: Job, ev: JobEvent)
    requires Apply(read, ev).Ok?
    ensures var next := Apply(read, ev).value;
            next.subscriptionId == read.subscriptionId && next.jobId == read.jobId && next.version == read.version
  {
    hide ObservedPrefix, AllIn, LastOutside, RetryDelayMs, NextProvisioningStep, InFlightSteps;
  }

  /** A transition of the stored version is accepted and keeps the invariant. */
  lemma PutOverRead(read: Job, ev: JobEvent)
    requires JobOk(read) && Apply(read, ev).Ok?
    ensures var next := Apply(read, ev).value;
            && DecidePutJob(Some(read), next, Some(read.version)) == Ok(next.(version := read.version + 1))
            && JobOk(next.(version := read.version + 1))
            && Evolves(read, next.(version := read.version + 1))
  {
    hide Apply, Evolves;
    ApplyKeepsJobOk(read, ev);
    ApplyEvolves(read, ev);
    ApplyKeepsNames(read, ev);
    var next := Apply(read, ev).value;
    assert read.jobId == JobId(read.subscriptionId);
    hide JobOk;
    VersionIsFree(next, read.version + 1);
  }

  lemma EvolvesReflexive(j: Job)
    ensures Evolves(j, j)
  {
  }

  /** What event handlers do to an existing job. */
  predicate IsHandlerWrite(ev: JobEvent) {
    ev.CompensationBegun? || ev.Resumed?
  }

  lemma HandlersCompensateNothing(job: Job, ev: JobEvent)
    requires JobOk(job) && IsHandlerWrite(ev) && Apply(job, ev).Ok?
    ensures AllIn(Apply(job, ev).value.compensatedSteps, job.compensatedSteps)
  {
  }

  /** Other processes write the job by its transitions, at most `budget` times: handlers,
      and workers as well unless the caller holds the lease. */
  method RivalWrites(store: InMemoryProvisioningStore, sub: string, workers: bool, budget: nat) returns (left: nat)
    requires HasJob(store, sub)
    modifies store`jobs
    ensures HasJob(store, sub) && Evolves(old(store.jobs[sub]), store.jobs[sub]) && left <= budget
    ensures store.jobs[sub].version == old(store.jobs[sub].version) + (budget - left)
    ensures left == budget ==> store.jobs == old(store.jobs)
    ensures !workers ==> AllIn(store.jobs[sub].compensatedSteps, old(store.jobs[sub]).compensatedSteps)
  {
    left := budget;
    EvolvesReflexive(store.jobs[sub]);
    var events: seq<JobEvent> := *;
    var i := 0;
    while i < |events| && left > 0
      invariant 0 <= i <= |events| && left <= budget
      invariant HasJob(store, sub) && Evolves(old(store.jobs[sub]), store.jobs[sub])
      invariant store.jobs[sub].version == old(store.jobs[sub].version) + (budget - left)
      invariant left == budget ==> store.jobs == old(store.jobs)
      invariant !workers ==> AllIn(store.jobs[sub].compensatedSteps, old(store.jobs[sub]).compensatedSteps)
    {
      var read := store.jobs[sub];
      var next := Apply(read, events[i]);
      if next.Ok? && next.value != read && (workers || IsHandlerWrite(events[i])) {
        PutOverRead(read, events[i]);
        if !workers { HandlersCompensateNothing(read, events[i]); }
        hide Apply, JobOk, Evolves, DecidePutJob;
        var stored := store.PutJob(next.value, Some(read.version));
        EvolvesTransitive(old(store.jobs[sub]), read, store.jobs[sub]);
        left := left - 1;
      }
      i := i + 1;
    }
  }

  /** Every record of the subscription belongs to one of the steps. */
  ghost predicate Recorded(resources: map<ResourceKey, Resource>, sub: string, steps: seq<Step>) {
    forall k :: k in resources && resources[k].subscriptionId == sub ==> resources[k].step in steps
  }

  lemma TargetRecords(job: Job, listed: seq<Resource>, op: Operation, resources: map<ResourceKey, Resource>, sub: string)
    requires JobOk(job) && Lists(listed, resources, sub) && op != Provisioning
    ensures var next := TransitionTarget(job, StepsOf(listed), op);
            && JobOk(next) && next.operation == op && next.subscriptionId == job.subscriptionId
            && next.activationGeneration == job.activationGeneration
            && Recorded(resources, sub, next.completedSteps)
            && (job.operation != Provisioning || next.compensatedSteps == [])
            && AllIn(next.compensatedSteps, job.compensatedSteps)
  {
    var observed := StepsOf(listed) + InFlightSteps(job);
    ObservedPrefixCovers(job, observed);
    BeginKeepsJobOk(job, observed, op);
    var p := ObservedPrefix(job, observed);
    var next := TransitionTarget(job, StepsOf(listed), op);
    assert p == next.completedSteps || (p == [] && job.completedSteps == []);
    forall k | k in resources && resources[k].subscriptionId == sub ensures resources[k].step in p {
      var i :| 0 <= i < |listed| && listed[i] == resources[k];
      assert StepsOf(listed)[i] == resources[k].step;
      assert observed[i] == resources[k].step;
    }
    hide ObservedPrefix, JobOk;
  }

  lemma TargetStates(job: Job, steps: seq<Step>, op: Operation)
    requires JobOk(job) && op != Provisioning
    ensures var next := TransitionTarget(job, steps, op);
            next != job ==> next.state == Disabled || (next.state == Compensating && next.attempt == 0)
  {
  }

  lemma SameSubSameJobId(read: Job, now: Job)
    requires JobOk(read) && JobOk(now) && read.subscriptionId == now.subscriptionId
    ensures read.jobId == now.jobId == JobId(read.subscriptionId)
  {
  }

  /** What `transitionToCompensation` asks of the store, and how a later version answers. */
  lemma TransitionCas(read: Job, now: Job, listed: seq<Resource>, op: Operation)
    requires JobOk(read) && JobOk(now) && read.subscriptionId == now.subscriptionId && op != Provisioning
    ensures var next := TransitionTarget(read, StepsOf(listed), op);
            && next.subscriptionId == read.subscriptionId && next.version == read.version
            && DecidePutJob(Some(now), next, Some(read.version))
               == (if now.version == read.version then Ok(next.(version := read.version + 1)) else Fatal(StoreConflict))
            && JobOk(next.(version := read.version + 1)) && Evolves(read, next.(version := read.version + 1))
            && (next != read ==> next.state == Disabled || (next.state == Compensating && next.attempt == 0))
  {
    hide Evolves, StepsOf;
    PutOverRead(read, CompensationBegun(StepsOf(listed), op));
    TargetStates(read, StepsOf(listed), op);
    ApplyKeepsNames(read, CompensationBegun(StepsOf(listed), op));
    hide TransitionTarget;
    SameSubSameJobId(read, now);
    hide JobOk;
  }

  /** Succeeds with a job on the wanted operation whose completed steps account for every
      record, or gives up after rivals wrote the job three times. `replaced` is the version
      that was overwritten, or found to be in order already; `seen` are the steps of the
      records that were listed over it. */
  method TransitionToCompensation(
    store: InMemoryProvisioningStore, sub: string, initial: Job, operation: Operation, workers: bool, rivals: nat)
    returns (r: Result<Job>, left: nat, ghost replaced: Job, ghost seen: seq<Step>)
    requires store.Valid() && HasJob(store, sub) && operation != Provisioning
    requires store.jobs[sub] == initial
    modifies store`jobs
    ensures HasJob(store, sub) && Evolves(initial, store.jobs[sub]) && left <= rivals
    ensures r.Ok? ==> && JobOk(r.value) && r.value.operation == operation && r.value.subscriptionId == sub
                      && Recorded(store.resources, sub, r.value.completedSteps)
                      && JobOk(replaced) && r.value.(version := replaced.version) == TransitionTarget(replaced, seen, operation)
                      && Evolves(initial, replaced) && Evolves(replaced, r.value) && Evolves(r.value, store.jobs[sub])
                      && (r.value != replaced ==> store.jobs[sub] == r.value && r.value.version == replaced.version + 1)
                      && (r.value != replaced ==> r.value.state == Disabled || (r.value.state == Compensating && r.value.attempt == 0))
    ensures r.Err? ==> rivals - left >= 3 && r.failure == SafeFailure(StoreConflict, true)
    ensures !workers ==> AllIn(store.jobs[sub].compensatedSteps, initial.compensatedSteps)
    ensures !workers && r.Ok? ==> AllIn(store.jobs[sub].compensatedSteps, r.value.compensatedSteps)
                                  && AllIn(r.value.compensatedSteps, initial.compensatedSteps)
    ensures left == rivals ==> r.Ok? && replaced == initial && store.jobs[sub] == r.value
  {
    hide TransitionTarget, JobOk, Evolves, Lists, Recorded, DecidePutJob, StepsOf;
    var current := initial;
    left := rivals;
    EvolvesReflexive(initial);
    var conflict := 0;
    while conflict < 3
      invariant 0 <= conflict <= 3 && rivals - left >= conflict && left <= rivals
      invariant HasJob(store, sub) && store.jobs[sub] == current && Evolves(initial, current)
      invariant !workers ==> AllIn(current.compensatedSteps, initial.compensatedSteps)
      invariant left == rivals ==> current == initial
    {
      var listed := store.ListResources(sub);
      var next := TransitionTarget(current, StepsOf(listed), operation);
      TargetRecords(current, listed, operation, store.resources, sub);
      left := RivalWrites(store, sub, workers, left);
      TransitionCas(current, store.jobs[sub], listed, operation);
      EvolvesTransitive(initial, current, store.jobs[sub]);
      replaced, seen := current, StepsOf(listed);
      EvolvesReflexive(current);
      if next == current {
        return Ok(current), left, replaced, seen;
      }
      var stored := store.PutJob(next, Some(current.version));
      if stored.Ok? {
        EvolvesReflexive(stored.value);
        EvolvesTransitive(initial, current, stored.value);
        return stored, left, replaced, seen;
      }
      current := store.jobs[sub];
      conflict := conflict + 1;
    }
    return Transient(StoreConflict), left, initial, [];
  }

  // ---------------------------------------------------------------------------
  // processClaimedStripeEvent
  // ---------------------------------------------------------------------------

  /** The order that was stored, the job that is reported, and whether a worker is woken. */
  datatype Processed = Processed(order: Order, job: Option<Job>, message: bool)

  lemma CreateIsAccepted(order: Order, policy: RetryPolicy)
    requires CreateProvisioningJob(order, policy).Ok?
    ensures var job := CreateProvisioningJob(order, policy).value;
            DecidePutJob(None, job, None) == Ok(job) && JobOk(job) && job.state == Queued && job.subscriptionId == order.subscriptionId
  {
    CreatedJobOk(order, policy);
    hide JobOk;
  }

  /** A message that the program sends, or not, is the one that is needed. */
  predicate MessageIsRight(message: bool, before: Option<Job>, after: Option<Job>) {
    message <==> after.Some? && NewlyPending(before, after.value)
  }

  /** An order that calls for service. */
  predicate CallsForService(o: Order) {
    && o.billingState == Active && o.plan.Some? && (o.mode == Some(Shared) || (o.mode == Some(Dedicated) && o.plan == Some(Scale)))
    && o.customerId.Some? && o.customerId.value != "" && o.ownerSubject.Some? && o.ownerSubject.value != ""
  }

  function NewJob(o: Order, policy: RetryPolicy): Job
    requires o.mode.Some?
  {
    Job(0, JobId(o.subscriptionId), o.subscriptionId, TenantId(o.subscriptionId, o.mode.value), 0,
        Queued, Provisioning, [], [], 0, policy, false, None, None)
  }

  /** A job that was suspended, in its next activation. */
  function Reactivated(j: Job): Job {
    Job(j.version + 1, j.jobId, j.subscriptionId, j.tenantId, j.activationGeneration + 1,
        Queued, Provisioning, [], [], 0, j.retryPolicy, false, None, None)
  }

  lemma CreationIs(order: Order, policy: RetryPolicy)
    ensures IsProvisionableOrder(order) <==> CallsForService(order)
    ensures CallsForService(order) ==>
              CreateProvisioningJob(order, policy)
              == if IsRetryPolicy(policy) then Ok(NewJob(order, policy)) else Err(SafeFailure(InvalidState, false))
  {
    if order.mode.Some? { assert order.mode.value == Shared || order.mode.value == Dedicated; }
  }

  lemma ResumptionIs(job: Job)
    requires job.operation == Suspension
    ensures ResumeProvisioningJob(job).Ok? && ResumeProvisioningJob(job).value.(version := job.version + 1) == Reactivated(job)
  {
  }

  /** What comes of an order when nobody interferes, by the job that was there. */
  predicate Undisturbed(order: Order, policy: RetryPolicy, before: Option<Job>, r: Result<Processed>) {
    if order.billingState == PastDue || order.billingState == Canceled || order.billingState == Refunded then
      r.Ok? && (before.None? ==> r == Ok(Processed(order, None, false)))
    else if !CallsForService(order) then
      r == Ok(Processed(order, before, false))
    else if before.None? then
      if !(1 <= policy.maxAttempts <= MAX_SAFE_INTEGER && 0 <= policy.baseDelayMs <= policy.maxDelayMs <= MAX_SAFE_INTEGER)
      then r == Err(SafeFailure(InvalidState, false))
      else r == Ok(Processed(order, Some(NewJob(order, policy)), true))
    else if before.value.operation == Suspension then
      r == Ok(Processed(order, Some(Reactivated(before.value)), true))
    else
      r == Ok(Processed(order, before, false))
  }

  /** The job part of handling an event. When nobody else wrote the job, a message is sent
      exactly if the job became pending. When the order ends the service, the message
      compares the job with the version that was read first, not with the one that was
      replaced; so it is right exactly if the transition leaves nothing to undo, or the two
      versions agree on whether compensation was under way. */
  method UpdateJobForOrder(store: InMemoryProvisioningStore, order: Order, policy: RetryPolicy, rivals: nat)
    returns (r: Result<Processed>, left: nat, ghost replaced: Option<Job>, ghost seen: seq<Step>)
    requires store.Valid()
    requires order.subscriptionId in store.jobs ==> HasJob(store, order.subscriptionId)
    modifies store`jobs
    ensures left <= rivals && (order.subscriptionId in store.jobs ==> HasJob(store, order.subscriptionId))
    ensures r.Ok? ==> r.value.order == order && (r.value.message ==> r.value.job.Some? && IsPending(r.value.job.value))
    ensures r.Ok? && left == rivals ==>
              && r.value.job == Lookup(store.jobs, order.subscriptionId)
              && MessageIsRight(r.value.message, Lookup(old(store.jobs), order.subscriptionId), r.value.job)
    ensures r.Ok? && EndsService(order) && r.value.job.Some? ==>
              && old(order.subscriptionId in store.jobs) && replaced.Some?
              && var first := old(store.jobs[order.subscriptionId]);
                 && (left == rivals ==> replaced.value == first)
                 && r.value.job.value.(version := replaced.value.version) == TransitionTarget(replaced.value, seen, OperationFor(order))
                 && (MessageIsRight(r.value.message, replaced, r.value.job) <==>
                       (LeavesUndoing(replaced.value, seen, OperationFor(order)) ==>
                          (first.state == Compensating <==> replaced.value.state == Compensating)))
    ensures r.Ok? && EndsService(order) && r.value.job.Some? ==>
              r.value.job.value.operation == OperationFor(order)
              && Recorded(store.resources, order.subscriptionId, r.value.job.value.completedSteps)
    ensures r.Ok? && EndsService(order) && r.value.job.Some? ==>
              r.value.job.value.operation == if order.billingState == PastDue then Suspension else Compensation
    ensures rivals == 0 ==> Undisturbed(order, policy, Lookup(old(store.jobs), order.subscriptionId), r)
    ensures rivals == 0 && order.billingState != PastDue && order.billingState != Canceled && order.billingState != Refunded ==>
              store.jobs == if r.Ok? && r.value.message then old(store.jobs)[order.subscriptionId := r.value.job.value] else old(store.jobs)
    ensures r.Ok? && IsProvisionableOrder(order) ==> r.value.job.Some?
    ensures r.Ok? && IsProvisionableOrder(order) && left == rivals ==> r.value.job.value.operation != Suspension
  {
    hide JobOk, Evolves, Recorded, AllIn, LeavesUndoing, TransitionTarget;
    left, replaced, seen := rivals, None, [];
    var sub := order.subscriptionId;
    var existing := store.GetJob(sub);
    if EndsService(order) {
      if existing.None? { return Ok(Processed(order, None, false)), left, None, []; }
      var turned;
      ghost var over, steps;
      turned, left, over, steps := TransitionToCompensation(store, sub, existing.value, OperationFor(order), true, left);
      if turned.Err? { return Err(turned.failure), left, None, []; }
      var shouldQueue := turned.value.state == Compensating && existing.value.state != Compensating;
      WakeupIsRightIff(existing.value, over, steps, OperationFor(order));
      LeavesUndoingIs(over, steps, OperationFor(order));
      return Ok(Processed(order, Some(turned.value), shouldQueue)), left, Some(over), steps;
    }
    CreationIs(order, policy);
    if !IsProvisionableOrder(order) { return Ok(Processed(order, existing, false)), left, None, []; }
    if existing.Some? {
      if existing.value.operation != Suspension { return Ok(Processed(order, existing, false)), left, None, []; }
      PutOverRead(existing.value, Resumed);
      ResumptionIs(existing.value);
      EndedIsNotQueued(existing.value);
      left := RivalWrites(store, sub, true, left);
      var stored := store.PutJob(ResumeProvisioningJob(existing.value).value, Some(existing.value.version));
      if stored.Err? { return Err(stored.failure), left, None, []; }
      return Ok(Processed(order, Some(stored.value), true)), left, None, [];
    }
    var created := CreateProvisioningJob(order, policy);
    if created.Err? { return Err(created.failure), left, None, []; }
    CreateIsAccepted(order, policy);
    left := RivalCreates(store, order, left);
    var stored := store.PutJob(created.value, None);
    if stored.Ok? { return Ok(Processed(order, Some(stored.value), true)), left, None, []; }
    var concurrent := store.GetJob(sub);
    return Ok(Processed(order, concurrent, false)), left, None, [];
  }

  /** Another handler may create the job first. */
  method RivalCreates(store: InMemoryProvisioningStore, order: Order, budget: nat) returns (left: nat)
    requires order.subscriptionId !in store.jobs
    modifies store`jobs
    ensures left <= budget && (left == budget <==> store.jobs == old(store.jobs))
    ensures left < budget ==> HasJob(store, order.subscriptionId) && store.jobs[order.subscriptionId].operation == Provisioning
  {
    left := budget;
    var policy: RetryPolicy := *;
    var created := CreateProvisioningJob(order, policy);
    if created.Ok? && budget > 0 {
      CreateIsAccepted(order, policy);
      var stored := store.PutJob(created.value, None);
      left := budget - 1;
    }
  }

  lemma EndedIsNotQueued(job: Job)
    requires JobOk(job) && job.operation != Provisioning
    ensures job.state != Queued
  {
  }

  /** Job-level compensation is not absorbing: a stale past-due handler turns it into a
      suspension. Nothing is forgotten by that, and the next run for the terminal order
      turns it back and undoes every completed step again. */
  lemma StalePastDueIsRepaired(job: Job)
    requires JobOk(job) && job.operation == Compensation
    ensures var stale := TransitionTarget(job, [], Suspension);
            var repaired := TransitionTarget(stale, [], Compensation);
            && stale.operation == Suspension && stale.completedSteps == job.completedSteps
            && repaired.operation == Compensation && repaired.completedSteps == job.completedSteps
            && (if job.completedSteps == [] then repaired.state == Disabled
                else repaired.state == Compensating && repaired.compensatedSteps == [])
  {
    ObservedPrefixCovers(job, []);
    var stale := TransitionTarget(job, [], Suspension);
    assert [] + InFlightSteps(job) == [] && [] + InFlightSteps(stale) == [];
    ObservedPrefixCovers(stale, []);
    hide ObservedPrefix;
  }

  /** `processClaimedStripeEvent`: commit the event, then bring the job in line with the
      order that was stored. */
  method ProcessClaimedStripeEvent(
    store: InMemoryProvisioningStore, event: Event, policy: RetryPolicy, orderRivals: nat, jobRivals: nat,
    ghost before: seq<Event>)
    returns (r: Result<Option<Processed>>, ghost after: seq<Event>, left: nat)
    requires store.Valid() && AllDeliverable(before, event.subscriptionId)
    requires Lookup(store.orders, event.subscriptionId) == Replay(before, event.subscriptionId)
    requires event.subscriptionId in store.jobs ==> HasJob(store, event.subscriptionId)
    modifies store`orders, store`jobs
    ensures AllDeliverable(after, event.subscriptionId) && before <= after
    ensures Lookup(store.orders, event.subscriptionId) == Replay(after, event.subscriptionId)
    ensures event.subscriptionId in store.jobs ==> HasJob(store, event.subscriptionId)
    ensures r.Ok? && r.value.Some? ==>
              && event in after && Replay(after, event.subscriptionId) == Some(r.value.value.order)
              && (EndsService(r.value.value.order) && r.value.value.job.Some? ==>
                    && r.value.value.job.value.operation == OperationFor(r.value.value.order)
                    && Recorded(store.resources, event.subscriptionId, r.value.value.job.value.completedSteps))
              && (left == jobRivals ==>
                    && r.value.value.job == Lookup(store.jobs, event.subscriptionId)
                    && MessageIsRight(r.value.value.message, Lookup(old(store.jobs), event.subscriptionId), r.value.value.job))
    ensures orderRivals < 4 && jobRivals == 0 && IsRetryPolicy(policy) && ValidEvent(event) && !event.kind.Ignored? ==>
              && r.Ok? && r.value.Some?
              && Undisturbed(r.value.value.order, policy, Lookup(old(store.jobs), event.subscriptionId), Ok(r.value.value))
    ensures ValidEvent(event) && event.kind.Ignored? ==> r == Ok(None) && after == before && store.jobs == old(store.jobs)
  {
    var stored, orderLeft;
    stored, orderLeft, after := ReduceAndStoreOrder(store, event, orderRivals, before);
    left := jobRivals;
    if stored.Err? { return Err(stored.failure), after, left; }
    if stored.value.None? { return Ok(None), after, left; }
    var updated;
    ghost var replaced, seen;
    updated, left, replaced, seen := UpdateJobForOrder(store, stored.value.value, policy, left);
    r := if updated.Ok? then Ok(Some(updated.value)) else Err(updated.failure);
  }
}
