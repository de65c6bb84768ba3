/** A whole compensation run over the store (infra/provisioning/src/orchestrator.ts:653-886):
    what is left when a run drives a job to disabled. Event handlers may write the job at
    any time. No other worker writes meanwhile: the store takes job and resource writes
    from anybody, but a worker is meant to end before its lease does
    (infra/provisioning/src/domain.ts:188-190). `ProtocolRecords` is about all
    interleavings, and shows what a worker that outlives its lease can leave behind. */
module Compensation {
  import opened Domain
  import opened Jobs
  import opened Store
  import opened Protocol
  import opened Orchestrator

  predicate IsInactiveStatus(s: ResourceStatus) {
    s == RevokedResource || s == DisabledResource || s == Quarantined
  }

  /** Evidence, or a mutable record that was turned off in the way its step demands: a
      credential revoked; an entitlement, its metadata and readiness disabled. */
  predicate TurnedOff(r: Resource) {
    r.retention == Mutable ==>
      && IsInactiveStatus(r.status)
      && (r.step == ApiCredential ==> r.status == RevokedResource)
      && (r.step == PlanEntitlement || r.step == ActivationMetadata || r.step == MarkReady ==> r.status == DisabledResource)
  }

  /** The known records of some steps are turned off. */
  ghost predicate Settled(
    resources: map<ResourceKey, Resource>, sub: string, steps: seq<Step>, known: set<ResourceKey>)
  {
    forall k :: k in known && k in resources && resources[k].subscriptionId == sub && resources[k].step in steps ==>
      TurnedOff(resources[k])
  }

  /** No record went away, and records outside one step are as they were. */
  ghost predicate OnlyStepChanged(
    before: map<ResourceKey, Resource>, after: map<ResourceKey, Resource>, sub: string, step: Step)
  {
    && (forall k :: k in before ==> k in after)
    && (forall k :: k in after && !(k.subscriptionId == sub && k.step == step) ==> k in before && after[k] == before[k])
  }

  // ---------------------------------------------------------------------------
  // Resource records
  // ---------------------------------------------------------------------------

  /** Records were only added or overwritten for one step, with their retention, and no
      evidence changed. */
  ghost predicate Persisted(
    before: map<ResourceKey, Resource>, after: map<ResourceKey, Resource>, sub: string, step: Step)
  {
    && OnlyStepChanged(before, after, sub, step)
    && (forall k :: k in before ==> k in after && after[k].retention == before[k].retention)
    && (forall k :: k in before && before[k].retention == ImmutableEvidence ==> after[k] == before[k])
    && (forall k :: k in after && k !in before && after[k].retention == ImmutableEvidence ==> after[k].status == Retained)
  }

  lemma PersistOne(
    before: map<ResourceKey, Resource>, table: map<ResourceKey, Resource>, sub: string, step: Step, r: Resource)
    requires Persisted(before, table, sub, step) && r.subscriptionId == sub && r.step == step
    requires r.retention == ImmutableEvidence ==> r.status == Retained
    ensures var decided := DecidePutResource(Lookup(table, r.resourceKey), r);
            decided.Ok? ==> Persisted(before, table[r.resourceKey := decided.value], sub, step)
  {
  }

  /** The record of a returned resource is there: a mutable one active, as it was returned;
      evidence under its first value. */
  predicate StoredAs(job: Job, step: Step, input: ResourceInput, table: map<ResourceKey, Resource>) {
    var k := ResourceKey(job.subscriptionId, step, input.kind, input.opaqueId);
    && k in table && table[k].retention == input.retention
    && (input.retention == Mutable ==>
          table[k] == Resource(k, job.subscriptionId, step, input.kind, input.opaqueId, Mutable, ActiveResource))
  }

  lemma StoredAsStays(job: Job, step: Step, done: seq<ResourceInput>, input: ResourceInput, table: map<ResourceKey, Resource>)
    requires forall i :: 0 <= i < |done| ==> StoredAs(job, step, done[i], table)
    ensures var r := RecordFor(job, step, input);
            var decided := DecidePutResource(Lookup(table, r.resourceKey), r);
            decided.Ok? ==>
              && StoredAs(job, step, input, table[r.resourceKey := decided.value])
              && forall i :: 0 <= i < |done| ==> StoredAs(job, step, done[i], table[r.resourceKey := decided.value])
  {
  }

  /** Kinds and ids that fail the program's pattern check are refused; which do is left open. */
  method PersistStepResources(store: InMemoryProvisioningStore, job: Job, step: Step, inputs: seq<ResourceInput>)
    returns (thrown: Option<SafeFailure>)
    requires store.Valid()
    modifies store`resources
    ensures store.Valid() && Persisted(old(store.resources), store.resources, job.subscriptionId, step)
    ensures thrown.None? ==> forall n :: 0 <= n < |inputs| ==> StoredAs(job, step, inputs[n], store.resources)
  {
    var n := 0;
    while n < |inputs|
      invariant 0 <= n <= |inputs| && store.Valid()
      invariant Persisted(old(store.resources), store.resources, job.subscriptionId, step)
      invariant forall i :: 0 <= i < n ==> StoredAs(job, step, inputs[i], store.resources)
    {
      var refused: bool := *;
      if refused { return Some(SafeFailure(ProviderResponseInvalid, false)); }
      PersistOne(old(store.resources), store.resources, job.subscriptionId, step, RecordFor(job, step, inputs[n]));
      StoredAsStays(job, step, inputs[..n], inputs[n], store.resources);
      hide Persisted, DecidePutResource, StoredAs;
      var stored := store.PutResource(RecordFor(job, step, inputs[n]));
      if stored.Err? { return Some(stored.failure); }
      n := n + 1;
    }
    return None;
  }

  /** What the driver has to return for some records to be turned off. */
  ghost predicate DispositionsSuffice(records: seq<Resource>, ds: seq<Disposition>) {
    && (forall i, j :: 0 <= i < j < |ds| ==> ds[i].resourceKey != ds[j].resourceKey)
    && (forall d :: d in ds ==> exists r :: r in records && r.resourceKey == d.resourceKey)
    && (forall r :: r in records && r.retention == Mutable ==>
          exists d :: d in ds && d.resourceKey == r.resourceKey && TurnedOff(r.(status := d.status)))
  }

  /** Each listed key has one disposition, which the search finds. */
  lemma {:induction false} FoundIs(ds: seq<Disposition>, d: Disposition)
    requires d in ds && forall i, j :: 0 <= i < j < |ds| ==> ds[i].resourceKey != ds[j].resourceKey
    ensures FindDisposition(ds, d.resourceKey) == Some(d)
  {
    if ds[0] != d {
      assert d in ds[1..];
      FoundIs(ds[1..], d);
    }
  }

  /** The program's tests are those. */
  lemma DispositionsSufficeIff(records: seq<Resource>, ds: seq<Disposition>)
    ensures DispositionsSuffice(records, ds) <==> DispositionsWellFormed(records, ds) && forall r :: r in records ==> Disposed(r, ds).Ok?
  {
    if DispositionsWellFormed(records, ds) {
      forall r | r in records && r.retention == Mutable
        ensures Disposed(r, ds).Ok? <==> exists d :: d in ds && d.resourceKey == r.resourceKey && TurnedOff(r.(status := d.status))
      {
        FoundIsListed(ds, r.resourceKey);
        forall d | d in ds && d.resourceKey == r.resourceKey ensures FindDisposition(ds, r.resourceKey) == Some(d) { FoundIs(ds, d); }
      }
    }
  }

  lemma {:induction false} FoundIsListed(ds: seq<Disposition>, k: ResourceKey)
    ensures FindDisposition(ds, k).Some? ==> FindDisposition(ds, k).value in ds
    ensures FindDisposition(ds, k).None? <==> forall d :: d in ds ==> d.resourceKey != k
  {
    if ds != [] {
      FoundIsListed(ds[1..], k);
      assert forall d :: d in ds <==> d == ds[0] || d in ds[1..];
    }
  }

  lemma DisposedTurnsOff(r: Resource, ds: seq<Disposition>)
    requires Disposed(r, ds).Ok?
    ensures var d := Disposed(r, ds).value;
            && TurnedOff(if d.Some? then d.value else r)
            && (d.Some? <==> r.retention == Mutable)
            && (d.Some? ==> d.value == r.(status := d.value.status))
  {
  }

  ghost predicate DistinctKeys(rs: seq<Resource>) {
    forall i, j :: 0 <= i < j < |rs| ==> rs[i].resourceKey != rs[j].resourceKey
  }

  lemma DisposedError(r: Resource, ds: seq<Disposition>)
    requires Disposed(r, ds).Err?
    ensures Disposed(r, ds).failure == SafeFailure(ProviderResponseInvalid, false)
  {
  }

  /** The records as the listing gave them: stored under their keys, none twice. */
  ghost predicate StillListed(records: seq<Resource>, resources: map<ResourceKey, Resource>) {
    && DistinctKeys(records)
    && (forall r :: r in records ==>
          && r.resourceKey == KeyOf(r) && r.resourceKey in resources
          && resources[r.resourceKey].retention == r.retention
          && (r.retention == ImmutableEvidence ==> resources[r.resourceKey] == r))
  }

  /** Only some records may have changed, and no evidence. */
  ghost predicate OnlyTheseChanged(
    before: map<ResourceKey, Resource>, after: map<ResourceKey, Resource>, records: seq<Resource>)
  {
    && after.Keys == before.Keys
    && (forall k :: k in after && (forall r :: r in records ==> r.resourceKey != k) ==> after[k] == before[k])
    && (forall k :: k in after && before[k].retention == ImmutableEvidence ==> after[k] == before[k])
  }

  lemma DisposeOne(
    before: map<ResourceKey, Resource>, table: map<ResourceKey, Resource>, records: seq<Resource>, n: nat, r: Resource)
    requires OnlyTheseChanged(before, table, records) && StillListed(records, table) && n < |records|
    requires forall k :: k in table ==> table[k].resourceKey == k == KeyOf(table[k])
    requires forall k :: k in table ==> table[k].retention == before[k].retention
    requires records[n].retention == Mutable && r == records[n].(status := r.status)
    ensures DecidePutResource(Lookup(table, r.resourceKey), r) == Ok(r)
    ensures OnlyTheseChanged(before, table[r.resourceKey := r], records) && StillListed(records, table[r.resourceKey := r])
    ensures forall i :: 0 <= i < |records| && i != n ==>
              table[r.resourceKey := r][records[i].resourceKey] == table[records[i].resourceKey]
  {
    assert records[n] in records;
    var now := table[r.resourceKey := r];
    forall i | 0 <= i < |records| && i != n ensures now[records[i].resourceKey] == table[records[i].resourceKey] {
      assert records[i] in records && records[i].resourceKey != records[n].resourceKey;
    }
    assert now.Keys == table.Keys;
  }

  /** Succeeds exactly when every mutable record has its disposition, and then all of the
      records are turned off. Evidence is never touched, nor is any other record. */
  method ApplyCompensationDispositions(
    store: InMemoryProvisioningStore, records: seq<Resource>, ds: seq<Disposition>)
    returns (thrown: Option<SafeFailure>)
    requires store.Valid() && StillListed(records, store.resources)
    modifies store`resources
    ensures store.Valid() && OnlyTheseChanged(old(store.resources), store.resources, records)
    ensures StillListed(records, store.resources)
    ensures thrown.None? <==> DispositionsSuffice(records, ds)
    ensures thrown.None? ==> forall r :: r in records ==> TurnedOff(store.resources[r.resourceKey])
    ensures thrown.Some? ==> thrown.value == SafeFailure(ProviderResponseInvalid, false)
  {
    hide Disposed, TurnedOff, DispositionsWellFormed, DispositionsSuffice;
    DispositionsSufficeIff(records, ds);
    if !DispositionsWellFormed(records, ds) { return Some(SafeFailure(ProviderResponseInvalid, false)); }
    var n := 0;
    while n < |records|
      invariant 0 <= n <= |records| && store.Valid()
      invariant OnlyTheseChanged(old(store.resources), store.resources, records)
      invariant StillListed(records, store.resources)
      invariant forall k :: k in store.resources ==> store.resources[k].retention == old(store.resources)[k].retention
      invariant forall i :: 0 <= i < n ==> Disposed(records[i], ds).Ok? && TurnedOff(store.resources[records[i].resourceKey])
    {
      var disposed := Disposed(records[n], ds);
      assert records[n] in records;
      if disposed.Err? {
        DisposedError(records[n], ds);
        return Some(disposed.failure);
      }
      DisposedTurnsOff(records[n], ds);
      if disposed.value.Some? {
        DisposeOne(old(store.resources), store.resources, records, n, disposed.value.value);
        hide OnlyTheseChanged, StillListed, DecidePutResource;
        var stored := store.PutResource(disposed.value.value);
      }
      n := n + 1;
    }
    return None;
  }

  // ---------------------------------------------------------------------------
  // One compensation
  // ---------------------------------------------------------------------------

  /** `fence`: renew the lease at some clock reading, or find it lost. */
  method Fence(store: InMemoryProvisioningStore, lease: Lease) returns (held: Option<Lease>, now: int)
    modifies store`leases
    ensures held.Some? ==> lease.subscriptionId in store.leases && store.leases[lease.subscriptionId] == held.value
                           && held.value.fencingToken == lease.fencingToken
    ensures held.None? ==> store.leases == old(store.leases)
  {
    var at: int, durationMs: int := *, *;
    var renewed := store.RenewJobExecutionLease(lease, at, durationMs);
    held := if renewed.Ok? then Some(renewed.value) else None;
    now := *;
  }

  /** The activation's pointer is revoked, or was never begun. */
  ghost predicate Closed(handoffs: map<HandoffId, Pointer>, h: HandoffId) {
    h in handoffs && handoffs[h].subscriptionId == h.subscriptionId ==> handoffs[h].state == Revoked
  }

  datatype Attempt = Done | Thrown(failure: SafeFailure) | Lost

  /** The handoff part of an iteration: nothing is compensated before the pointer is closed. */
  method CloseHandoff(store: InMemoryProvisioningStore, lease: Lease, job: Job) returns (r: Attempt)
    modifies store`leases, store`handoffs
    ensures r.Done? ==> Closed(store.handoffs, HandoffOf(job))
    ensures forall h :: h in old(store.handoffs) && h != HandoffOf(job) ==>
              h in store.handoffs && store.handoffs[h] == old(store.handoffs)[h]
  {
    var pointer := store.GetCredentialHandoffPointer(job.subscriptionId, HandoffOf(job));
    if pointer.Some? && pointer.value.state != Revoked {
      if !PointerMatchesJob(pointer.value, job) { return Thrown(SafeFailure(CredentialHandoffRequired, false)); }
      var held, now := Fence(store, lease);
      if held.None? { return Lost; }
      var revoked := store.RevokeCredentialHandoff(pointer.value, held.value, now);
      if revoked.Err? { return Thrown(revoked.failure); }
    }
    return Done;
  }

  lemma {:induction false} RecordsOfStepAre(listed: seq<Resource>, step: Step)
    ensures forall r :: r in RecordsOfStep(listed, step) <==> r in listed && r.step == step
    ensures DistinctKeys(listed) ==> DistinctKeys(RecordsOfStep(listed, step))
  {
    if listed != [] {
      RecordsOfStepAre(listed[1..], step);
      assert forall r :: r in listed <==> r == listed[0] || r in listed[1..];
      if DistinctKeys(listed) {
        DistinctTail(listed);
        assert DistinctKeys(RecordsOfStep(listed[1..], step));
        DistinctCons(listed[0], RecordsOfStep(listed[1..], step));
      }
    }
  }

  lemma DistinctTail(rs: seq<Resource>)
    requires rs != [] && DistinctKeys(rs)
    ensures DistinctKeys(rs[1..])
    ensures forall r :: r in rs[1..] ==> r.resourceKey != rs[0].resourceKey
  {
  }

  lemma DistinctCons(r: Resource, rs: seq<Resource>)
    requires DistinctKeys(rs)
    ensures (forall q :: q in rs ==> q.resourceKey != r.resourceKey) ==> DistinctKeys([r] + rs)
  {
    if forall q :: q in rs ==> q.resourceKey != r.resourceKey {
      forall i, j | 0 <= i < j < |rs| + 1 ensures ([r] + rs)[i].resourceKey != ([r] + rs)[j].resourceKey {
        assert ([r] + rs)[j] == rs[j - 1] && rs[j - 1] in rs;
        if i > 0 { assert ([r] + rs)[i] == rs[i - 1]; }
      }
    }
  }

  ghost predicate Filed(resources: map<ResourceKey, Resource>) {
    forall k :: k in resources ==> resources[k].resourceKey == k == KeyOf(resources[k])
  }

  /** Every record that a step had before is now turned off. */
  ghost predicate StepTurnedOff(
    before: map<ResourceKey, Resource>, after: map<ResourceKey, Resource>, sub: string, step: Step)
  {
    forall k :: k in before && k.subscriptionId == sub && k.step == step ==> k in after && TurnedOff(after[k])
  }

  /** The records of a listed step. */
  ghost predicate StepListed(records: seq<Resource>, resources: map<ResourceKey, Resource>, sub: string, step: Step) {
    && StillListed(records, resources)
    && (forall r :: r in records ==> r.subscriptionId == sub && r.step == step)
    && (forall k :: k in resources && k.subscriptionId == sub && k.step == step ==> resources[k] in records)
  }

  /** The records of a step, as listed, cover the table's records of that step. */
  lemma StepRecordsListed(resources: map<ResourceKey, Resource>, listed: seq<Resource>, sub: string, step: Step)
    requires Filed(resources) && Lists(listed, resources, sub)
    ensures StepListed(RecordsOfStep(listed, step), resources, sub, step)
  {
    RecordsOfStepAre(listed, step);
    hide RecordsOfStep;
  }

  lemma StepChanged(
    first: map<ResourceKey, Resource>, persisted: map<ResourceKey, Resource>, last: map<ResourceKey, Resource>,
    records: seq<Resource>, sub: string, step: Step)
    requires OnlyStepChanged(first, persisted, sub, step) && OnlyTheseChanged(persisted, last, records)
    requires forall r :: r in records ==> r.resourceKey == KeyOf(r) && r.subscriptionId == sub && r.step == step
    ensures OnlyStepChanged(first, last, sub, step)
  {
  }

  /** What the driver's answer does to the step's records. */
  method RecordAndDispose(
    store: InMemoryProvisioningStore, job: Job, step: Step, records: seq<Resource>,
    inputs: seq<ResourceInput>, ds: seq<Disposition>)
    returns (thrown: Option<SafeFailure>)
    requires store.Valid() && StepListed(records, store.resources, job.subscriptionId, step)
    modifies store`resources
    ensures store.Valid() && OnlyStepChanged(old(store.resources), store.resources, job.subscriptionId, step)
    ensures thrown.None? ==> StepTurnedOff(old(store.resources), store.resources, job.subscriptionId, step)
  {
    thrown := PersistStepResources(store, job, step, inputs);
    if thrown.Some? { return; }
    ghost var persisted := store.resources;
    assert StillListed(records, persisted);
    thrown := ApplyCompensationDispositions(store, records, ds);
    StepChanged(old(store.resources), persisted, store.resources, records, job.subscriptionId, step);
    hide TurnedOff, DispositionsSuffice;
    if thrown.None? {
      forall k | k in old(store.resources) && k.subscriptionId == job.subscriptionId && k.step == step
        ensures k in store.resources && TurnedOff(store.resources[k])
      {
        assert old(store.resources)[k] in records;
      }
    }
  }

  datatype StepOutcome = Saved(job: Job) | Broken(failure: SafeFailure) | Conflicted | LeaseLost

  /** One turn of the loop: close the handoff, undo the step, record it, checkpoint. When
      it is saved, every record of the step that was there before is turned off. */
  method CompensateStep(
    store: InMemoryProvisioningStore, sub: string, lease: Lease, job: Job, rivals: nat)
    returns (r: StepOutcome, left: nat)
    requires store.Valid() && HasJob(store, sub) && JobOk(job) && IsUndoJob(job) && job.subscriptionId == sub
    modifies store`jobs, store`resources, store`leases, store`handoffs
    ensures store.Valid() && HasJob(store, sub) && left <= rivals
    ensures OnlyStepChanged(old(store.resources), store.resources, sub, UndoStepOf(job))
    ensures r.Saved? ==>
              && CompleteCompensationStep(job, UndoStepOf(job)).Ok?
              && r.job == CompleteCompensationStep(job, UndoStepOf(job)).value.(version := job.version + 1)
              && store.jobs[sub] == r.job
              && Closed(store.handoffs, HandoffOf(job))
              && StepTurnedOff(old(store.resources), store.resources, sub, UndoStepOf(job))
    ensures r.Conflicted? ==> store.jobs[sub].version != job.version
    ensures !r.Saved? ==> AllIn(store.jobs[sub].compensatedSteps, old(store.jobs[sub]).compensatedSteps)
  {
    hide RecordsOfStep, Lists, JobOk, IsUndoJob, UndoStepOf, StepListed, StepTurnedOff, Closed,
      CompleteCompensationStep, Evolves, Apply;
    left := rivals;
    var step := UndoStepOf(job);
    var held, now := Fence(store, lease);
    if held.None? { return LeaseLost, left; }
    var listed := store.ListResources(sub);
    var records := RecordsOfStep(listed, step);
    StepRecordsListed(store.resources, listed, sub, step);
    hide InMemoryProvisioningStore.Valid;
    var closed := CloseHandoff(store, held.value, job);
    if closed.Lost? { return LeaseLost, left; }
    if closed.Thrown? { return Broken(closed.failure), left; }
    var failure: Option<SafeFailure>, inputs: seq<ResourceInput>, dispositions: seq<Disposition> := *, *, *;
    if failure.Some? { return Broken(failure.value), left; }
    held, now := Fence(store, lease);
    if held.None? { return LeaseLost, left; }
    var thrown := RecordAndDispose(store, job, step, records, inputs, dispositions);
    if thrown.Some? { return Broken(thrown.value), left; }
    held, now := Fence(store, lease);
    if held.None? { return LeaseLost, left; }
    left := RivalWrites(store, sub, false, left);
    r := Checkpoint(store, sub, job, step);
  }

  /** `completeCompensationStep` and `saveUpdatedJob`. */
  method Checkpoint(store: InMemoryProvisioningStore, sub: string, job: Job, step: Step) returns (r: StepOutcome)
    requires HasJob(store, sub) && JobOk(job) && job.subscriptionId == sub
    modifies store`jobs
    ensures HasJob(store, sub)
    ensures r.Saved? ==>
              && CompleteCompensationStep(job, step).Ok?
              && r.job == CompleteCompensationStep(job, step).value.(version := job.version + 1)
              && store.jobs[sub] == r.job
    ensures r.Conflicted? ==> store.jobs[sub].version != job.version
    ensures !r.LeaseLost? && (!r.Saved? ==> store.jobs == old(store.jobs))
  {
    var next := CompleteCompensationStep(job, step);
    if next.Err? { return Broken(next.failure); }
    ApplyKeepsJobOk(job, StepCompensated(step));
    VersionIsFree(next.value, job.version + 1);
    hide JobOk, CompleteCompensationStep, Apply, Evolves;
    var stored := store.PutJob(next.value, Some(job.version));
    return if stored.Ok? then Saved(stored.value) else Conflicted;
  }

  // ---------------------------------------------------------------------------
  // The whole run
  // ---------------------------------------------------------------------------

  datatype RunOutcome =
    | NotFound
    | Drove(disabled: Job)
    | SavedFailure(failed: Job)
    | Waiting(waiting: Job)
    | JobChanged
    | Observed(latest: Job)
    | LeaseGone
    | Escaped(thrown: SafeFailure)

  /** The known records of what the stored job calls compensated are turned off. */
  ghost predicate StoredSettled(store: InMemoryProvisioningStore, sub: string, known: set<ResourceKey>)
    reads store
  {
    && store.Valid() && HasJob(store, sub) && known <= store.resources.Keys
    && Settled(store.resources, sub, store.jobs[sub].compensatedSteps, known)
  }

  /** Everything that was completed is undone, every record of the subscription belongs to
      an undone step, and every known record is turned off. */
  ghost predicate FullyUndone(store: InMemoryProvisioningStore, sub: string, job: Job, known: set<ResourceKey>)
    reads store
  {
    && sub in store.jobs && Evolves(job, store.jobs[sub]) && job.state == Disabled
    && AllIn(job.completedSteps, job.compensatedSteps)
    && Recorded(store.resources, sub, job.compensatedSteps)
    && forall k :: k in known && k in store.resources && store.resources[k].subscriptionId == sub ==>
         TurnedOff(store.resources[k])
  }

  lemma UndoStepIsOpen(job: Job)
    requires JobOk(job) && job.operation != Provisioning && job.state == Compensating
    ensures IsUndoJob(job) && UndoStepOf(job) in job.completedSteps && UndoStepOf(job) !in job.compensatedSteps
    ensures |job.compensatedSteps| < |STEPS|
  {
    CompensationTakesLargest(job);
    hide LastOutside;
    SubsetLength(job.compensatedSteps + [UndoStepOf(job)], job.completedSteps);
  }

  /** What happens to one open step leaves settled steps settled and records accounted for. */
  lemma OtherStepsStaySettled(
    before: map<ResourceKey, Resource>, after: map<ResourceKey, Resource>, sub: string, step: Step,
    settled: seq<Step>, completed: seq<Step>, known: set<ResourceKey>)
    requires Filed(before) && Filed(after) && OnlyStepChanged(before, after, sub, step) && known <= before.Keys
    requires Settled(before, sub, settled, known) && step !in settled
    requires Recorded(before, sub, completed) && step in completed
    ensures Settled(after, sub, settled, known) && Recorded(after, sub, completed) && known <= after.Keys
  {
    forall k | k in after && after[k].subscriptionId == sub ensures after[k].step in completed {
      if k.step != step { assert after[k] == before[k]; }
    }
    forall k | k in known && k in after && after[k].subscriptionId == sub && after[k].step in settled
      ensures TurnedOff(after[k])
    {
      assert after[k] == before[k];
    }
    hide TurnedOff;
  }

  lemma StepSettles(
    before: map<ResourceKey, Resource>, after: map<ResourceKey, Resource>, sub: string, step: Step,
    settled: seq<Step>, known: set<ResourceKey>)
    requires Filed(after) && StepTurnedOff(before, after, sub, step) && known <= before.Keys
    requires Settled(after, sub, settled, known)
    ensures Settled(after, sub, settled + [step], known)
  {
    hide TurnedOff;
  }

  lemma FewerStepsSettled(resources: map<ResourceKey, Resource>, sub: string, few: seq<Step>, many: seq<Step>, known: set<ResourceKey>)
    requires Settled(resources, sub, many, known) && AllIn(few, many)
    ensures Settled(resources, sub, few, known)
  {
  }

  /** `failProvisioningAttempt`, saved unless a handler wrote the job. */
  method SaveFailedAttempt(
    store: InMemoryProvisioningStore, sub: string, job: Job, failure: SafeFailure, now: int, rivals: nat)
    returns (r: RunOutcome, left: nat)
    requires HasJob(store, sub) && JobOk(job) && job.subscriptionId == sub
    modifies store`jobs
    ensures HasJob(store, sub) && left <= rivals
    ensures r.JobChanged? || r.Escaped? || r.SavedFailure?
    ensures r.SavedFailure? ==>
              && store.jobs[sub] == r.failed && r.failed.state == JobState.Failed
              && r.failed.lastErrorCode == Some(failure.code) && r.failed.compensatedSteps == job.compensatedSteps
    ensures !r.SavedFailure? ==> AllIn(store.jobs[sub].compensatedSteps, old(store.jobs[sub]).compensatedSteps)
  {
    left := rivals;
    var failed := FailProvisioningAttempt(job, failure, now);
    if failed.Err? { return Escaped(failed.failure), left; }
    ApplyKeepsJobOk(job, AttemptFailed(failure, now));
    VersionIsFree(failed.value, job.version + 1);
    hide JobOk, Evolves;
    left := RivalWrites(store, sub, false, left);
    var stored := store.PutJob(failed.value, Some(job.version));
    r := if stored.Ok? then SavedFailure(stored.value) else JobChanged;
  }

  /** `runCompensationSteps`, beside handlers but no other worker: when it drives the job to
      disabled, everything is undone; however it ends, what the stored job calls compensated
      is turned off. */
  method RunCompensationSteps(
    store: InMemoryProvisioningStore, sub: string, lease: Lease, initialJob: Job, now: int, rivals: nat,
    ghost known: set<ResourceKey>)
    returns (r: RunOutcome, left: nat)
    requires StoredSettled(store, sub, known) && JobOk(initialJob) && initialJob.subscriptionId == sub
    requires AllIn(store.jobs[sub].compensatedSteps, initialJob.compensatedSteps)
    requires Settled(store.resources, sub, initialJob.compensatedSteps, known)
    requires initialJob.operation != Provisioning && initialJob.state == Compensating
    requires Recorded(store.resources, sub, initialJob.completedSteps)
    modifies store`jobs, store`resources, store`leases, store`handoffs
    ensures StoredSettled(store, sub, known) && left <= rivals
    ensures r.Drove? ==> FullyUndone(store, sub, r.disabled, known) && store.jobs[sub] == r.disabled && Closed(store.handoffs, HandoffOf(initialJob))
    ensures r.Drove? || r.SavedFailure? || r.JobChanged? || r.LeaseGone? || r.Escaped?
  {
    hide JobOk, IsUndoJob, UndoStepOf, TurnedOff, Settled, Recorded, OnlyStepChanged, StepTurnedOff, Closed, AllIn;
    left := rivals;
    var job := initialJob;
    UndoStepIsOpen(job);
    while job.state == Compensating
      invariant StoredSettled(store, sub, known) && left <= rivals
      invariant JobOk(job) && job.subscriptionId == sub && job.operation != Provisioning
      invariant job.state == Compensating || job.state == Disabled
      invariant HandoffOf(job) == HandoffOf(initialJob)
      invariant Recorded(store.resources, sub, job.completedSteps)
      invariant Settled(store.resources, sub, job.compensatedSteps, known)
      invariant AllIn(store.jobs[sub].compensatedSteps, job.compensatedSteps) && |job.compensatedSteps| <= |STEPS|
      invariant job != initialJob ==> store.jobs[sub] == job && Closed(store.handoffs, HandoffOf(initialJob))
      decreases |STEPS| - |job.compensatedSteps|
    {
      UndoStepIsOpen(job);
      var step := UndoStepOf(job);
      ghost var before, stored := store.resources, store.jobs[sub].compensatedSteps;
      var turn;
      turn, left := CompensateStep(store, sub, lease, job, left);
      OtherStepsStaySettled(before, store.resources, sub, step, job.compensatedSteps, job.completedSteps, known);
      if turn.Saved? {
        StepSettles(before, store.resources, sub, step, job.compensatedSteps, known);
        job := turn.job;
        AllInReflexive(job.compensatedSteps);
      } else {
        AllInTransitive(store.jobs[sub].compensatedSteps, stored, job.compensatedSteps);
        FewerStepsSettled(store.resources, sub, store.jobs[sub].compensatedSteps, job.compensatedSteps, known);
        if turn.LeaseLost? { return LeaseGone, left; }
        if turn.Conflicted? { return JobChanged, left; }
        stored := store.jobs[sub].compensatedSteps;
        r, left := SaveFailedAttempt(store, sub, job, turn.failure, now, left);
        if !r.SavedFailure? { FewerStepsSettled(store.resources, sub, store.jobs[sub].compensatedSteps, stored, known); }
        return;
      }
    }
    AllUndone(store.resources, sub, job, known);
    EvolvesReflexive(job);
    return Drove(job), left;
  }

  lemma AllInTransitive(xs: seq<Step>, ys: seq<Step>, zs: seq<Step>)
    requires AllIn(xs, ys) && AllIn(ys, zs)
    ensures AllIn(xs, zs)
  {
  }

  lemma AllInReflexive(xs: seq<Step>)
    ensures AllIn(xs, xs)
  {
  }

  lemma AllUndone(resources: map<ResourceKey, Resource>, sub: string, job: Job, known: set<ResourceKey>)
    requires JobOk(job) && job.operation != Provisioning && job.state == Disabled
    requires Recorded(resources, sub, job.completedSteps) && Settled(resources, sub, job.compensatedSteps, known)
    ensures AllIn(job.completedSteps, job.compensatedSteps)
    ensures Recorded(resources, sub, job.compensatedSteps)
    ensures forall k :: k in known && k in resources && resources[k].subscriptionId == sub ==> TurnedOff(resources[k])
  {
    hide TurnedOff;
  }

  /** `recoverJobConflict`, or its end: `conflicts` more runs, then what is stored now. */
  method Recover(
    store: InMemoryProvisioningStore, sub: string, lease: Lease, mode: DeploymentMode, now: int, conflicts: nat,
    rivals: nat, ghost known: set<ResourceKey>)
    returns (r: RunOutcome, left: nat)
    requires StoredSettled(store, sub, known) && (sub in store.orders ==> EndsService(store.orders[sub]))
    modifies store`jobs, store`resources, store`leases, store`handoffs
    ensures StoredSettled(store, sub, known) && left <= rivals
    ensures r.Drove? ==> FullyUndone(store, sub, r.disabled, known)
    decreases conflicts, 0
  {
    if conflicts > 0 {
      r, left := RunEndingJob(store, sub, lease, mode, now, conflicts - 1, rivals, known);
    } else {
      var latest := store.GetJob(sub);
      return if latest.Some? then Observed(latest.value) else NotFound, rivals;
    }
  }

  /** `runProvisioningJobInternal` for an order that is past due, canceled or refunded. If
      the run itself drives the job to disabled, then every step with a record is
      compensated and every record that was there before is turned off, however often
      handlers interfered, unless another worker writes meanwhile. However it ends, the
      premise of the next run holds again. */
  method RunEndingJob(
    store: InMemoryProvisioningStore, sub: string, lease: Lease, mode: DeploymentMode, now: int, conflicts: nat,
    rivals: nat, ghost known: set<ResourceKey>)
    returns (r: RunOutcome, left: nat)
    requires StoredSettled(store, sub, known) && (sub in store.orders ==> EndsService(store.orders[sub]))
    modifies store`jobs, store`resources, store`leases, store`handoffs
    ensures StoredSettled(store, sub, known) && left <= rivals
    ensures r.Drove? ==> FullyUndone(store, sub, r.disabled, known)
    decreases conflicts, 1
  {
    hide JobOk, TurnedOff, Settled, Recorded, AllIn, Evolves;
    left := rivals;
    var held, at := Fence(store, lease);
    if held.None? { return LeaseGone, left; }
    var order := store.GetOrder(sub);
    var read := store.GetJob(sub);
    if order.None? || read.None? { return NotFound, left; }
    var turned;
    ghost var replaced, seen;
    turned, left, replaced, seen := TransitionToCompensation(store, sub, read.value, OperationFor(order.value), false, left);
    FewerStepsSettled(store.resources, sub, store.jobs[sub].compensatedSteps, read.value.compensatedSteps, known);
    if turned.Err? {
      r, left := Recover(store, sub, lease, mode, now, conflicts, left, known);
      return;
    }
    FewerStepsSettled(store.resources, sub, turned.value.compensatedSteps, read.value.compensatedSteps, known);
    r, left := RunEndedJob(store, sub, lease, order.value, turned.value, mode, now, left, known);
    if r.JobChanged? {
      r, left := Recover(store, sub, lease, mode, now, conflicts, left, known);
    }
  }

  /** What the run does with the job after the transition. */
  method RunEndedJob(
    store: InMemoryProvisioningStore, sub: string, lease: Lease, order: Order, turned: Job, mode: DeploymentMode,
    now: int, rivals: nat, ghost known: set<ResourceKey>)
    returns (r: RunOutcome, left: nat)
    requires StoredSettled(store, sub, known) && JobOk(turned) && turned.subscriptionId == sub
    requires Evolves(turned, store.jobs[sub]) && AllIn(store.jobs[sub].compensatedSteps, turned.compensatedSteps)
    requires Settled(store.resources, sub, turned.compensatedSteps, known)
    requires turned.operation != Provisioning && Recorded(store.resources, sub, turned.completedSteps)
    modifies store`jobs, store`resources, store`leases, store`handoffs
    ensures StoredSettled(store, sub, known) && left <= rivals
    ensures r.Drove? ==> FullyUndone(store, sub, r.disabled, known)
  {
    hide JobOk, TurnedOff, Settled, Recorded, AllIn, Evolves, HasProvisioningIdentity;
    left := rivals;
    var job := turned;
    if job.state == Disabled {
      AllUndone(store.resources, sub, job, known);
      return Drove(job), left;
    }
    if job.state == JobState.Failed && (job.retryExhausted || job.nextRetryAt.None? || now < job.nextRetryAt.value) {
      return Waiting(job), left;
    }
    var started := StartProvisioningAttempt(job, now);
    if started.Err? { return Escaped(started.failure), left; }
    EndingStart(job, now);
    hide StartProvisioningAttempt;
    if started.value != job {
      PutOverRead(job, Started(now));
      left := RivalWrites(store, sub, false, left);
      AllInTransitive(store.jobs[sub].compensatedSteps, old(store.jobs[sub].compensatedSteps), job.compensatedSteps);
      FewerStepsSettled(store.resources, sub, store.jobs[sub].compensatedSteps, job.compensatedSteps, known);
      var stored := store.PutJob(started.value, Some(job.version));
      if stored.Err? { return JobChanged, left; }
      job := stored.value;
      AllInReflexive(job.compensatedSteps);
    }
    ghost var before := store.jobs[sub].compensatedSteps;
    if order.mode != Some(mode) {
      r, left := SaveFailedAttempt(store, sub, job, SafeFailure(ModeMismatch, false), now, left);
      AllInReflexive(job.compensatedSteps);
      AllInReflexive(before);
      FewerStepsSettled(store.resources, sub, store.jobs[sub].compensatedSteps,
                        if r.SavedFailure? then job.compensatedSteps else before, known);
    } else if !HasProvisioningIdentity(order) {
      r, left := SaveFailedAttempt(store, sub, job, SafeFailure(InvalidOrder, false), now, left);
      AllInReflexive(job.compensatedSteps);
      FewerStepsSettled(store.resources, sub, store.jobs[sub].compensatedSteps,
                        if r.SavedFailure? then job.compensatedSteps else before, known);
    } else {
      r, left := RunCompensationSteps(store, sub, lease, job, now, left, known);
    }
  }

  /** A job that is being ended starts as a compensating one. */
  lemma EndingStart(job: Job, now: int)
    requires JobOk(job) && job.operation != Provisioning && StartProvisioningAttempt(job, now).Ok?
    ensures var started := StartProvisioningAttempt(job, now).value;
            && started.state == Compensating && started.operation == job.operation && started.version == job.version
            && started.subscriptionId == job.subscriptionId && started.jobId == job.jobId
            && started.completedSteps == job.completedSteps && started.compensatedSteps == job.compensatedSteps
  {
  }
}
