/** The orchestrator (infra/provisioning/src/orchestrator.ts) as a transition system.

    Any number of event handlers and workers act on the records of one subscription. A
    step is one store or driver call of one process, so everything may happen between two
    awaits: other processes run, the lease is taken over, the process crashes. Handlers
    write orders and jobs by compare-and-set without a lease; workers hold a lease, which
    fences handoff mutations but not provider calls. As the program's configuration
    demands (infra/provisioning/src/domain.ts:188-190), a driver call finishes inside the
    lease under which it was made. */
module Protocol {
  import opened Domain
  import opened Billing
  import opened Jobs
  import opened Store

  /** One subscription, and whether its driver needs the credential handoff. */
  datatype Config = Config(sub: string, handoffRequired: bool)

  /** The records of one subscription. */
  datatype Shard = Shard(
    order: Option<Order>,
    job: Option<Job>,
    lease: Option<Lease>,
    handoffs: map<HandoffId, Pointer>,
    resources: map<ResourceKey, Resource>)

  const EMPTY_SHARD := Shard(None, None, None, map[], map[])

  datatype ResourceInput = ResourceInput(kind: string, opaqueId: OpaqueId, retention: Retention)

  /** What a compensation may turn a mutable record into. */
  type InactiveStatus = s: ResourceStatus | s == RevokedResource || s == DisabledResource || s == Quarantined
    witness Quarantined

  datatype Disposition = Disposition(resourceKey: ResourceKey, status: InactiveStatus)

  /** What `prepareCredentialHandoff` hands to the rest of the step. */
  datatype Prepared = NotNeeded | AlreadyPublished | Fresh(pointer: Pointer)

  /** Who asked for the transition to compensation. */
  datatype Continuation = ForHandler(first: Job) | ForWorker(order: Order)

  datatype HandlerPc =
    | GetOrder(attempt: nat)
    | PutOrder(read: Option<Order>, reduced: Order, attempt: nat)
    | GetJob(order: Order)
    | Resume(resumed: Job)
    | Create(order: Order)

  /** `transitionToCompensation`. */
  datatype TransitionPc =
    | ListRecords(job: Job)
    | PutJob(job: Job, steps: seq<Step>)
    | GetJobAgain

  /** `runProvisioningJobInternal`. */
  datatype RunPc =
    | RunOwned
    | RunGetOrder
    | RunGetJob(order: Order)
    | RunStart(order: Order, job: Job)
    | SaveFailure(job: Job, failure: SafeFailure)
    | Releasing

  /** `runProvisioningSteps`, with the handoff of its credential step. */
  datatype StepPc =
    | StepOwned
    | StepList
    | StepGetPointer
    | StepVerify(pointer: Pointer)
    | StepPublishVerified(pointer: Pointer)
    | StepReceiptVerified
    | StepBeginHandoff(seen: Option<Pointer>)
    | StepExecute(prepared: Prepared)
    | StepExecuted(prepared: Prepared, todo: seq<ResourceInput>, credential: Option<string>)
    | StepPersist(prepared: Prepared, todo: seq<ResourceInput>, credential: Option<string>)
    | StepBind(pointer: Pointer, credentialId: string)
    | StepCreateSecret(pointer: Pointer)
    | StepPublish(pointer: Pointer)
    | StepReceipt
    | StepDoneOwned
    | StepCheckpoint

  /** `runCompensationSteps`. */
  datatype UndoPc =
    | UndoOwned
    | UndoList
    | UndoGetPointer(records: seq<Resource>)
    | UndoRevoke(records: seq<Resource>, pointer: Pointer)
    | UndoCompensate(records: seq<Resource>)
    | UndoCompensated(records: seq<Resource>, todo: seq<ResourceInput>, dispositions: seq<Disposition>)
    | UndoPersist(records: seq<Resource>, todo: seq<ResourceInput>, dispositions: seq<Disposition>)
    | UndoDispose(records: seq<Resource>, dispositions: seq<Disposition>)
    | UndoDoneOwned
    | UndoCheckpoint

  /** Program counters; a process stands before the call that its counter names. The two
      loops work on one job version at a time. */
  datatype Pc =
    | Handling(h: HandlerPc)
    | Transition(t: TransitionPc, operation: Operation, tries: nat, cont: Continuation)
    | Outside(r: RunPc)
    | Steps(job: Job, s: StepPc)
    | Undo(job: Job, u: UndoPc)

  datatype Process =
    | Handler(event: Event, policy: RetryPolicy, pc: Pc)
    | Worker(lease: Lease, mode: DeploymentMode, hasHandoff: bool, now: int, conflictsLeft: nat, pc: Pc)

  /** What the environment decides in a step: nothing, a clock reading, a listing, what a
      driver call returned or threw, or an error thrown by any other call. */
  datatype Choice =
    | Go
    | Clock(at: int, durationMs: int)
    | Listing(listed: seq<Resource>)
    | Returned(resources: seq<ResourceInput>, credential: Option<string>, dispositions: seq<Disposition>)
    | ThrewAfterEffect(thrown: SafeFailure)
    | Threw(thrown: SafeFailure)

  /** The single effect of a step on what processes share. */
  datatype SharedOp =
    | Nothing
    | SetOrder(order: Order, event: Event)
    | SetJob(job: Job)
    | SetLease(lease: Option<Lease>)
    | SetPointer(pointer: Pointer)
    | SetResource(resource: Resource)
    | Execute(onBehalf: Job, step: Step)
    | Compensate(onBehalf: Job, step: Step)
    | CreateSecret(secret: Publication)

  /** Where the process goes next. */
  datatype Next = Finish | Goto(pc: Pc) | Recover

  datatype Move = Move(op: SharedOp, next: Next)

  function Local(next: Next): Option<Move> {
    Some(Move(Nothing, next))
  }

  function HandoffOf(job: Job): HandoffId {
    HandoffId(job.subscriptionId, job.activationGeneration)
  }

  function CurrentPointer(sh: Shard, job: Job): Option<Pointer> {
    var h := HandoffOf(job);
    if h in sh.handoffs && sh.handoffs[h].subscriptionId == job.subscriptionId then Some(sh.handoffs[h]) else None
  }

  predicate PointerMatchesJob(p: Pointer, job: Job) {
    && p.subscriptionId == job.subscriptionId && p.jobId == job.jobId
    && p.activationGeneration == job.activationGeneration
    && p.handoffId == HandoffOf(job)
  }

  const RECEIPT_KIND := "credential_handoff_receipt"

  function Receipt(job: Job): Resource {
    var id := ReceiptOf(HandoffOf(job));
    Resource(ResourceKey(job.subscriptionId, ApiCredential, RECEIPT_KIND, id),
             job.subscriptionId, ApiCredential, RECEIPT_KIND, id, Mutable, ActiveResource)
  }

  function RecordFor(job: Job, step: Step, r: ResourceInput): Resource {
    Resource(ResourceKey(job.subscriptionId, step, r.kind, r.opaqueId), job.subscriptionId, step,
             r.kind, r.opaqueId, r.retention,
             if r.retention == ImmutableEvidence then Retained else ActiveResource)
  }

  function StepsOf(records: seq<Resource>): seq<Step> {
    seq(|records|, i requires 0 <= i < |records| => records[i].step)
  }

  function RecordsOfStep(records: seq<Resource>, step: Step): seq<Resource> {
    if records == [] then []
    else if records[0].step == step then [records[0]] + RecordsOfStep(records[1..], step)
    else RecordsOfStep(records[1..], step)
  }

  // ---------------------------------------------------------------------------
  // Event handlers
  // ---------------------------------------------------------------------------

  function OperationFor(order: Order): Operation {
    if order.billingState == PastDue then Suspension else Compensation
  }

  predicate EndsService(order: Order) {
    order.billingState == PastDue || IsTerminalState(order.billingState)
  }

  function VersionOf(o: Option<Order>): Option<nat> {
    if o.Some? then Some(o.value.version) else None
  }

  function PlanHandler(sh: Shard, event: Event, policy: RetryPolicy, at: HandlerPc): Option<Move> {
    match at
    case GetOrder(attempt) =>
      var r := ReduceBillingEvent(sh.order, event);
      if r.Err? || r.value.order.None? then Local(Finish)
      else Local(Goto(Handling(PutOrder(sh.order, r.value.order.value, attempt))))
    case PutOrder(read, reduced, attempt) =>
      var r := DecidePutOrder(sh.order, reduced, VersionOf(read));
      if r.Ok? then Some(Move(SetOrder(r.value, event), Goto(Handling(GetJob(r.value)))))
      else if attempt == 3 then Local(Finish)
      else Local(Goto(Handling(GetOrder(attempt + 1))))
    case GetJob(order) =>
      if EndsService(order) then
        if sh.job.None? then Local(Finish)
        else Local(Goto(Transition(ListRecords(sh.job.value), OperationFor(order), 0, ForHandler(sh.job.value))))
      else if !IsProvisionableOrder(order) then Local(Finish)
      else if sh.job.None? then Local(Goto(Handling(Create(order))))
      else if sh.job.value.operation == Suspension then Local(Goto(Handling(Resume(sh.job.value))))
      else Local(Finish)
    case Resume(job) => WriteJob(sh, job, ResumeProvisioningJob(job), Finish, Finish)
    case Create(order) =>
      var next := CreateProvisioningJob(order, policy);
      if next.Err? then Local(Finish)
      else
        var r := DecidePutJob(sh.job, next.value, None);
        if r.Ok? then Some(Move(SetJob(r.value), Finish)) else Local(Finish)
  }

  /** `saveUpdatedJob`: store `next` over the version that was read. */
  function SaveJob(sh: Shard, read: Job, next: Job): Result<Job> {
    DecidePutJob(sh.job, next, Some(read.version))
  }

  /** A job write that ends in `saved` or, on a conflict, in `conflict`. */
  function WriteJob(sh: Shard, read: Job, next: Result<Job>, saved: Next, conflict: Next): Option<Move> {
    if next.Err? then Local(saved)
    else
      var r := SaveJob(sh, read, next.value);
      if r.Ok? then Some(Move(SetJob(r.value), saved)) else Local(conflict)
  }

  // ---------------------------------------------------------------------------
  // transitionToCompensation
  // ---------------------------------------------------------------------------

  function AfterTransition(p: Process, job: Job, cont: Continuation): Next {
    if cont.ForWorker? && p.Worker? then Proceed(p, cont.order, job) else Finish
  }

  function PlanTransition(
    sh: Shard, p: Process, at: TransitionPc, op: Operation, tries: nat, cont: Continuation, c: Choice): Option<Move>
  {
    match at
    case ListRecords(job) =>
      if !c.Listing? then None
      else
        var steps := StepsOf(c.listed);
        if TransitionTarget(job, steps, op) == job then Local(AfterTransition(p, job, cont))
        else Local(Goto(Transition(PutJob(job, steps), op, tries, cont)))
    case PutJob(job, steps) =>
      var r := SaveJob(sh, job, TransitionTarget(job, steps, op));
      if r.Ok? then Some(Move(SetJob(r.value), AfterTransition(p, r.value, cont)))
      else Local(Goto(Transition(GetJobAgain, op, tries + 1, cont)))
    case GetJobAgain =>
      if sh.job.None? || tries >= 3 then Local(if p.Worker? then Recover else Finish)
      else Local(Goto(Transition(ListRecords(sh.job.value), op, tries, cont)))
  }

  // ---------------------------------------------------------------------------
  // Workers
  // ---------------------------------------------------------------------------

  /** `fence` and `assertOwned`: renew the lease or give up. */
  function Owned(sh: Shard, p: Process, c: Choice, pc: Pc): Option<Move>
    requires p.Worker?
  {
    if !c.Clock? then None
    else
      var r := DecideRenew(sh.lease, p.lease, c.at, c.durationMs);
      if r.Ok? then Some(Move(SetLease(Some(r.value)), Goto(pc))) else Local(Goto(Outside(Releasing)))
  }

  function Fail(job: Job, code: SafeErrorCode, retryable: bool): Next {
    Goto(Outside(SaveFailure(job, SafeFailure(code, retryable))))
  }

  /** Lines 812 to 831: what a run does with the job it read. */
  function Proceed(p: Process, order: Order, job: Job): Next
    requires p.Worker?
  {
    if job.state == Ready || job.state == Disabled then Goto(Outside(Releasing))
    else if job.state == Failed
            && (job.retryExhausted || job.nextRetryAt.None? || p.now < job.nextRetryAt.value)
    then Goto(Outside(Releasing))
    else
      var started := StartProvisioningAttempt(job, p.now);
      if started.Err? then Goto(Outside(Releasing))
      else if started.value != job then Goto(Outside(RunStart(order, job)))
      else Dispatch(p, order, job)
  }

  /** Lines 833 to 885: which loop runs a started job. */
  function Dispatch(p: Process, order: Order, job: Job): Next
    requires p.Worker?
  {
    if order.mode != Some(p.mode) then Fail(job, ModeMismatch, false)
    else if job.operation != Provisioning then
      if !HasProvisioningIdentity(order) then Fail(job, InvalidOrder, false)
      else EnterUndo(job)
    else if !IsProvisionableOrder(order) then Fail(job, InvalidOrder, false)
    else EnterSteps(job)
  }

  predicate IsStepJob(job: Job) {
    job.operation == Provisioning && job.state == Running && NextProvisioningStep(job).Some?
  }

  predicate IsUndoJob(job: Job) {
    job.operation != Provisioning && job.state == Compensating && NextCompensationStep(job).Some?
  }

  /** The guards of the two loops. */
  function EnterSteps(job: Job): Next {
    if IsStepJob(job) then Goto(Steps(job, StepOwned)) else Goto(Outside(Releasing))
  }

  function EnterUndo(job: Job): Next {
    if IsUndoJob(job) then Goto(Undo(job, UndoOwned)) else Goto(Outside(Releasing))
  }

  function PlanRun(sh: Shard, p: Process, at: RunPc, c: Choice): Option<Move>
    requires p.Worker?
  {
    match at
    case RunOwned => Owned(sh, p, c, Outside(RunGetOrder))
    case RunGetOrder =>
      Local(Goto(Outside(if sh.order.None? then Releasing else RunGetJob(sh.order.value))))
    case RunGetJob(order) =>
      if sh.job.None? then Local(Goto(Outside(Releasing)))
      else if EndsService(order) then
        Local(Goto(Transition(ListRecords(sh.job.value), OperationFor(order), 0, ForWorker(order))))
      else Local(Proceed(p, order, sh.job.value))
    case RunStart(order, job) =>
      var started := StartProvisioningAttempt(job, p.now);
      if started.Err? then Local(Goto(Outside(Releasing)))
      else
        var r := SaveJob(sh, job, started.value);
        if r.Ok? then Some(Move(SetJob(r.value), Dispatch(p, order, r.value))) else Local(Recover)
    case SaveFailure(job, failure) =>
      WriteJob(sh, job, FailProvisioningAttempt(job, failure, p.now), Goto(Outside(Releasing)), Recover)
    case Releasing => Some(Move(SetLease(DecideRelease(sh.lease, p.lease)), Finish))
  }

  function StepOf(job: Job): Step {
    if NextProvisioningStep(job).Some? then NextProvisioningStep(job).value else ResolveTenant
  }

  predicate NeedsHandoff(cfg: Config, job: Job) {
    cfg.handoffRequired && StepOf(job) == ApiCredential
  }

  /** The pointer that `prepareCredentialHandoff` begins. */
  function NewPointer(p: Process, job: Job, seen: Option<Pointer>): Pointer
    requires p.Worker?
  {
    Pointer(HandoffOf(job), job.subscriptionId, job.jobId, job.activationGeneration,
            if seen.Some? then seen.value.publicationGeneration + 1 else 0,
            p.lease.fencingToken, PendingPublication, None)
  }

  /** `describePublication`: the secret's name, from what it is published for. */
  function Describe(pointer: Pointer, credentialId: string): Publication {
    Publication(pointer.handoffId, pointer.publicationGeneration, pointer.fencingToken, credentialId)
  }

  predicate Active(sh: Shard, p: Process, c: Choice)
    requires p.Worker? && c.Clock?
  {
    IsActiveLease(sh.lease, p.lease, c.at)
  }

  /** `fence`, and where a handoff mutation leads by the store's decision: a lost lease ends
      the run. That the lease is lost between the two is one of the failures that may occur
      anywhere. */
  function Mutated(sh: Shard, p: Process, c: Choice, job: Job, r: Result<Pointer>, pc: Pc): Option<Move>
    requires p.Worker? && c.Clock?
  {
    if !Active(sh, p, c) then Local(Goto(Outside(Releasing)))
    else if r.Ok? then Some(Move(SetPointer(r.value), Goto(pc)))
    else Local(Goto(Outside(SaveFailure(job, r.failure))))
  }

  function Decided(r: Result<Pointer>, otherwise: Pointer): Pointer {
    if r.Ok? then r.value else otherwise
  }

  function Stay(job: Job, at: StepPc): Option<Move> {
    Local(Goto(Steps(job, at)))
  }

  /** `putResource`: a refusal fails the attempt. */
  function PutRecord(sh: Shard, job: Job, record: Resource, pc: Pc): Option<Move> {
    var r := DecidePutResource(Lookup(sh.resources, record.resourceKey), record);
    if r.Ok? then Some(Move(SetResource(r.value), Goto(pc)))
    else Local(Goto(Outside(SaveFailure(job, r.failure))))
  }

  predicate IsHandoffPc(at: StepPc) {
    || at.StepGetPointer? || at.StepVerify? || at.StepPublishVerified? || at.StepReceiptVerified?
    || at.StepBeginHandoff? || at.StepBind? || at.StepCreateSecret? || at.StepPublish? || at.StepReceipt?
  }

  /** `prepareCredentialHandoff` and `publishCredentialIfNeeded`. */
  function PlanHandoff(
    sh: Shard, secrets: set<Publication>, p: Process, job: Job, at: StepPc, c: Choice): Option<Move>
    requires p.Worker? && IsHandoffPc(at)
  {
    match at
    case StepGetPointer =>
      var seen := CurrentPointer(sh, job);
      if seen.Some? && (!PointerMatchesJob(seen.value, job) || seen.value.state == Revoked)
      then Local(Fail(job, CredentialHandoffRequired, false))
      else if seen.Some? && seen.value.publication.Some? then Stay(job, StepVerify(seen.value))
      else Stay(job, StepBeginHandoff(seen))
    case StepVerify(pointer) =>
      if pointer.publication.None? || pointer.publication.value !in secrets then
        Stay(job, StepBeginHandoff(Some(pointer)))
      else if pointer.state == PendingPublication then Stay(job, StepPublishVerified(pointer))
      else Stay(job, StepReceiptVerified)
    case StepPublishVerified(pointer) =>
      if !c.Clock? then None
      else Mutated(sh, p, c, job, DecidePublish(Active(sh, p, c), Lookup(sh.handoffs, pointer.handoffId), pointer),
                   Steps(job, StepReceiptVerified))
    case StepReceiptVerified => PutRecord(sh, job, Receipt(job), Steps(job, StepExecute(AlreadyPublished)))
    case StepBeginHandoff(seen) =>
      if !c.Clock? then None
      else
        var next := NewPointer(p, job, seen);
        var r := DecideBegin(Active(sh, p, c), Lookup(sh.handoffs, next.handoffId), next, p.lease,
                             if seen.Some? then Some(seen.value.publicationGeneration) else None);
        Mutated(sh, p, c, job, r, Steps(job, StepExecute(Fresh(next))))
    case StepBind(pointer, credentialId) =>
      if !c.Clock? then None
      else
        var r := DecideBind(Active(sh, p, c), Lookup(sh.handoffs, pointer.handoffId), pointer,
                            Describe(pointer, credentialId));
        Mutated(sh, p, c, job, r, Steps(job, StepCreateSecret(Decided(r, pointer))))
    case StepCreateSecret(bound) =>
      if bound.publication.None? then None
      else if c.ThrewAfterEffect? then
        Some(Move(CreateSecret(bound.publication.value), Goto(Outside(SaveFailure(job, c.thrown)))))
      else Some(Move(CreateSecret(bound.publication.value), Goto(Steps(job, StepPublish(bound)))))
    case StepPublish(bound) =>
      if !c.Clock? then None
      else Mutated(sh, p, c, job, DecidePublish(Active(sh, p, c), Lookup(sh.handoffs, bound.handoffId), bound),
                   Steps(job, StepReceipt))
    case StepReceipt => PutRecord(sh, job, Receipt(job), Steps(job, StepDoneOwned))
  }

  /** `persistStepResources`, one record at a time. */
  function Persist(sh: Shard, job: Job, step: Step, todo: seq<ResourceInput>, again: Pc, done: Next): Option<Move> {
    if todo == [] then Local(done)
    else PutRecord(sh, job, RecordFor(job, step, todo[0]), again)
  }

  function Rest<T>(todo: seq<T>): seq<T> {
    if todo == [] then [] else todo[1..]
  }

  /** Lines 532 to 579: what follows once the step's records are stored. */
  function AfterPersist(cfg: Config, job: Job, prepared: Prepared, credential: Option<string>): Next {
    if !NeedsHandoff(cfg, job) then
      if credential.Some? && StepOf(job) != ApiCredential then Fail(job, ProviderResponseInvalid, false)
      else Goto(Steps(job, StepDoneOwned))
    else if prepared.AlreadyPublished? then
      if credential.Some? then Fail(job, ProviderResponseInvalid, false) else Goto(Steps(job, StepDoneOwned))
    else if !prepared.Fresh? then Fail(job, CredentialHandoffRequired, false)
    else if credential.Some? then Goto(Steps(job, StepBind(prepared.pointer, credential.value)))
    else Fail(job, CredentialReissueRequired, true)
  }

  /** `runProvisioningSteps`. */
  function PlanSteps(cfg: Config, sh: Shard, p: Process, job: Job, at: StepPc, c: Choice): Option<Move>
    requires p.Worker? && !IsHandoffPc(at)
  {
    match at
    case StepOwned => Owned(sh, p, c, Steps(job, StepList))
    case StepList =>
      if !c.Listing? then None
      else if !NeedsHandoff(cfg, job) then Stay(job, StepExecute(NotNeeded))
      else if !p.hasHandoff then Local(Fail(job, CredentialHandoffRequired, false))
      else Stay(job, StepGetPointer)
    case StepExecute(prepared) =>
      if !SameHolder(sh.lease, p.lease) then None
      else if c.ThrewAfterEffect? then
        Some(Move(Execute(job, StepOf(job)), Goto(Outside(SaveFailure(job, c.thrown)))))
      else if c.Returned? then
        Some(Move(Execute(job, StepOf(job)), Goto(Steps(job, StepExecuted(prepared, c.resources, c.credential)))))
      else None
    case StepExecuted(prepared, todo, credential) =>
      Owned(sh, p, c, Steps(job, StepPersist(prepared, todo, credential)))
    case StepPersist(prepared, todo, credential) =>
      Persist(sh, job, StepOf(job), todo, Steps(job, StepPersist(prepared, Rest(todo), credential)),
              AfterPersist(cfg, job, prepared, credential))
    case StepDoneOwned => Owned(sh, p, c, Steps(job, StepCheckpoint))
    case StepCheckpoint =>
      var next := CompleteProvisioningStep(job, StepOf(job));
      if next.Err? then Local(Goto(Outside(SaveFailure(job, next.failure))))
      else
        var r := SaveJob(sh, job, next.value);
        if r.Ok? then Some(Move(SetJob(r.value), EnterSteps(r.value))) else Local(Recover)
  }

  function UndoStepOf(job: Job): Step {
    if NextCompensationStep(job).Some? then NextCompensationStep(job).value else ResolveTenant
  }

  function RequiredStatus(step: Step): Option<ResourceStatus> {
    match step
    case ApiCredential => Some(RevokedResource)
    case PlanEntitlement => Some(DisabledResource)
    case ActivationMetadata => Some(DisabledResource)
    case MarkReady => Some(DisabledResource)
    case _ => None
  }

  predicate DispositionsWellFormed(records: seq<Resource>, ds: seq<Disposition>) {
    && (forall i, j :: 0 <= i < j < |ds| ==> ds[i].resourceKey != ds[j].resourceKey)
    && (forall d :: d in ds ==> exists r :: r in records && r.resourceKey == d.resourceKey)
  }

  function FindDisposition(ds: seq<Disposition>, k: ResourceKey): Option<Disposition> {
    if ds == [] then None
    else if ds[0].resourceKey == k then Some(ds[0])
    else FindDisposition(ds[1..], k)
  }

  /** `applyCompensationDispositions` for one record: the record to store, if any. */
  function Disposed(r: Resource, ds: seq<Disposition>): Result<Option<Resource>> {
    if r.retention == ImmutableEvidence then Ok(None)
    else
      var d := FindDisposition(ds, r.resourceKey);
      if d.None? || (RequiredStatus(r.step).Some? && d.value.status != RequiredStatus(r.step).value)
      then Fatal(ProviderResponseInvalid)
      else Ok(Some(r.(status := d.value.status)))
  }

  function PlanDispose(sh: Shard, job: Job, records: seq<Resource>, ds: seq<Disposition>): Option<Move> {
    if records == [] then Local(Goto(Undo(job, UndoDoneOwned)))
    else
      var d := Disposed(records[0], ds);
      if d.Err? then Local(Goto(Outside(SaveFailure(job, d.failure))))
      else if d.value.None? then Local(Goto(Undo(job, UndoDispose(records[1..], ds))))
      else PutRecord(sh, job, d.value.value, Undo(job, UndoDispose(records[1..], ds)))
  }

  /** `runCompensationSteps`. */
  function PlanUndo(sh: Shard, p: Process, job: Job, at: UndoPc, c: Choice): Option<Move>
    requires p.Worker?
  {
    match at
    case UndoOwned => Owned(sh, p, c, Undo(job, UndoList))
    case UndoList =>
      if !c.Listing? then None
      else Local(Goto(Undo(job, UndoGetPointer(RecordsOfStep(c.listed, UndoStepOf(job))))))
    case UndoGetPointer(records) =>
      var seen := CurrentPointer(sh, job);
      if seen.None? || seen.value.state == Revoked then Local(Goto(Undo(job, UndoCompensate(records))))
      else if !PointerMatchesJob(seen.value, job) then Local(Fail(job, CredentialHandoffRequired, false))
      else Local(Goto(Undo(job, UndoRevoke(records, seen.value))))
    case UndoRevoke(records, pointer) =>
      if !c.Clock? then None
      else Mutated(sh, p, c, job, DecideRevoke(Active(sh, p, c), Lookup(sh.handoffs, pointer.handoffId), pointer),
                   Undo(job, UndoCompensate(records)))
    case UndoCompensate(records) =>
      if !SameHolder(sh.lease, p.lease) then None
      else if c.ThrewAfterEffect? then
        Some(Move(Compensate(job, UndoStepOf(job)), Goto(Outside(SaveFailure(job, c.thrown)))))
      else if c.Returned? then
        Some(Move(Compensate(job, UndoStepOf(job)),
                  Goto(Undo(job, UndoCompensated(records, c.resources, c.dispositions)))))
      else None
    case UndoCompensated(records, todo, ds) => Owned(sh, p, c, Undo(job, UndoPersist(records, todo, ds)))
    case UndoPersist(records, todo, ds) =>
      Persist(sh, job, UndoStepOf(job), todo, Undo(job, UndoPersist(records, Rest(todo), ds)),
              if DispositionsWellFormed(records, ds) then Goto(Undo(job, UndoDispose(records, ds)))
              else Fail(job, ProviderResponseInvalid, false))
    case UndoDispose(records, ds) => PlanDispose(sh, job, records, ds)
    case UndoDoneOwned => Owned(sh, p, c, Undo(job, UndoCheckpoint))
    case UndoCheckpoint =>
      var next := CompleteCompensationStep(job, UndoStepOf(job));
      if next.Err? then Local(Goto(Outside(SaveFailure(job, next.failure))))
      else
        var r := SaveJob(sh, job, next.value);
        if r.Ok? then Some(Move(SetJob(r.value), EnterUndo(r.value))) else Local(Recover)
  }

  /** Everything a process may do next. A worker may fail anywhere: inside a loop the
      failure is saved on the job, elsewhere the run ends and releases its lease. */
  function Plan(cfg: Config, sh: Shard, secrets: set<Publication>, p: Process, c: Choice): Option<Move> {
    if c.Listing? && !ListsShard(c.listed, sh, cfg.sub) then None
    else
      match p.pc
      case Handling(at) =>
        if p.Worker? then None
        else if c.Threw? then Local(Finish)
        else PlanHandler(sh, p.event, p.policy, at)
      case Transition(at, op, tries, cont) =>
        if c.Threw? then Local(if p.Worker? then Goto(Outside(Releasing)) else Finish)
        else PlanTransition(sh, p, at, op, tries, cont, c)
      case Outside(at) =>
        if p.Handler? then None
        else if c.Threw? && !at.Releasing? then Local(Goto(Outside(Releasing)))
        else PlanRun(sh, p, at, c)
      case Steps(job, at) =>
        if p.Handler? then None
        else if c.Threw? then Local(Goto(Outside(SaveFailure(job, c.thrown))))
        else if IsHandoffPc(at) then PlanHandoff(sh, secrets, p, job, at, c)
        else PlanSteps(cfg, sh, p, job, at, c)
      case Undo(job, at) =>
        if p.Handler? then None
        else if c.Threw? then Local(Goto(Outside(SaveFailure(job, c.thrown))))
        else PlanUndo(sh, p, job, at, c)
  }

  predicate ListsShard(listed: seq<Resource>, sh: Shard, sub: string) {
    && (forall r :: r in listed ==> r.resourceKey in sh.resources && sh.resources[r.resourceKey] == r)
    && (forall k :: k in sh.resources && sh.resources[k].subscriptionId == sub ==> sh.resources[k] in listed)
  }

  // ---------------------------------------------------------------------------
  // The world
  // ---------------------------------------------------------------------------

  /** Provider effects in the order in which they happened, with the lease token and the
      job version on whose behalf they were made. */
  datatype Effect =
    | Executed(generation: nat, step: Step, token: nat, version: nat)
    | Undone(generation: nat, step: Step, token: nat, version: nat)

  /** The shared records, the secrets that exist and the running processes; and, as
      bookkeeping that no process reads, all job versions, all committed events and all
      provider effects. */
  datatype World = World(
    shard: Shard,
    secrets: set<Publication>,
    procs: map<nat, Process>,
    history: seq<Job>,
    committed: seq<Event>,
    log: seq<Effect>)

  const EMPTY_WORLD := World(EMPTY_SHARD, {}, map[], [], [], [])

  datatype Action =
    | Deliver(pid: nat, event: Event, policy: RetryPolicy)
    | StartRun(pid: nat, ownerId: string, at: int, durationMs: int,
               mode: DeploymentMode, hasHandoff: bool, now: int)
    | Continue(pid: nat, choice: Choice)
    | Crash(pid: nat)

  function TokenOfProcess(p: Process): nat {
    if p.Worker? then p.lease.fencingToken else 0
  }

  function ApplyOp(w: World, token: nat, op: SharedOp): World {
    match op
    case Nothing => w
    case SetOrder(order, event) => w.(shard := w.shard.(order := Some(order)), committed := w.committed + [event])
    case SetJob(job) => w.(shard := w.shard.(job := Some(job)), history := w.history + [job])
    case SetLease(lease) => w.(shard := w.shard.(lease := lease))
    case SetPointer(pointer) => w.(shard := w.shard.(handoffs := w.shard.handoffs[pointer.handoffId := pointer]))
    case SetResource(r) => w.(shard := w.shard.(resources := w.shard.resources[r.resourceKey := r]))
    case Execute(job, step) =>
      w.(log := w.log + [Executed(job.activationGeneration, step, token, job.version)])
    case Compensate(job, step) =>
      w.(log := w.log + [Undone(job.activationGeneration, step, token, job.version)])
    case CreateSecret(secret) => w.(secrets := w.secrets + {secret})
  }

  function At(p: Process, pc: Pc): Process {
    match p
    case Handler(event, policy, _) => Handler(event, policy, pc)
    case Worker(lease, mode, hasHandoff, now, conflicts, _) => Worker(lease, mode, hasHandoff, now, conflicts, pc)
  }

  /** The process after its move; None when it is finished. */
  function Advance(p: Process, next: Next): Option<Process> {
    match next
    case Finish => None
    case Goto(pc) => Some(At(p, pc))
    case Recover =>
      match p
      case Handler(_, _, _) => None
      case Worker(lease, mode, hasHandoff, now, conflicts, _) =>
        Some(if conflicts == 0 then Worker(lease, mode, hasHandoff, now, 0, Outside(Releasing))
             else Worker(lease, mode, hasHandoff, now, conflicts - 1, Outside(RunOwned)))
  }

  function WithProcess(procs: map<nat, Process>, pid: nat, p: Option<Process>): map<nat, Process> {
    if p.Some? then procs[pid := p.value] else procs - {pid}
  }

  /** One step; None when the action is not possible in this world. */
  function Perform(cfg: Config, w: World, a: Action): Option<World> {
    match a
    case Deliver(pid, event, policy) =>
      if pid in w.procs || !Deliverable(event, cfg.sub) then None
      else Some(w.(procs := w.procs[pid := Handler(event, policy, Handling(GetOrder(0)))]))
    case StartRun(pid, ownerId, at, durationMs, mode, hasHandoff, now) =>
      var r := DecideAcquire(w.shard.lease, cfg.sub, ownerId, at, durationMs);
      if pid in w.procs || r.Err? || r.value.None? then None
      else
        Some(w.(shard := w.shard.(lease := r.value),
                procs := w.procs[pid := Worker(r.value.value, mode, hasHandoff, now, 2, Outside(RunOwned))]))
    case Continue(pid, choice) =>
      if pid !in w.procs then None
      else
        var p := w.procs[pid];
        var m := Plan(cfg, w.shard, w.secrets, p, choice);
        if m.None? then None
        else
          var after := ApplyOp(w, TokenOfProcess(p), m.value.op);
          Some(after.(procs := WithProcess(w.procs, pid, Advance(p, m.value.next))))
    case Crash(pid) =>
      if pid !in w.procs then None else Some(w.(procs := w.procs - {pid}))
  }

  /** The world after a run of actions; None when one of them was impossible. */
  function Run(cfg: Config, actions: seq<Action>): Option<World> {
    if actions == [] then Some(EMPTY_WORLD)
    else
      var before := Run(cfg, actions[..|actions| - 1]);
      if before.None? then None else Perform(cfg, before.value, actions[|actions| - 1])
  }

  ghost predicate Reachable(cfg: Config, w: World) {
    exists actions :: Run(cfg, actions) == Some(w)
  }
}
