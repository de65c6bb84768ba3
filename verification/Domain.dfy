/** Record types, constants and predicates of the provisioning control plane
    (infra/provisioning/src/domain.ts).

    Deterministic ids are digests in the program. Here they are constructor terms,
    so two ids are equal exactly when the data they were derived from is equal. */
module Domain {

  datatype Option<+T> = None | Some(value: T)

  /** `a ?? b` of the source: the first of two optional values that is defined. */
  function OrElse<T>(a: Option<T>, b: Option<T>): Option<T> {
    if a.Some? then a else b
  }

  function Lookup<K, V>(m: map<K, V>, k: K): Option<V> {
    if k in m then Some(m[k]) else None
  }

  datatype Result<+T> = Ok(value: T) | Err(failure: SafeFailure)

  datatype SafeErrorCode =
    | InvalidEvent
    | InvalidOrder
    | InvalidState
    | InvalidStepOrder
    | ModeMismatch
    | StoreConflict
    | ProviderFailure
    | ProviderResponseInvalid
    | CredentialHandoffRequired
    | CredentialReissueRequired
    | UnexpectedFailure

  datatype SafeFailure = SafeFailure(code: SafeErrorCode, retryable: bool)

  function Fatal<T>(code: SafeErrorCode): Result<T> {
    Err(SafeFailure(code, false))
  }

  function Transient<T>(code: SafeErrorCode): Result<T> {
    Err(SafeFailure(code, true))
  }

  const MAX_SAFE_INTEGER := 0x1F_FFFF_FFFF_FFFF

  predicate IsSafeInteger(n: int) {
    -MAX_SAFE_INTEGER <= n <= MAX_SAFE_INTEGER
  }

  datatype DeploymentMode = Shared | Dedicated

  datatype PlanId = Starter | Team | Scale

  datatype BillingState = Pending | Active | PastDue | Canceled | Refunded

  predicate IsTerminalState(s: BillingState) {
    s == Canceled || s == Refunded
  }

  /** The seven provisioning steps, in the order in which they run. */
  datatype Step =
    | ResolveTenant
    | OwnerMembership
    | PlanEntitlement
    | ApiCredential
    | StorageNamespace
    | ActivationMetadata
    | MarkReady

  const STEPS: seq<Step> :=
    [ResolveTenant, OwnerMembership, PlanEntitlement, ApiCredential,
     StorageNamespace, ActivationMetadata, MarkReady]

  /** `PROVISIONING_STEPS.indexOf(step)`. */
  function StepIndex(s: Step): (i: nat)
    ensures i < |STEPS| && STEPS[i] == s
    ensures forall k :: 0 <= k < |STEPS| && STEPS[k] == s ==> k == i
  {
    match s
    case ResolveTenant => 0
    case OwnerMembership => 1
    case PlanEntitlement => 2
    case ApiCredential => 3
    case StorageNamespace => 4
    case ActivationMetadata => 5
    case MarkReady => 6
  }

  /** Event ids are ordered by `localeCompare`, taken to be a total order. An id is
      modelled by its rank in that order; rank 0 is the empty string. */
  type EventId = nat

  datatype EventCursor = EventCursor(createdAt: int, precedence: int, eventId: EventId)

  datatype Order = Order(
    version: nat,
    subscriptionId: string,
    customerId: Option<string>,
    ownerSubject: Option<string>,
    mode: Option<DeploymentMode>,
    plan: Option<PlanId>,
    billingState: BillingState,
    latestEventCreatedAt: int,
    latestEventId: EventId,
    stateCursor: EventCursor)

  predicate HasProvisioningIdentity(o: Order) {
    && o.customerId.Some? && o.customerId.value != ""
    && o.ownerSubject.Some? && o.ownerSubject.value != ""
    && o.mode.Some? && o.plan.Some?
  }

  predicate IsProvisionableOrder(o: Order) {
    && o.billingState == Active
    && HasProvisioningIdentity(o)
    && (o.mode == Some(Shared) || o.plan == Some(Scale))
  }

  datatype RetryPolicy = RetryPolicy(maxAttempts: int, baseDelayMs: int, maxDelayMs: int)

  const DEFAULT_RETRY_POLICY := RetryPolicy(5, 1_000, 60_000)

  predicate IsRetryPolicy(p: RetryPolicy) {
    && IsSafeInteger(p.maxAttempts) && 1 <= p.maxAttempts
    && IsSafeInteger(p.baseDelayMs) && 0 <= p.baseDelayMs
    && IsSafeInteger(p.maxDelayMs) && p.baseDelayMs <= p.maxDelayMs
  }

  datatype JobId = JobId(subscriptionId: string)

  datatype TenantId = TenantId(subscriptionId: string, mode: DeploymentMode)

  datatype HandoffId = HandoffId(subscriptionId: string, activationGeneration: nat)

  /** A provider's identifier, or the handoff that a receipt stands for. */
  datatype OpaqueId = ProviderId(text: string) | ReceiptOf(handoffId: HandoffId)

  datatype ResourceKey = ResourceKey(subscriptionId: string, step: Step, kind: string, opaqueId: OpaqueId)

  datatype JobState = Queued | Running | Ready | Failed | Compensating | Disabled

  datatype Operation = Provisioning | Suspension | Compensation

  /** An absent `activationGeneration` is read as 0 everywhere, and is 0 here. */
  datatype Job = Job(
    version: nat,
    jobId: JobId,
    subscriptionId: string,
    tenantId: TenantId,
    activationGeneration: nat,
    state: JobState,
    operation: Operation,
    completedSteps: seq<Step>,
    compensatedSteps: seq<Step>,
    attempt: nat,
    retryPolicy: RetryPolicy,
    retryExhausted: bool,
    nextRetryAt: Option<int>,
    lastErrorCode: Option<SafeErrorCode>)

  datatype Lease = Lease(subscriptionId: string, ownerId: string, fencingToken: nat, expiresAt: int)

  /** What names one immutable secret: the descriptor is a function of the handoff,
      the publication generation, the fencing token and the credential. */
  datatype Publication = Publication(
    handoffId: HandoffId, publicationGeneration: nat, fencingToken: nat, credentialId: string)

  datatype PointerState = PendingPublication | Published | Revoked

  /** `secretId`, `publicationId` and `credentialId` are always set together, so they
      are one optional descriptor. */
  datatype Pointer = Pointer(
    handoffId: HandoffId,
    subscriptionId: string,
    jobId: JobId,
    activationGeneration: nat,
    publicationGeneration: nat,
    fencingToken: nat,
    state: PointerState,
    publication: Option<Publication>)

  datatype Retention = Mutable | ImmutableEvidence

  datatype ResourceStatus = ActiveResource | RevokedResource | DisabledResource | Quarantined | Retained

  datatype Resource = Resource(
    resourceKey: ResourceKey,
    subscriptionId: string,
    step: Step,
    kind: string,
    opaqueId: OpaqueId,
    retention: Retention,
    status: ResourceStatus)

  function KeyOf(r: Resource): ResourceKey {
    ResourceKey(r.subscriptionId, r.step, r.kind, r.opaqueId)
  }
}
