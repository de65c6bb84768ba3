/** The job transitions (infra/provisioning/src/state-machine.ts), the invariant they keep,
    how a job evolves over a whole history of writes, and why an activation ends. */
module Jobs {
  import opened Domain

  function CreateProvisioningJob(order: Order, policy: RetryPolicy): Result<Job> {
    if !IsRetryPolicy(policy) then Fatal(InvalidState)
    else if !IsProvisionableOrder(order) then Fatal(InvalidOrder)
    else Ok(Job(
      0, JobId(order.subscriptionId), order.subscriptionId,
      TenantId(order.subscriptionId, order.mode.value), 0, Queued, Provisioning,
      [], [], 0, policy, false, None, None))
  }

  function StartProvisioningAttempt(job: Job, now: int): Result<Job> {
    if now < 0 then Fatal(InvalidState)
    else if job.state == Running then Ok(job)
    else if job.state == Compensating && job.attempt > 0 then Ok(job)
    else if job.state == Ready || job.state == Disabled then Fatal(InvalidState)
    else if job.state == Failed
            && (job.retryExhausted || job.nextRetryAt.None? || now < job.nextRetryAt.value)
    then Fatal(InvalidState)
    else Ok(job.(
      state := if job.operation == Provisioning then Running else Compensating,
      attempt := job.attempt + 1,
      retryExhausted := false,
      nextRetryAt := None,
      lastErrorCode := None))
  }

  function NextProvisioningStep(job: Job): Option<Step> {
    if |job.completedSteps| < |STEPS| then Some(STEPS[|job.completedSteps|]) else None
  }

  function CompleteProvisioningStep(job: Job, step: Step): Result<Job> {
    if step in job.completedSteps then Ok(job)
    else if job.state != Running || job.operation != Provisioning || NextProvisioningStep(job) != Some(step)
    then Fatal(InvalidStepOrder)
    else
      var completed := job.completedSteps + [step];
      Ok(job.(completedSteps := completed, state := if |completed| == |STEPS| then Ready else Running))
  }

  function Pow2(n: nat): nat {
    if n == 0 then 1 else 2 * Pow2(n - 1)
  }

  function Min(a: int, b: int): int { if a <= b then a else b }

  function Max(a: int, b: int): int { if a >= b then a else b }

  function RetryDelayMs(job: Job): int {
    var exponent := Max(0, Min(job.attempt - 1, 30));
    Min(job.retryPolicy.maxDelayMs, job.retryPolicy.baseDelayMs * Pow2(exponent))
  }

  function FailProvisioningAttempt(job: Job, failure: SafeFailure, now: int): Result<Job> {
    if now < 0 || (job.state != Running && job.state != Compensating) || job.attempt < 1
    then Fatal(InvalidState)
    else
      var canRetry := failure.retryable && job.attempt < job.retryPolicy.maxAttempts;
      Ok(job.(
        state := Failed,
        lastErrorCode := Some(failure.code),
        retryExhausted := !canRetry,
        nextRetryAt := if canRetry then Some(now + RetryDelayMs(job)) else None))
  }

  /** The furthest index among some steps, -1 when there is none. */
  function FurthestIndex(steps: seq<Step>): (f: int)
    ensures -1 <= f < |STEPS|
    ensures forall s :: s in steps ==> StepIndex(s) <= f
    ensures f >= 0 ==> exists s :: s in steps && StepIndex(s) == f
  {
    if steps == [] then -1
    else
      var rest := FurthestIndex(steps[..|steps| - 1]);
      var last := steps[|steps| - 1];
      assert forall s :: s in steps <==> s in steps[..|steps| - 1] || s == last;
      Max(rest, StepIndex(last))
  }

  predicate NoDuplicates(s: seq<Step>) {
    forall i, j :: 0 <= i < j < |s| ==> s[i] != s[j]
  }

  predicate AllIn(xs: seq<Step>, ys: seq<Step>) {
    forall s :: s in xs ==> s in ys
  }

  /** Completed steps once the furthest observed effect is counted in. */
  function ObservedPrefix(job: Job, observed: seq<Step>): seq<Step> {
    STEPS[..FurthestIndex(job.completedSteps + observed) + 1]
  }

  function BeginCompensation(job: Job, observed: seq<Step>, operation: Operation): Job {
    var completed := ObservedPrefix(job, observed);
    if job.operation == operation then
      if AllIn(completed, job.completedSteps) then job
      else job.(
        completedSteps := completed,
        state := if AllIn(completed, job.compensatedSteps) then Disabled else Compensating,
        attempt := 0, retryExhausted := false, nextRetryAt := None, lastErrorCode := None)
    else if completed == [] then
      job.(
        state := Disabled, operation := operation,
        attempt := 0, retryExhausted := false, nextRetryAt := None, lastErrorCode := None)
    else
      job.(
        state := Compensating, operation := operation,
        completedSteps := completed, compensatedSteps := [],
        attempt := 0, retryExhausted := false, nextRetryAt := None, lastErrorCode := None)
  }

  /** The last element of `steps` that is not in `done`. */
  function LastOutside(steps: seq<Step>, done: seq<Step>): (r: Option<Step>) {
    if steps == [] then None
    else if steps[|steps| - 1] !in done then Some(steps[|steps| - 1])
    else LastOutside(steps[..|steps| - 1], done)
  }

  function NextCompensationStep(job: Job): Option<Step> {
    LastOutside(job.completedSteps, job.compensatedSteps)
  }

  function CompleteCompensationStep(job: Job, step: Step): Result<Job> {
    if step in job.compensatedSteps then Ok(job)
    else if job.state != Compensating || job.operation == Provisioning || NextCompensationStep(job) != Some(step)
    then Fatal(InvalidStepOrder)
    else
      var compensated := job.compensatedSteps + [step];
      Ok(job.(
        compensatedSteps := compensated,
        state := if AllIn(job.completedSteps, compensated) then Disabled else Compensating))
  }

  function ResumeProvisioningJob(job: Job): Result<Job> {
    if job.operation != Suspension then Fatal(InvalidState)
    else Ok(job.(
      activationGeneration := job.activationGeneration + 1,
      state := Queued, operation := Provisioning,
      completedSteps := [], compensatedSteps := [],
      attempt := 0, retryExhausted := false, nextRetryAt := None, lastErrorCode := None))
  }

  // ---------------------------------------------------------------------------
  // The invariant of a stored job
  // ---------------------------------------------------------------------------

  /** Completed steps are a prefix, compensated ones a duplicate-free part of them;
      state, operation, attempts and the retry time agree. */
  predicate JobOk(j: Job) {
    && IsRetryPolicy(j.retryPolicy)
    && j.jobId == JobId(j.subscriptionId)
    && j.completedSteps <= STEPS
    && NoDuplicates(j.compensatedSteps) && AllIn(j.compensatedSteps, j.completedSteps)
    && j.attempt <= j.retryPolicy.maxAttempts
    && (j.nextRetryAt.Some? <==> j.state == Failed && !j.retryExhausted)
    && (j.retryExhausted ==> j.state == Failed)
    && (j.nextRetryAt.Some? ==> 1 <= j.attempt < j.retryPolicy.maxAttempts)
    && (if j.operation == Provisioning then
          && (j.state == Queued || j.state == Running || j.state == Ready || j.state == Failed)
          && j.compensatedSteps == []
          && (j.state == Queued ==> j.completedSteps == [] && j.attempt == 0)
          && (j.state == Ready <==> |j.completedSteps| == |STEPS|)
          && (j.state == Running ==> j.attempt >= 1)
        else
          && (j.state == Compensating || j.state == Disabled || j.state == Failed)
          && (j.state == Disabled <==> AllIn(j.completedSteps, j.compensatedSteps)))
  }

  lemma CreatedJobOk(order: Order, policy: RetryPolicy)
    requires CreateProvisioningJob(order, policy).Ok?
    ensures JobOk(CreateProvisioningJob(order, policy).value)
  {
  }

  /** What `transitionToCompensation` writes for a job it read: the observed resources,
      and the step that may be in flight, count as completed. */
  function TransitionTarget(job: Job, resourceSteps: seq<Step>, operation: Operation): Job {
    BeginCompensation(job, resourceSteps + InFlightSteps(job), operation)
  }

  predicate InFlight(j: Job) {
    j.operation == Provisioning && (j.state == Running || j.state == Failed)
  }

  function InFlightSteps(job: Job): seq<Step> {
    if InFlight(job) && NextProvisioningStep(job).Some? then [NextProvisioningStep(job).value] else []
  }

  /** Every way in which the orchestrator produces the next version of a stored job. */
  datatype JobEvent =
    | Started(now: int)
    | StepDone(step: Step)
    | AttemptFailed(failure: SafeFailure, at: int)
    | CompensationBegun(resourceSteps: seq<Step>, operation: Operation)
    | StepCompensated(compensated: Step)
    | Resumed

  function Apply(job: Job, ev: JobEvent): Result<Job> {
    match ev
    case Started(now) => StartProvisioningAttempt(job, now)
    case StepDone(step) => CompleteProvisioningStep(job, step)
    case AttemptFailed(failure, at) => FailProvisioningAttempt(job, failure, at)
    case CompensationBegun(steps, op) =>
      if op == Provisioning then Fatal(InvalidState) else Ok(TransitionTarget(job, steps, op))
    case StepCompensated(step) => CompleteCompensationStep(job, step)
    case Resumed => ResumeProvisioningJob(job)
  }

  lemma PrefixElements(k: nat, l: nat)
    requires k <= |STEPS| && l <= |STEPS|
    ensures forall s :: s in STEPS[..k] <==> StepIndex(s) < k
    ensures AllIn(STEPS[..k], STEPS[..l]) <==> k <= l
    ensures NoDuplicates(STEPS[..k])
  {
    forall s ensures s in STEPS[..k] <==> StepIndex(s) < k {
      if StepIndex(s) < k { assert STEPS[..k][StepIndex(s)] == s; }
    }
    if k > l { assert STEPS[..k][l] in STEPS[..k]; assert StepIndex(STEPS[l]) == l; }
    forall s ensures s in STEPS[..l] <==> StepIndex(s) < l {
      if StepIndex(s) < l { assert STEPS[..l][StepIndex(s)] == s; }
    }
  }

  lemma PrefixIsTake(c: seq<Step>)
    requires c <= STEPS
    ensures c == STEPS[..|c|]
    ensures |c| > 0 ==> c[|c| - 1] in c && StepIndex(c[|c| - 1]) == |c| - 1
  {
  }

  lemma ObservedPrefixLength(job: Job, observed: seq<Step>)
    requires job.completedSteps <= STEPS
    ensures var f := FurthestIndex(job.completedSteps + observed) + 1;
            && |job.completedSteps| <= f <= |STEPS|
            && (forall s :: s in observed ==> StepIndex(s) < f)
            && (f > |job.completedSteps| ==> STEPS[f - 1] in observed)
  {
    var all := job.completedSteps + observed;
    forall s | s in observed ensures s in all {}
    PrefixIsTake(job.completedSteps);
    if |job.completedSteps| > 0 {
      assert job.completedSteps[|job.completedSteps| - 1] in all;
    }
    var f := FurthestIndex(all) + 1;
    if f > |job.completedSteps| {
      var s :| s in all && StepIndex(s) == f - 1;
      PrefixElements(|job.completedSteps|, 0);
      assert s !in job.completedSteps;
    }
  }

  /** Nothing completed or observed is outside the computed prefix, and it is longer
      than the completed steps only if something observed lies beyond them. */
  lemma ObservedPrefixCovers(job: Job, observed: seq<Step>)
    requires job.completedSteps <= STEPS
    ensures var p := ObservedPrefix(job, observed);
            && p <= STEPS && job.completedSteps <= p
            && AllIn(observed, p)
            && (AllIn(p, job.completedSteps) <==> p == job.completedSteps)
            && (p != job.completedSteps ==>
                  |p| > |job.completedSteps| && p[|p| - 1] in observed && p[|p| - 1] !in job.completedSteps)
  {
    ObservedPrefixLength(job, observed);
    hide FurthestIndex;
    var k, f := |job.completedSteps|, FurthestIndex(job.completedSteps + observed) + 1;
    PrefixIsTake(job.completedSteps);
    PrefixElements(k, f);
    PrefixElements(f, k);
    if f > k { assert STEPS[..f][f - 1] == STEPS[f - 1]; }
  }

  /** The same-operation branch of `beginCompensation` never disables a valid job: a
      newly discovered effect cannot already be compensated. */
  lemma SameOperationNeverDisables(job: Job, observed: seq<Step>)
    requires JobOk(job)
    ensures var next := BeginCompensation(job, observed, job.operation);
            next != job ==> next.state == Compensating && |next.completedSteps| > |job.completedSteps|
  {
    ObservedPrefixCovers(job, observed);
    var p := ObservedPrefix(job, observed);
    if p != job.completedSteps {
      assert p[|p| - 1] in p && p[|p| - 1] !in job.compensatedSteps;
    }
  }

  predicate LastOutsideAt(steps: seq<Step>, done: seq<Step>, i: int) {
    0 <= i < |steps| && steps[i] !in done && forall k :: i < k < |steps| ==> steps[k] in done
  }

  lemma {:induction false} LastOutsideIs(steps: seq<Step>, done: seq<Step>)
    ensures LastOutside(steps, done).None? ==> forall k :: 0 <= k < |steps| ==> steps[k] in done
    ensures LastOutside(steps, done).Some? ==>
              exists i :: LastOutsideAt(steps, done, i) && steps[i] == LastOutside(steps, done).value
  {
    if steps != [] {
      var n := |steps| - 1;
      if steps[n] !in done {
        assert LastOutsideAt(steps, done, n);
      } else {
        LastOutsideIs(steps[..n], done);
        if LastOutside(steps[..n], done).Some? {
          var i :| LastOutsideAt(steps[..n], done, i) && steps[i] == LastOutside(steps, done).value;
          assert LastOutsideAt(steps, done, i);
        }
      }
    }
  }

  /** Compensation takes the completed step with the largest index first. */
  lemma CompensationTakesLargest(job: Job)
    requires job.completedSteps <= STEPS
    ensures NextCompensationStep(job).None? <==> AllIn(job.completedSteps, job.compensatedSteps)
    ensures NextCompensationStep(job).Some? ==>
              var s := NextCompensationStep(job).value;
              && s in job.completedSteps && s !in job.compensatedSteps
              && forall t :: t in job.completedSteps && t !in job.compensatedSteps ==> StepIndex(t) <= StepIndex(s)
  {
    var c, next := job.completedSteps, NextCompensationStep(job);
    LastOutsideIs(c, job.compensatedSteps);
    hide LastOutside;
    if next.Some? {
      var i :| LastOutsideAt(c, job.compensatedSteps, i) && c[i] == next.value;
      forall t | t in c && t !in job.compensatedSteps ensures StepIndex(t) <= StepIndex(next.value) {
        var k :| 0 <= k < |c| && c[k] == t;
        assert c[k] == STEPS[k] && c[i] == STEPS[i];
      }
    }
  }

  lemma SubsetLength(xs: seq<Step>, ys: seq<Step>)
    requires NoDuplicates(xs) && AllIn(xs, ys)
    ensures |xs| <= |ys|
  {
    if xs != [] {
      var last := xs[|xs| - 1];
      assert last in xs;
      var i :| 0 <= i < |ys| && ys[i] == last;
      var fewer := ys[..i] + ys[i + 1..];
      forall s | s in xs[..|xs| - 1] ensures s in fewer {
        assert s in xs && s != last;
        var k :| 0 <= k < |ys| && ys[k] == s;
        assert k != i;
        assert s == if k < i then fewer[k] else fewer[k - 1];
      }
      SubsetLength(xs[..|xs| - 1], fewer);
    }
  }

  lemma ExtendKeepsJobOk(job: Job, next: Job)
    requires JobOk(job) && job.operation != Provisioning
    requires next.completedSteps <= STEPS && job.completedSteps < next.completedSteps
    requires next == job.(completedSteps := next.completedSteps, state := Compensating,
                          attempt := 0, retryExhausted := false, nextRetryAt := None, lastErrorCode := None)
    ensures JobOk(next)
  {
    var last := next.completedSteps[|next.completedSteps| - 1];
    PrefixElements(|job.completedSteps|, |next.completedSteps|);
    PrefixIsTake(job.completedSteps);
    PrefixIsTake(next.completedSteps);
    assert last in next.completedSteps && last !in job.completedSteps;
  }

  lemma SwitchKeepsJobOk(job: Job, next: Job)
    requires JobOk(job) && next.operation != Provisioning && next.completedSteps <= STEPS
    requires next.completedSteps == [] ==> job.completedSteps == []
    requires next == job.(operation := next.operation, completedSteps := next.completedSteps,
                          state := if next.completedSteps == [] then Disabled else Compensating,
                          compensatedSteps := if next.completedSteps == [] then job.compensatedSteps else [],
                          attempt := 0, retryExhausted := false, nextRetryAt := None, lastErrorCode := None)
    ensures JobOk(next)
  {
    if next.completedSteps != [] {
      assert next.completedSteps[0] in next.completedSteps;
    }
  }

  lemma BeginKeepsJobOk(job: Job, observed: seq<Step>, op: Operation)
    requires JobOk(job) && op != Provisioning
    ensures JobOk(BeginCompensation(job, observed, op))
  {
    ObservedPrefixCovers(job, observed);
    var next := BeginCompensation(job, observed, op);
    hide ObservedPrefix;
    if job.operation == op {
      SameOperationNeverDisables(job, observed);
      hide JobOk;
      if next != job { ExtendKeepsJobOk(job, next); }
    } else {
      hide JobOk;
      SwitchKeepsJobOk(job, next);
    }
  }

  lemma StepDoneKeepsJobOk(job: Job, step: Step)
    requires JobOk(job) && CompleteProvisioningStep(job, step).Ok?
    ensures JobOk(CompleteProvisioningStep(job, step).value)
  {
    PrefixIsTake(job.completedSteps);
    var k := |job.completedSteps|;
    if k < |STEPS| {
      assert STEPS[..k + 1] == STEPS[..k] + [STEPS[k]];
    }
  }

  lemma StepCompensatedKeepsJobOk(job: Job, step: Step)
    requires JobOk(job) && CompleteCompensationStep(job, step).Ok?
    ensures JobOk(CompleteCompensationStep(job, step).value)
  {
    CompensationTakesLargest(job);
    hide LastOutside;
  }

  /** Every write of the orchestrator keeps the job invariant. */
  lemma ApplyKeepsJobOk(job: Job, ev: JobEvent)
    requires JobOk(job) && Apply(job, ev).Ok?
    ensures JobOk(Apply(job, ev).value)
  {
    match ev
    case CompensationBegun(steps, op) => BeginKeepsJobOk(job, steps + InFlightSteps(job), op);
    case StepDone(step) => StepDoneKeepsJobOk(job, step);
    case StepCompensated(step) => StepCompensatedKeepsJobOk(job, step);
    case Started(now) => hide CompleteCompensationStep, BeginCompensation, CompleteProvisioningStep;
    case AttemptFailed(failure, at) => hide CompleteCompensationStep, BeginCompensation, CompleteProvisioningStep;
    case Resumed => hide CompleteCompensationStep, BeginCompensation, CompleteProvisioningStep;
  }

  // ---------------------------------------------------------------------------
  // Histories
  // ---------------------------------------------------------------------------

  /** `b` was stored over `a` by one of the job transitions. */
  ghost predicate JobWrite(a: Job, b: Job) {
    exists ev :: Apply(a, ev).Ok? && Apply(a, ev).value != a && b == Apply(a, ev).value.(version := a.version + 1)
  }

  ghost predicate IsNewJob(j: Job) {
    exists order, policy :: CreateProvisioningJob(order, policy) == Ok(j)
  }

  /** The successive values of one stored job; a job's version is its index. */
  ghost predicate JobHistory(h: seq<Job>) {
    && (h != [] ==> IsNewJob(h[0]))
    && (forall i :: 0 <= i < |h| ==> h[i].version == i)
    && (forall i :: 0 < i < |h| ==> JobWrite(h[i - 1], h[i]))
  }

  /** How a later version relates to an earlier one. Within one activation the operation
      never returns to provisioning, completed steps only grow, a job that was started
      stays in flight until its step completes, and beginning compensation counts the
      in-flight step as completed. */
  predicate Evolves(a: Job, b: Job) {
    && a.version <= b.version
    && a.subscriptionId == b.subscriptionId
    && a.activationGeneration <= b.activationGeneration
    && a.retryPolicy == b.retryPolicy
    && (a.activationGeneration == b.activationGeneration ==>
          && a.completedSteps <= b.completedSteps
          && (a.operation != Provisioning ==> b.operation != Provisioning)
          && (InFlight(a) && b.operation == Provisioning && |a.completedSteps| == |b.completedSteps| ==> InFlight(b))
          && (InFlight(a) && b.operation != Provisioning ==> |b.completedSteps| > |a.completedSteps|))
  }

  lemma EvolvesTransitive(a: Job, b: Job, c: Job)
    requires Evolves(a, b) && Evolves(b, c)
    ensures Evolves(a, c)
  {
  }

  lemma InFlightIsNew(a: Job)
    requires JobOk(a) && InFlight(a)
    ensures |InFlightSteps(a)| == 1 && InFlightSteps(a)[0] !in a.completedSteps
  {
    PrefixIsTake(a.completedSteps);
    PrefixElements(|a.completedSteps|, 0);
    assert StepIndex(STEPS[|a.completedSteps|]) == |a.completedSteps|;
  }

  lemma BeginEvolves(a: Job, resourceSteps: seq<Step>, op: Operation)
    requires JobOk(a) && op != Provisioning
    ensures Evolves(a, TransitionTarget(a, resourceSteps, op).(version := a.version + 1))
  {
    var observed := resourceSteps + InFlightSteps(a);
    ObservedPrefixCovers(a, observed);
    hide ObservedPrefix;
    if InFlight(a) {
      InFlightIsNew(a);
      assert InFlightSteps(a)[0] in observed;
    }
  }

  lemma ApplyEvolves(a: Job, ev: JobEvent)
    requires JobOk(a) && Apply(a, ev).Ok?
    ensures Evolves(a, Apply(a, ev).value.(version := a.version + 1))
  {
    match ev
    case CompensationBegun(steps, op) => BeginEvolves(a, steps, op);
    case StepCompensated(step) =>
    case StepDone(step) =>
    case Started(now) =>
    case AttemptFailed(failure, at) =>
    case Resumed =>
  }

  lemma WriteEvolves(a: Job, b: Job)
    requires JobOk(a) && JobWrite(a, b)
    ensures JobOk(b) && Evolves(a, b)
  {
    var ev :| Apply(a, ev).Ok? && Apply(a, ev).value != a && b == Apply(a, ev).value.(version := a.version + 1);
    ApplyKeepsJobOk(a, ev);
    VersionIsFree(Apply(a, ev).value, a.version + 1);
    ApplyEvolves(a, ev);
  }

  lemma VersionIsFree(j: Job, v: nat)
    requires JobOk(j)
    ensures JobOk(j.(version := v))
  {
  }

  /** Every stored job along every history is valid, and versions evolve. */
  lemma {:induction false} HistoryEvolves(h: seq<Job>, i: nat, j: nat)
    requires JobHistory(h) && i <= j < |h|
    ensures JobOk(h[i]) && JobOk(h[j]) && Evolves(h[i], h[j])
    decreases j
  {
    hide JobOk, JobWrite;
    if j == 0 {
      var order, policy :| CreateProvisioningJob(order, policy) == Ok(h[0]);
      CreatedJobOk(order, policy);
    } else if i == j {
      HistoryEvolves(h, i - 1, i - 1);
      WriteEvolves(h[i - 1], h[i]);
    } else {
      HistoryEvolves(h, i, j - 1);
      WriteEvolves(h[j - 1], h[j]);
      EvolvesTransitive(h[i], h[j - 1], h[j]);
    }
  }

  lemma HistoryGrows(h: seq<Job>, next: Job)
    requires JobHistory(h)
    requires if h == [] then IsNewJob(next) else JobWrite(h[|h| - 1], next)
    ensures JobHistory(h + [next])
  {
    var g := h + [next];
    forall i | 0 < i < |g| ensures JobWrite(g[i - 1], g[i]) {
      if i < |h| { assert JobWrite(h[i - 1], h[i]); }
    }
  }

  /** Along every history a new activation begins only with the resumption of a suspended job,
      and then from nothing, as the next one. */
  lemma ActivationsFollowSuspension(h: seq<Job>, k: nat)
    requires JobHistory(h) && 0 < k < |h|
    ensures h[k].activationGeneration != h[k - 1].activationGeneration || (h[k].operation == Provisioning && h[k - 1].operation != Provisioning) ==>
              && h[k - 1].operation == Suspension && h[k].activationGeneration == h[k - 1].activationGeneration + 1
              && h[k].operation == Provisioning && h[k].state == Queued && h[k].attempt == 0
              && h[k].completedSteps == [] && h[k].compensatedSteps == []
  {
    assert JobWrite(h[k - 1], h[k]);
    hide ObservedPrefix, AllIn, LastOutside, RetryDelayMs, NextProvisioningStep, InFlightSteps;
  }

  // ---------------------------------------------------------------------------
  // Termination of one activation
  // ---------------------------------------------------------------------------

  function OperationsLeft(op: Operation): nat {
    match op
    case Provisioning => 2
    case Suspension => 1
    case Compensation => 0
  }

  function StateWeight(s: JobState): nat {
    match s
    case Running => 2
    case Compensating => 2
    case Failed => 1
    case Queued => 0
    case Ready => 0
    case Disabled => 0
  }

  /** A number that every write within one activation makes smaller. */
  function WorkLeft(j: Job): (n: nat)
    requires JobOk(j)
  {
    SubsetLength(j.compensatedSteps, j.completedSteps);
    var attempts := j.retryPolicy.maxAttempts;
    var coarse := OperationsLeft(j.operation) * 8 + (7 - |j.completedSteps|);
    var fine := (|j.completedSteps| - |j.compensatedSteps|) * 3 + StateWeight(j.state);
    (coarse * (attempts + 1) + (attempts - j.attempt)) * 24 + fine
  }

  lemma Lexicographic(coarse: nat, coarse': nat, mid: nat, mid': nat, fine: nat, fine': nat, top: nat)
    requires mid <= top && mid' <= top && fine < 24 && fine' < 24
    requires coarse' < coarse || (coarse' == coarse && (mid' < mid || (mid' == mid && fine' < fine)))
    ensures (coarse' * (top + 1) + mid') * 24 + fine' < (coarse * (top + 1) + mid) * 24 + fine
  {
    if coarse' < coarse {
      assert (coarse' + 1) * (top + 1) <= coarse * (top + 1);
      assert (coarse' + 1) * (top + 1) == coarse' * (top + 1) + top + 1;
    }
  }

  /** Operations move only from provisioning to suspension to compensation. */
  predicate SameActivationForward(a: Job, b: Job) {
    && a.activationGeneration == b.activationGeneration
    && OperationsLeft(b.operation) <= OperationsLeft(a.operation)
  }

  predicate LessWork(b: Job, a: Job) {
    var ca := OperationsLeft(a.operation) * 8 - |a.completedSteps|;
    var cb := OperationsLeft(b.operation) * 8 - |b.completedSteps|;
    var fa := (|a.completedSteps| - |a.compensatedSteps|) * 3 + StateWeight(a.state);
    var fb := (|b.completedSteps| - |b.compensatedSteps|) * 3 + StateWeight(b.state);
    cb < ca || (cb == ca && (b.attempt > a.attempt || (b.attempt == a.attempt && fb < fa)))
  }

  lemma ApplyLessWork(a: Job, ev: JobEvent)
    requires JobOk(a) && Apply(a, ev).Ok? && Apply(a, ev).value != a
    requires SameActivationForward(a, Apply(a, ev).value)
    ensures LessWork(Apply(a, ev).value, a)
  {
    hide LastOutside;
    if ev.CompensationBegun? {
      var observed := ev.resourceSteps + InFlightSteps(a);
      ObservedPrefixCovers(a, observed);
      hide ObservedPrefix;
      if a.operation == ev.operation {
        SameOperationNeverDisables(a, observed);
      }
    }
  }

  lemma LessWorkIsLess(a: Job, b: Job)
    requires JobOk(a) && JobOk(b) && LessWork(b, a) && a.retryPolicy == b.retryPolicy
    ensures WorkLeft(b) < WorkLeft(a)
  {
    SubsetLength(a.compensatedSteps, a.completedSteps);
    SubsetLength(b.compensatedSteps, b.completedSteps);
    var top := a.retryPolicy.maxAttempts;
    Lexicographic(
      OperationsLeft(a.operation) * 8 + (7 - |a.completedSteps|),
      OperationsLeft(b.operation) * 8 + (7 - |b.completedSteps|),
      top - a.attempt, top - b.attempt,
      (|a.completedSteps| - |a.compensatedSteps|) * 3 + StateWeight(a.state),
      (|b.completedSteps| - |b.compensatedSteps|) * 3 + StateWeight(b.state), top);
  }

  /** Every write within an activation leaves strictly less work. */
  lemma WriteDecreasesWork(a: Job, b: Job)
    requires JobOk(a) && JobWrite(a, b) && SameActivationForward(a, b)
    ensures JobOk(b) && WorkLeft(b) < WorkLeft(a)
  {
    WriteEvolves(a, b);
    var ev :| Apply(a, ev).Ok? && Apply(a, ev).value != a && b == Apply(a, ev).value.(version := a.version + 1);
    ApplyLessWork(a, ev);
    LessWorkIsLess(a, b);
  }

  /** The work that was left at version `k` of a history. */
  function WorkAt(h: seq<Job>, k: nat): nat
    requires k < |h| && JobOk(h[k])
  {
    WorkLeft(h[k])
  }

  lemma HistoryDecreasesWork(h: seq<Job>, k: nat)
    requires JobHistory(h) && 0 < k < |h| && SameActivationForward(h[k - 1], h[k])
    ensures JobOk(h[k - 1]) && JobOk(h[k])
    ensures WorkAt(h, k) < WorkAt(h, k - 1)
  {
    HistoryEvolves(h, k - 1, k - 1);
    WriteDecreasesWork(h[k - 1], h[k]);
  }

  /** However many retries, crashes and takeovers: the writes of one activation are no
      more than the work that was left when it began. */
  lemma {:induction false} WritesPerActivationAreBounded(h: seq<Job>, i: nat, j: nat)
    requires JobHistory(h) && i <= j < |h|
    requires forall k :: i < k <= j ==> SameActivationForward(h[k - 1], h[k])
    ensures JobOk(h[i]) && JobOk(h[j])
    ensures (j - i) + WorkAt(h, j) <= WorkAt(h, i)
    decreases j - i
  {
    hide JobOk, Evolves, JobWrite, WorkLeft;
    if i == j {
      HistoryEvolves(h, i, i);
    } else {
      WritesPerActivationAreBounded(h, i, j - 1);
      assert SameActivationForward(h[j - 1], h[j]);
      HistoryDecreasesWork(h, j);
    }
  }

  // ---------------------------------------------------------------------------
  // Retry delays
  // ---------------------------------------------------------------------------

  lemma {:induction false} Pow2Grows(a: nat, b: nat)
    requires a <= b
    ensures 1 <= Pow2(a) <= Pow2(b)
    decreases b
  {
    if a < b { Pow2Grows(a, b - 1); } else if a > 0 { Pow2Grows(a - 1, a - 1); }
  }

  /** Delays never shrink from one attempt to the next, start at the base and are capped. */
  lemma RetryDelaysAreBoundedAndGrow(job: Job, first: nat, second: nat)
    requires IsRetryPolicy(job.retryPolicy) && first <= second
    ensures var d1, d2 := RetryDelayMs(job.(attempt := first)), RetryDelayMs(job.(attempt := second));
            job.retryPolicy.baseDelayMs <= d1 <= d2 <= job.retryPolicy.maxDelayMs
  {
    var e1, e2 := Max(0, Min(first - 1, 30)), Max(0, Min(second - 1, 30));
    Pow2Grows(e1, e2);
    Pow2Grows(0, e1);
    ScalingGrows(job.retryPolicy.baseDelayMs, Pow2(e1), Pow2(e2));
  }

  /** The first delay is the base; each further one is twice the one before, up to the cap
      and for thirty attempts. */
  lemma RetryDelaysDouble(job: Job, attempt: nat)
    requires IsRetryPolicy(job.retryPolicy)
    ensures var cap, base := job.retryPolicy.maxDelayMs, job.retryPolicy.baseDelayMs;
            var delay, next := RetryDelayMs(job.(attempt := attempt)), RetryDelayMs(job.(attempt := attempt + 1));
            && (attempt <= 1 ==> delay == base)
            && (1 <= attempt <= 30 ==> next == if 2 * delay <= cap then 2 * delay else cap)
            && (attempt > 30 ==> next == delay)
  {
    var base, cap := job.retryPolicy.baseDelayMs, job.retryPolicy.maxDelayMs;
    if 1 <= attempt <= 30 {
      DelayIs(job, attempt);
      DelayIs(job, attempt + 1);
      Pow2Grows(0, attempt - 1);
      assert Pow2(attempt) == 2 * Pow2(attempt - 1);
      hide Pow2, RetryDelayMs;
      DoubledAndCapped(base, Pow2(attempt - 1), cap);
      if attempt == 1 { assert Min(cap, base * 1) == base; }
    } else if attempt == 0 {
      assert Pow2(0) == 1 && base * 1 == base;
    }
  }

  lemma DelayIs(job: Job, attempt: nat)
    requires 1 <= attempt <= 31
    ensures RetryDelayMs(job.(attempt := attempt)) == Min(job.retryPolicy.maxDelayMs, job.retryPolicy.baseDelayMs * Pow2(attempt - 1))
    ensures attempt == 1 ==> Pow2(attempt - 1) == 1
  {
  }

  lemma DoubledAndCapped(base: nat, p: nat, cap: nat)
    ensures var delay := Min(cap, base * p); Min(cap, base * (2 * p)) == if 2 * delay <= cap then 2 * delay else cap
  {
    assert base * (2 * p) == 2 * (base * p);
  }

  lemma ScalingGrows(base: nat, p: nat, q: nat)
    requires 1 <= p <= q
    ensures base <= base * p <= base * q
  {
    assert base * q == base * p + base * (q - p);
    assert base * p == base + base * (p - 1);
  }

  /** A failed attempt starts again exactly from its retry time on, and only while the
      failure was retryable and attempts are left; nothing that was completed is lost. */
  lemma FailedAttemptRestartsWhenDue(job: Job, failure: SafeFailure, failedAt: int, now: int)
    requires JobOk(job) && FailProvisioningAttempt(job, failure, failedAt).Ok? && now >= 0
    ensures var failed := FailProvisioningAttempt(job, failure, failedAt).value;
            var restarted := StartProvisioningAttempt(failed, now);
            && failed.lastErrorCode == Some(failure.code)
            && (restarted.Ok? <==> && failure.retryable && job.attempt < job.retryPolicy.maxAttempts
                                   && now >= failedAt + RetryDelayMs(job))
            && (restarted.Ok? ==> restarted.value == job.(attempt := job.attempt + 1, lastErrorCode := None))
  {
    hide RetryDelayMs;
  }

  // ---------------------------------------------------------------------------
  // Whole activations
  // ---------------------------------------------------------------------------

  /** The job after its next `n` steps completed. */
  function Provisioned(job: Job, n: nat): Result<Job> {
    if n == 0 then Ok(job)
    else
      var before := Provisioned(job, n - 1);
      if before.Err? || NextProvisioningStep(before.value).None? then Fatal(InvalidStepOrder)
      else CompleteProvisioningStep(before.value, NextProvisioningStep(before.value).value)
  }

  lemma ProvisionOnce(before: Job, k: nat)
    requires k < |STEPS| && before.completedSteps == STEPS[..k]
    requires before.state == Running && before.operation == Provisioning
    ensures NextProvisioningStep(before) == Some(STEPS[k])
    ensures CompleteProvisioningStep(before, STEPS[k])
         == Ok(before.(completedSteps := STEPS[..k + 1], state := if k + 1 == |STEPS| then Ready else Running))
  {
    PrefixElements(k, 0);
    assert StepIndex(STEPS[k]) == k;
    assert STEPS[..k + 1] == STEPS[..k] + [STEPS[k]];
  }

  lemma {:induction false} ProvisionedIs(job: Job, n: nat)
    requires |job.completedSteps| < |STEPS| && job.completedSteps == STEPS[..|job.completedSteps|]
    requires job.operation == Provisioning && job.state == Running && |job.completedSteps| + n <= |STEPS|
    ensures Provisioned(job, n)
         == Ok(job.(completedSteps := STEPS[..|job.completedSteps| + n],
                    state := if |job.completedSteps| + n == |STEPS| then Ready else Running))
  {
    hide CompleteProvisioningStep, NextProvisioningStep;
    if n > 0 {
      ProvisionedIs(job, n - 1);
      ProvisionOnce(Provisioned(job, n - 1).value, |job.completedSteps| + n - 1);
    }
  }

  /** A running job becomes ready by completing the remaining steps in their order, and
      not before the last of them. */
  lemma RemainingStepsMakeReady(job: Job, n: nat)
    requires JobOk(job) && job.state == Running && |job.completedSteps| + n <= |STEPS|
    ensures Provisioned(job, n).Ok?
    ensures Provisioned(job, n).value.state == Ready <==> |job.completedSteps| + n == |STEPS|
    ensures |job.completedSteps| + n == |STEPS| ==> Provisioned(job, n).value.completedSteps == STEPS
  {
    PrefixIsTake(job.completedSteps);
    ProvisionedIs(job, n);
  }

  /** The job after its next `n` compensations. */
  function Compensated(job: Job, n: nat): Result<Job> {
    if n == 0 then Ok(job)
    else
      var before := Compensated(job, n - 1);
      if before.Err? || NextCompensationStep(before.value).None? then Fatal(InvalidStepOrder)
      else CompleteCompensationStep(before.value, NextCompensationStep(before.value).value)
  }

  /** The last `n` completed steps, the last one first. */
  function LastReversed(steps: seq<Step>, n: nat): (r: seq<Step>)
    requires n <= |steps|
    ensures |r| == n && forall i :: 0 <= i < n ==> r[i] == steps[|steps| - 1 - i]
  {
    seq(n, i requires 0 <= i < n => steps[|steps| - 1 - i])
  }

  lemma LastReversedHas(steps: seq<Step>, n: nat, k: nat)
    requires steps <= STEPS && n <= |steps| && k < |steps|
    ensures steps[k] in LastReversed(steps, n) <==> k >= |steps| - n
  {
    if k >= |steps| - n { assert LastReversed(steps, n)[|steps| - 1 - k] == steps[k]; }
    PrefixIsTake(steps);
    forall i | 0 <= i < n ensures LastReversed(steps, n)[i] == STEPS[|steps| - 1 - i] {}
  }

  lemma NextAfterReversed(job: Job, n: nat)
    requires job.completedSteps <= STEPS && n < |job.completedSteps|
    requires job.compensatedSteps == LastReversed(job.completedSteps, n)
    ensures NextCompensationStep(job) == Some(job.completedSteps[|job.completedSteps| - 1 - n])
    ensures job.completedSteps[|job.completedSteps| - 1 - n] !in job.compensatedSteps
  {
    var c := job.completedSteps;
    var k := |c| - 1 - n;
    LastReversedHas(c, n, k);
    CompensationTakesLargest(job);
    hide LastOutside, NextCompensationStep;
    assert c[k] in c;
    var s := NextCompensationStep(job).value;
    var j :| 0 <= j < |c| && c[j] == s;
    LastReversedHas(c, n, j);
    assert c[k] == STEPS[k] && c[j] == STEPS[j] && StepIndex(c[k]) == k && StepIndex(c[j]) == j;
  }

  lemma AllReversed(c: seq<Step>, n: nat)
    requires c <= STEPS && n <= |c|
    ensures AllIn(c, LastReversed(c, n)) <==> n == |c|
  {
    if n < |c| {
      LastReversedHas(c, n, 0);
      assert c[0] in c;
    } else {
      forall s | s in c ensures s in LastReversed(c, n) {
        var k :| 0 <= k < |c| && c[k] == s;
        LastReversedHas(c, n, k);
      }
    }
  }

  lemma CompensateOnce(before: Job, n: nat)
    requires before.completedSteps <= STEPS && n < |before.completedSteps|
    requires before.compensatedSteps == LastReversed(before.completedSteps, n)
    requires before.state == Compensating && before.operation != Provisioning
    ensures NextCompensationStep(before).Some?
    ensures CompleteCompensationStep(before, NextCompensationStep(before).value)
         == Ok(before.(compensatedSteps := LastReversed(before.completedSteps, n + 1),
                       state := if n + 1 == |before.completedSteps| then Disabled else Compensating))
  {
    var c := before.completedSteps;
    NextAfterReversed(before, n);
    AllReversed(c, n + 1);
    assert LastReversed(c, n + 1) == LastReversed(c, n) + [c[|c| - 1 - n]];
    hide NextCompensationStep, AllIn, LastReversed;
  }

  /** A compensation that starts from the beginning undoes the completed steps in reverse
      order, and disables the job with the last of them, not before. */
  lemma {:induction false} CompensationUndoesInReverse(job: Job, n: nat)
    requires JobOk(job) && job.operation != Provisioning && job.state == Compensating
    requires job.compensatedSteps == [] && n <= |job.completedSteps|
    ensures Compensated(job, n)
         == Ok(job.(compensatedSteps := LastReversed(job.completedSteps, n),
                    state := if n == |job.completedSteps| then Disabled else Compensating))
  {
    if n > 0 {
      CompensationUndoesInReverse(job, n - 1);
      CompensateOnce(Compensated(job, n - 1).value, n - 1);
      hide NextCompensationStep, CompleteCompensationStep, LastReversed, AllIn;
    }
  }
}
