/** Concrete runs of the protocol, step by step, up to the worlds in which a property that
    one might expect fails. */
module Scenarios {
  import opened Domain
  import opened Billing
  import opened Jobs
  import opened Store
  import opened Protocol

  const CFG := Config("sub", false)

  const POLICY := RetryPolicy(5, 1000, 60000)

  function EventOfKind(id: nat, kind: EventKind): Event {
    Event(id, id, seq(64, _ => '0'), kind, "sub", Some("customer"), Some("owner"), Some(Shared), Some(Team))
  }

  function OrderOf(version: nat, state: BillingState, id: nat): Order {
    Order(version, "sub", Some("customer"), Some("owner"), Some(Shared), Some(Team), state, id, id,
          EventCursor(id, Precedence(state), id))
  }

  function JobOf(version: nat, state: JobState, operation: Operation, completed: seq<Step>, compensated: seq<Step>, attempt: nat): Job {
    Job(version, JobId("sub"), "sub", TenantId("sub", Shared), 0, state, operation, completed, compensated, attempt,
        POLICY, false, None, None)
  }

  /** A reachable world with these records and processes. */
  ghost predicate Stands(w: World, sh: Shard, procs: map<nat, Process>) {
    Reachable(CFG, w) && w.shard == sh && w.procs == procs && w.secrets == {}
  }

  lemma ReachableStep(cfg: Config, w: World, a: Action)
    requires Reachable(cfg, w) && Perform(cfg, w, a).Some?
    ensures Reachable(cfg, Perform(cfg, w, a).value)
  {
    var actions :| Run(cfg, actions) == Some(w);
    assert (actions + [a])[..|actions|] == actions;
    hide Perform;
    assert Run(cfg, actions + [a]) == Perform(cfg, w, a);
  }

  function ShardAfter(sh: Shard, op: SharedOp): Shard {
    ApplyOp(EMPTY_WORLD.(shard := sh), 0, op).shard
  }

  /** A process makes a move. */
  lemma Moved(w: World, sh: Shard, procs: map<nat, Process>, pid: nat, c: Choice, m: Move) returns (w': World)
    requires Stands(w, sh, procs) && pid in procs && Plan(CFG, sh, {}, procs[pid], c) == Some(m) && !m.op.CreateSecret?
    ensures Stands(w', ShardAfter(sh, m.op), WithProcess(procs, pid, Advance(procs[pid], m.next)))
  {
    hide Reachable, Plan, Advance;
    ReachableStep(CFG, w, Continue(pid, c));
    w' := Perform(CFG, w, Continue(pid, c)).value;
  }

  lemma Delivered(w: World, sh: Shard, procs: map<nat, Process>, pid: nat, event: Event) returns (w': World)
    requires Stands(w, sh, procs) && pid !in procs && Deliverable(event, "sub")
    ensures Stands(w', sh, procs[pid := Handler(event, POLICY, Handling(GetOrder(0)))])
  {
    hide Reachable, Deliverable;
    ReachableStep(CFG, w, Deliver(pid, event, POLICY));
    w' := Perform(CFG, w, Deliver(pid, event, POLICY)).value;
  }

  function WorkerAt(lease: Lease, pc: Pc): Process {
    Worker(lease, Shared, true, lease.expiresAt, 2, pc)
  }

  /** A run takes the lease over: it is free, or its time is up. */
  lemma RunStarted(w: World, sh: Shard, procs: map<nat, Process>, pid: nat, owner: string, at: nat) returns (w': World)
    requires Stands(w, sh, procs) && pid !in procs && owner != "" && at < 1000
    requires sh.lease.Some? ==> sh.lease.value.expiresAt <= at
    ensures var lease := Lease("sub", owner, TokenOf(sh.lease) + 1, at + 100);
            Stands(w', sh.(lease := Some(lease)), procs[pid := WorkerAt(lease, Outside(RunOwned))])
  {
    hide Reachable;
    ReachableStep(CFG, w, StartRun(pid, owner, at, 100, Shared, true, at + 100));
    w' := Perform(CFG, w, StartRun(pid, owner, at, 100, Shared, true, at + 100)).value;
  }

  lemma Crashed(w: World, sh: Shard, procs: map<nat, Process>, pid: nat) returns (w': World)
    requires Stands(w, sh, procs) && pid in procs
    ensures Stands(w', sh, procs - {pid})
  {
    hide Reachable;
    ReachableStep(CFG, w, Crash(pid));
    w' := Perform(CFG, w, Crash(pid)).value;
  }

  // ---------------------------------------------------------------------------
  // Stretches of a handler and of a run
  // ---------------------------------------------------------------------------

  predicate IsReduction(sh: Shard, event: Event, order: Order) {
    && Deliverable(event, "sub") && ReduceBillingEvent(sh.order, event).Ok?
    && ReduceBillingEvent(sh.order, event).value.order.Some?
    && DecidePutOrder(sh.order, ReduceBillingEvent(sh.order, event).value.order.value, VersionOf(sh.order)) == Ok(order)
  }

  /** A handler commits its event. */
  lemma Committed(w: World, sh: Shard, procs: map<nat, Process>, pid: nat, event: Event, order: Order) returns (w': World)
    requires Stands(w, sh, procs) && pid !in procs && IsReduction(sh, event, order)
    ensures Stands(w', sh.(order := Some(order)), procs[pid := Handler(event, POLICY, Handling(GetJob(order)))])
  {
    hide Reachable, ReduceBillingEvent, DecidePutOrder, Deliverable;
    w' := Delivered(w, sh, procs, pid, event);
    var h := Handler(event, POLICY, Handling(GetOrder(0)));
    var put := Handling(PutOrder(sh.order, ReduceBillingEvent(sh.order, event).value.order.value, 0));
    w' := Moved(w', sh, procs[pid := h], pid, Go, Move(Nothing, Goto(put)));
    assert procs[pid := h][pid := At(h, put)] == procs[pid := At(h, put)];
    w' := Moved(w', sh, procs[pid := At(h, put)], pid, Go, Move(SetOrder(order, event), Goto(Handling(GetJob(order)))));
  }

  /** A handler of an ended order reads the job, and is about to write it. */
  lemma AboutToEnd(w: World, sh: Shard, procs: map<nat, Process>, pid: nat, event: Event, order: Order, job: Job)
    returns (w': World)
    requires Stands(w, sh, procs) && pid in procs && procs[pid] == Handler(event, POLICY, Handling(GetJob(order)))
    requires EndsService(order) && sh.job == Some(job) && sh.resources == map[]
    requires TransitionTarget(job, [], OperationFor(order)) != job
    ensures Stands(w', sh, procs[pid := Handler(event, POLICY, Transition(PutJob(job, []), OperationFor(order), 0, ForHandler(job)))])
  {
    hide Reachable, TransitionTarget, EndsService, OperationFor;
    var h, op := procs[pid], OperationFor(order);
    var list, put := Transition(ListRecords(job), op, 0, ForHandler(job)), Transition(PutJob(job, []), op, 0, ForHandler(job));
    w' := Moved(w, sh, procs, pid, Go, Move(Nothing, Goto(list)));
    NoRecords(sh);
    assert StepsOf([]) == [];
    assert procs[pid := At(h, list)][pid := At(h, put)] == procs[pid := At(h, put)];
    w' := Moved(w', sh, procs[pid := At(h, list)], pid, Listing([]), Move(Nothing, Goto(put)));
  }

  lemma NoRecords(sh: Shard)
    requires sh.resources == map[]
    ensures ListsShard([], sh, "sub")
  {
  }

  /** After a conflict the handler reads the job again. */
  lemma ReadsAgain(
    w: World, sh: Shard, procs: map<nat, Process>, pid: nat, event: Event, read: Job, op: Operation, first: Job, job: Job)
    returns (w': World)
    requires Stands(w, sh, procs) && pid in procs && op != Provisioning
    requires procs[pid] == Handler(event, POLICY, Transition(PutJob(read, []), op, 0, ForHandler(first)))
    requires sh.job == Some(job) && job.version != read.version
    ensures Stands(w', sh, procs[pid := Handler(event, POLICY, Transition(ListRecords(job), op, 1, ForHandler(first)))])
  {
    hide Reachable, TransitionTarget;
    var h := procs[pid];
    var again, list := Transition(GetJobAgain, op, 1, ForHandler(first)), Transition(ListRecords(job), op, 1, ForHandler(first));
    StaleIsRefused(sh, read, op, job);
    w' := Moved(w, sh, procs, pid, Go, Move(Nothing, Goto(again)));
    assert procs[pid := At(h, again)][pid := At(h, list)] == procs[pid := At(h, list)];
    w' := Moved(w', sh, procs[pid := At(h, again)], pid, Go, Move(Nothing, Goto(list)));
  }

  lemma StaleIsRefused(sh: Shard, read: Job, op: Operation, job: Job)
    requires sh.job == Some(job) && job.version != read.version
    ensures SaveJob(sh, read, TransitionTarget(read, [], op)).Err?
  {
    hide TransitionTarget;
  }

  /** The clock reading and duration that renew a lease without changing it. */
  function SameAgain(lease: Lease): Choice {
    Clock(lease.expiresAt - 1, 1)
  }

  predicate IsHeld(sh: Shard, lease: Lease) {
    sh.lease == Some(lease) && lease.subscriptionId == "sub" && lease.ownerId != "" && 1 < lease.expiresAt < 2000
  }

  lemma RenewalHolds(sh: Shard, lease: Lease, at: Pc, pc: Pc)
    requires IsHeld(sh, lease)
    ensures Owned(sh, WorkerAt(lease, at), SameAgain(lease), pc) == Some(Move(SetLease(Some(lease)), Goto(pc)))
  {
  }

  /** A run's ownership check succeeds. */
  lemma Checked(w: World, sh: Shard, procs: map<nat, Process>, pid: nat, lease: Lease, at: Pc, pc: Pc) returns (w': World)
    requires Stands(w, sh, procs) && pid in procs && procs[pid] == WorkerAt(lease, at) && IsHeld(sh, lease)
    requires Plan(CFG, sh, {}, WorkerAt(lease, at), SameAgain(lease)) == Owned(sh, WorkerAt(lease, at), SameAgain(lease), pc)
    ensures Stands(w', sh, procs[pid := WorkerAt(lease, pc)])
  {
    hide Reachable, Owned, Plan;
    RenewalHolds(sh, lease, at, pc);
    w' := Moved(w, sh, procs, pid, SameAgain(lease), Move(SetLease(Some(lease)), Goto(pc)));
  }

  /** A new run takes the lease and reads the order. */
  lemma ReadsOrder(w: World, sh: Shard, procs: map<nat, Process>, pid: nat, owner: string, at: nat, order: Order)
    returns (w': World)
    requires Stands(w, sh, procs) && pid !in procs && owner != "" && at < 1000 && sh.order == Some(order)
    requires sh.lease.Some? ==> sh.lease.value.expiresAt <= at
    ensures var lease := Lease("sub", owner, TokenOf(sh.lease) + 1, at + 100);
            Stands(w', sh.(lease := Some(lease)), procs[pid := WorkerAt(lease, Outside(RunGetJob(order)))])
  {
    hide Reachable;
    w' := RunStarted(w, sh, procs, pid, owner, at);
    var lease := Lease("sub", owner, TokenOf(sh.lease) + 1, at + 100);
    var now := sh.(lease := Some(lease));
    var start, read := WorkerAt(lease, Outside(RunOwned)), WorkerAt(lease, Outside(RunGetOrder));
    w' := Checked(w', now, procs[pid := start], pid, lease, start.pc, read.pc);
    assert procs[pid := start][pid := read] == procs[pid := read];
    var next := WorkerAt(lease, Outside(RunGetJob(order)));
    w' := Moved(w', now, procs[pid := read], pid, Go, Move(Nothing, Goto(next.pc)));
    assert procs[pid := read][pid := next] == procs[pid := next];
  }

  // ---------------------------------------------------------------------------
  // A job is created and its worker starts
  // ---------------------------------------------------------------------------

  const PAID := EventOfKind(1, InvoicePaid)

  const ORDER_PAID := OrderOf(0, Active, 1)

  const JOB_QUEUED := JobOf(0, Queued, Provisioning, [], [], 0)

  const JOB_RUNNING := JobOf(1, Running, Provisioning, [], [], 1)

  lemma EmptyIsReachable()
    ensures Stands(EMPTY_WORLD, EMPTY_SHARD, map[])
  {
    assert Run(CFG, []) == Some(EMPTY_WORLD);
  }

  lemma PaidIsCommitted()
    ensures IsReduction(EMPTY_SHARD, PAID, ORDER_PAID)
  {
  }

  lemma PaidCreates() returns (w: World)
    ensures Stands(w, Shard(Some(ORDER_PAID), Some(JOB_QUEUED), None, map[], map[]), map[])
  {
    hide Reachable, IsReduction;
    EmptyIsReachable();
    PaidIsCommitted();
    w := Committed(EMPTY_WORLD, EMPTY_SHARD, map[], 0, PAID, ORDER_PAID);
    var sh := EMPTY_SHARD.(order := Some(ORDER_PAID));
    var h := Handler(PAID, POLICY, Handling(GetJob(ORDER_PAID)));
    var create := Handling(Create(ORDER_PAID));
    assert map[][0 := h] == map[0 := h];
    w := Moved(w, sh, map[0 := h], 0, Go, Move(Nothing, Goto(create)));
    assert map[0 := h][0 := At(h, create)] == map[0 := At(h, create)];
    w := Moved(w, sh, map[0 := At(h, create)], 0, Go, Move(SetJob(JOB_QUEUED), Finish));
    assert map[0 := At(h, create)] - {0} == map[];
  }

  const LEASE_A := Lease("sub", "a", 1, 110)

  const SHARD_RUNNING := Shard(Some(ORDER_PAID), Some(JOB_RUNNING), Some(LEASE_A), map[], map[])

  lemma WorkerStarts() returns (w: World)
    ensures Stands(w, SHARD_RUNNING, map[1 := WorkerAt(LEASE_A, Steps(JOB_RUNNING, StepOwned))])
  {
    hide Reachable;
    w := PaidCreates();
    var sh := Shard(Some(ORDER_PAID), Some(JOB_QUEUED), None, map[], map[]);
    w := ReadsOrder(w, sh, map[], 1, "a", 10, ORDER_PAID);
    var held := sh.(lease := Some(LEASE_A));
    var read, start := WorkerAt(LEASE_A, Outside(RunGetJob(ORDER_PAID))), WorkerAt(LEASE_A, Outside(RunStart(ORDER_PAID, JOB_QUEUED)));
    assert map[][1 := read] == map[1 := read];
    w := Moved(w, held, map[1 := read], 1, Go, Move(Nothing, Goto(start.pc)));
    assert map[1 := read][1 := start] == map[1 := start];
    var steps := WorkerAt(LEASE_A, Steps(JOB_RUNNING, StepOwned));
    w := Moved(w, held, map[1 := start], 1, Go, Move(SetJob(JOB_RUNNING), Goto(steps.pc)));
    assert map[1 := start][1 := steps] == map[1 := steps];
  }

  /** The worker crashes; its lease stays. */
  lemma WorkerCrashes() returns (w: World)
    ensures Stands(w, SHARD_RUNNING, map[])
  {
    hide Reachable;
    w := WorkerStarts();
    var procs := map[1 := WorkerAt(LEASE_A, Steps(JOB_RUNNING, StepOwned))];
    w := Crashed(w, SHARD_RUNNING, procs, 1);
    assert procs - {1} == map[];
  }

  // ---------------------------------------------------------------------------
  // Service ends
  // ---------------------------------------------------------------------------

  const FAILED := EventOfKind(2, InvoicePaymentFailed)

  const ORDER_PAST_DUE := OrderOf(1, PastDue, 2)

  const DELETED := EventOfKind(3, SubscriptionDeleted)

  /** The order after a cancellation, over an active order or a past-due one. */
  const ORDER_CANCELED := OrderOf(1, Canceled, 3)

  const ORDER_CANCELED_LATE := OrderOf(2, Canceled, 3)

  const REFUNDED := EventOfKind(4, ChargeRefunded)

  const ORDER_REFUNDED := OrderOf(2, Refunded, 4)

  /** A job that is to undo its first step, under an operation. */
  function ToUndo(version: nat, operation: Operation, attempt: nat): Job {
    JobOf(version, Compensating, operation, [ResolveTenant], [], attempt)
  }

  lemma OnlyTheFirst(all: seq<Step>)
    requires all != [] && forall i :: 0 <= i < |all| ==> all[i] == ResolveTenant
    ensures FurthestIndex(all) == 0 && STEPS[..1] == [ResolveTenant]
  {
    assert all[0] in all && StepIndex(ResolveTenant) == 0;
    hide FurthestIndex;
  }

  lemma FirstInFlight(job: Job)
    requires job.completedSteps == []
    ensures InFlightSteps(job) == if InFlight(job) then [ResolveTenant] else []
  {
  }

  lemma FirstIsObserved(job: Job)
    requires if job.operation == Provisioning then job.completedSteps == [] && InFlight(job) else job.completedSteps == [ResolveTenant]
    ensures ObservedPrefix(job, [] + InFlightSteps(job)) == [ResolveTenant]
  {
    if job.operation == Provisioning { FirstInFlight(job); } else { assert InFlightSteps(job) == []; }
    hide FurthestIndex, InFlightSteps, InFlight;
    var all := job.completedSteps + ([] + InFlightSteps(job));
    assert all == [ResolveTenant];
    OnlyTheFirst(all);
  }

  lemma FirstStepIsUndone(job: Job, op: Operation)
    requires op != Provisioning && op != job.operation
    requires if job.operation == Provisioning then job.completedSteps == [] && InFlight(job) else job.completedSteps == [ResolveTenant]
    ensures TransitionTarget(job, [], op) ==
              job.(state := Compensating, operation := op, completedSteps := [ResolveTenant], compensatedSteps := [],
                   attempt := 0, retryExhausted := false, nextRetryAt := None, lastErrorCode := None)
  {
    FirstIsObserved(job);
    hide ObservedPrefix, InFlightSteps;
  }

  lemma NothingMoreToUndo(job: Job)
    requires job.operation != Provisioning && job.completedSteps == [ResolveTenant]
    ensures TransitionTarget(job, [], job.operation) == job
  {
    FirstIsObserved(job);
    hide ObservedPrefix, InFlightSteps;
  }

  lemma EndsAreCommitted()
    ensures IsReduction(SHARD_RUNNING, FAILED, ORDER_PAST_DUE)
    ensures IsReduction(SHARD_RUNNING, DELETED, ORDER_CANCELED)
    ensures forall sh: Shard :: sh.order == Some(ORDER_PAST_DUE) ==> IsReduction(sh, DELETED, ORDER_CANCELED_LATE)
    ensures forall sh: Shard :: sh.order == Some(ORDER_CANCELED) ==> IsReduction(sh, REFUNDED, ORDER_REFUNDED)
  {
  }

  // ---------------------------------------------------------------------------
  // A handler whose message is lost
  // ---------------------------------------------------------------------------

  const SUSPENDING := ToUndo(2, Suspension, 0)

  const SHARD_SUSPENDING := SHARD_RUNNING.(order := Some(ORDER_PAST_DUE), job := Some(SUSPENDING))

  /** A past-due event suspends the job while its first step is in flight. */
  lemma PastDueSuspends() returns (w: World)
    ensures Stands(w, SHARD_SUSPENDING, map[])
  {
    hide Reachable, IsReduction, TransitionTarget;
    w := WorkerCrashes();
    EndsAreCommitted();
    FirstStepIsUndone(JOB_RUNNING, Suspension);
    w := Committed(w, SHARD_RUNNING, map[], 2, FAILED, ORDER_PAST_DUE);
    var sh := SHARD_RUNNING.(order := Some(ORDER_PAST_DUE));
    var h := Handler(FAILED, POLICY, Handling(GetJob(ORDER_PAST_DUE)));
    assert map[][2 := h] == map[2 := h];
    w := AboutToEnd(w, sh, map[2 := h], 2, FAILED, ORDER_PAST_DUE, JOB_RUNNING);
    var put := At(h, Transition(PutJob(JOB_RUNNING, []), Suspension, 0, ForHandler(JOB_RUNNING)));
    assert map[2 := h][2 := put] == map[2 := put];
    w := Moved(w, sh, map[2 := put], 2, Go, Move(SetJob(SUSPENDING), Finish));
    assert map[2 := put] - {2} == map[];
  }

  const LEASE_B := Lease("sub", "b", 2, 300)

  const SUSPENDING_NOW := ToUndo(3, Suspension, 1)

  const SHARD_SUSPENDING_NOW := SHARD_SUSPENDING.(job := Some(SUSPENDING_NOW), lease := Some(LEASE_B))

  lemma StartsUndoing(version: nat, op: Operation, now: nat)
    requires op != Provisioning
    ensures StartProvisioningAttempt(ToUndo(version, op, 0), now) == Ok(ToUndo(version, op, 1))
    ensures IsUndoJob(ToUndo(version, op, 1)) && UndoStepOf(ToUndo(version, op, 1)) == ResolveTenant
  {
    assert LastOutside([ResolveTenant], []) == Some(ResolveTenant);
  }

  /** A run takes the undoing up. */
  lemma TakesUndoingUp(
    w: World, sh: Shard, procs: map<nat, Process>, pid: nat, order: Order, version: nat, op: Operation)
    returns (w': World)
    requires Stands(w, sh, procs) && pid !in procs && sh.lease == Some(LEASE_A) && sh.order == Some(order)
    requires sh.job == Some(ToUndo(version, op, 0)) && op != Provisioning && sh.resources == map[]
    requires EndsService(order) && OperationFor(order) == op && order.mode == Some(Shared) && HasProvisioningIdentity(order)
    ensures Stands(w', sh.(lease := Some(LEASE_B), job := Some(ToUndo(version + 1, op, 1))),
                   procs[pid := WorkerAt(LEASE_B, Undo(ToUndo(version + 1, op, 1), UndoOwned))])
  {
    hide Reachable, TransitionTarget, HasProvisioningIdentity, EndsService, OperationFor;
    var job, started := ToUndo(version, op, 0), ToUndo(version + 1, op, 1);
    w' := ReadsOrder(w, sh, procs, pid, "b", 200, order);
    var held := sh.(lease := Some(LEASE_B));
    var read := WorkerAt(LEASE_B, Outside(RunGetJob(order)));
    var list := WorkerAt(LEASE_B, Transition(ListRecords(job), op, 0, ForWorker(order)));
    w' := Moved(w', held, procs[pid := read], pid, Go, Move(Nothing, Goto(list.pc)));
    assert procs[pid := read][pid := list] == procs[pid := list];
    var start := WorkerAt(LEASE_B, Outside(RunStart(order, job)));
    GoesOn(held, order, version, op);
    hide Plan;
    w' := Moved(w', held, procs[pid := list], pid, Listing([]), Move(Nothing, Goto(start.pc)));
    assert procs[pid := list][pid := start] == procs[pid := start];
    var undo := WorkerAt(LEASE_B, Undo(started, UndoOwned));
    w' := Moved(w', held, procs[pid := start], pid, Go, Move(SetJob(started), Goto(undo.pc)));
    assert procs[pid := start][pid := undo] == procs[pid := undo];
  }

  lemma GoesOn(sh: Shard, order: Order, version: nat, op: Operation)
    requires sh.job == Some(ToUndo(version, op, 0)) && op != Provisioning && sh.resources == map[]
    requires order.mode == Some(Shared) && HasProvisioningIdentity(order)
    ensures var job := ToUndo(version, op, 0);
            Plan(CFG, sh, {}, WorkerAt(LEASE_B, Transition(ListRecords(job), op, 0, ForWorker(order))), Listing([]))
            == Some(Move(Nothing, Goto(Outside(RunStart(order, job)))))
    ensures var started := ToUndo(version + 1, op, 1);
            Plan(CFG, sh, {}, WorkerAt(LEASE_B, Outside(RunStart(order, ToUndo(version, op, 0)))), Go)
            == Some(Move(SetJob(started), Goto(Undo(started, UndoOwned))))
  {
    hide TransitionTarget, HasProvisioningIdentity;
    NothingMoreToUndo(ToUndo(version, op, 0));
    NoRecords(sh);
    StartsUndoing(version, op, 300);
    StartsUndoing(version + 1, op, 300);
    hide IsUndoJob;
    assert StepsOf([]) == [];
  }

  /** The suspension's run fails, so that the job is to be retried later. */
  const SUSPENSION_FAILED :=
    SUSPENDING_NOW.(version := 4, state := Failed, nextRetryAt := Some(1300), lastErrorCode := Some(ProviderFailure))

  /** A cancellation's handler has read the job while it was compensating; the worker's
      failure is stored before it writes. */
  lemma CancellationReadsCompensating() returns (w: World)
    ensures Stands(w, SHARD_SUSPENDING_NOW.(order := Some(ORDER_CANCELED_LATE), job := Some(SUSPENSION_FAILED)),
                   map[3 := WorkerAt(LEASE_B, Outside(Releasing)),
                       4 := Handler(DELETED, POLICY, Transition(PutJob(SUSPENDING_NOW, []), Compensation, 0, ForHandler(SUSPENDING_NOW)))])
  {
    hide Reachable, IsReduction, TransitionTarget;
    w := PastDueSuspends();
    w := TakesUndoingUp(w, SHARD_SUSPENDING, map[], 3, ORDER_PAST_DUE, 2, Suspension);
    var owned, list := WorkerAt(LEASE_B, Undo(SUSPENDING_NOW, UndoOwned)), WorkerAt(LEASE_B, Undo(SUSPENDING_NOW, UndoList));
    var thrown := SafeFailure(ProviderFailure, true);
    var saving := WorkerAt(LEASE_B, Outside(SaveFailure(SUSPENDING_NOW, thrown)));
    assert map[][3 := owned] == map[3 := owned];
    w := Checked(w, SHARD_SUSPENDING_NOW, map[3 := owned], 3, LEASE_B, owned.pc, list.pc);
    assert map[3 := owned][3 := list] == map[3 := list];
    w := Moved(w, SHARD_SUSPENDING_NOW, map[3 := list], 3, Threw(thrown), Move(Nothing, Goto(saving.pc)));
    assert map[3 := list][3 := saving] == map[3 := saving];
    EndsAreCommitted();
    w := Committed(w, SHARD_SUSPENDING_NOW, map[3 := saving], 4, DELETED, ORDER_CANCELED_LATE);
    w := FailureIsSaved(w, saving);
  }

  lemma FailureIsSaved(w: World, saving: Process) returns (w': World)
    requires saving == WorkerAt(LEASE_B, Outside(SaveFailure(SUSPENDING_NOW, SafeFailure(ProviderFailure, true))))
    requires Stands(w, SHARD_SUSPENDING_NOW.(order := Some(ORDER_CANCELED_LATE)),
                    map[3 := saving][4 := Handler(DELETED, POLICY, Handling(GetJob(ORDER_CANCELED_LATE)))])
    ensures Stands(w', SHARD_SUSPENDING_NOW.(order := Some(ORDER_CANCELED_LATE), job := Some(SUSPENSION_FAILED)),
                   map[3 := WorkerAt(LEASE_B, Outside(Releasing)),
                       4 := Handler(DELETED, POLICY, Transition(PutJob(SUSPENDING_NOW, []), Compensation, 0, ForHandler(SUSPENDING_NOW)))])
  {
    hide Reachable, TransitionTarget;
    var sh := SHARD_SUSPENDING_NOW.(order := Some(ORDER_CANCELED_LATE));
    var h := Handler(DELETED, POLICY, Handling(GetJob(ORDER_CANCELED_LATE)));
    FirstStepIsUndone(SUSPENDING_NOW, Compensation);
    w' := AboutToEnd(w, sh, map[3 := saving][4 := h], 4, DELETED, ORDER_CANCELED_LATE, SUSPENDING_NOW);
    var put := At(h, Transition(PutJob(SUSPENDING_NOW, []), Compensation, 0, ForHandler(SUSPENDING_NOW)));
    var procs := map[3 := saving, 4 := put];
    assert map[3 := saving][4 := h][4 := put] == procs;
    FailsOnce();
    w' := Moved(w', sh, procs, 3, Go, Move(SetJob(SUSPENSION_FAILED), Goto(Outside(Releasing))));
    assert procs[3 := WorkerAt(LEASE_B, Outside(Releasing))] == map[3 := WorkerAt(LEASE_B, Outside(Releasing)), 4 := put];
  }

  lemma FailsOnce()
    ensures FailProvisioningAttempt(SUSPENDING_NOW, SafeFailure(ProviderFailure, true), 300) == Ok(SUSPENSION_FAILED.(version := 3))
  {
    assert Pow2(0) == 1;
  }

  const SHARD_LOST := SHARD_SUSPENDING_NOW.(order := Some(ORDER_CANCELED_LATE), job := Some(SUSPENSION_FAILED))

  /** The handler is about to replace the failed suspension, and has read the compensating
      one first. */
  const HANDLER_LOST :=
    Handler(DELETED, POLICY, Transition(PutJob(SUSPENSION_FAILED, []), Compensation, 1, ForHandler(SUSPENDING_NOW)))

  lemma AboutToLose() returns (w: World)
    ensures Stands(w, SHARD_LOST, map[3 := WorkerAt(LEASE_B, Outside(Releasing)), 4 := HANDLER_LOST])
  {
    hide Reachable, TransitionTarget;
    w := CancellationReadsCompensating();
    var releasing := WorkerAt(LEASE_B, Outside(Releasing));
    var put := At(HANDLER_LOST, Transition(PutJob(SUSPENDING_NOW, []), Compensation, 0, ForHandler(SUSPENDING_NOW)));
    var list := At(HANDLER_LOST, Transition(ListRecords(SUSPENSION_FAILED), Compensation, 1, ForHandler(SUSPENDING_NOW)));
    var procs := map[3 := releasing, 4 := put];
    w := ReadsAgain(w, SHARD_LOST, procs, 4, DELETED, SUSPENDING_NOW, Compensation, SUSPENDING_NOW, SUSPENSION_FAILED);
    FirstStepIsUndone(SUSPENSION_FAILED, Compensation);
    NoRecords(SHARD_LOST);
    assert StepsOf([]) == [];
    w := Moved(w, SHARD_LOST, procs[4 := list], 4, Listing([]), Move(Nothing, Goto(HANDLER_LOST.pc)));
    assert procs[4 := list][4 := HANDLER_LOST] == map[3 := releasing, 4 := HANDLER_LOST];
  }

  // ---------------------------------------------------------------------------
  // A handler whose message is superfluous
  // ---------------------------------------------------------------------------

  const UNDOING := ToUndo(2, Compensation, 0)

  const SHARD_REPEATED := SHARD_RUNNING.(order := Some(ORDER_REFUNDED), job := Some(UNDOING))

  /** A handler has read the running job first, and finds it compensating already. */
  const HANDLER_REPEATED :=
    Handler(DELETED, POLICY, Transition(ListRecords(UNDOING), Compensation, 1, ForHandler(JOB_RUNNING)))

  lemma CancellationIsOvertaken() returns (w: World)
    ensures var put := At(HANDLER_REPEATED, Transition(PutJob(JOB_RUNNING, []), Compensation, 0, ForHandler(JOB_RUNNING)));
            var refund := Handler(REFUNDED, POLICY, Handling(GetJob(ORDER_REFUNDED)));
            Stands(w, SHARD_RUNNING.(order := Some(ORDER_REFUNDED)), map[2 := put][4 := refund])
  {
    hide Reachable, IsReduction, TransitionTarget;
    w := WorkerCrashes();
    EndsAreCommitted();
    FirstStepIsUndone(JOB_RUNNING, Compensation);
    w := Committed(w, SHARD_RUNNING, map[], 2, DELETED, ORDER_CANCELED);
    var h := Handler(DELETED, POLICY, Handling(GetJob(ORDER_CANCELED)));
    assert map[][2 := h] == map[2 := h];
    var sh := SHARD_RUNNING.(order := Some(ORDER_CANCELED));
    w := AboutToEnd(w, sh, map[2 := h], 2, DELETED, ORDER_CANCELED, JOB_RUNNING);
    var put := At(h, Transition(PutJob(JOB_RUNNING, []), Compensation, 0, ForHandler(JOB_RUNNING)));
    assert map[2 := h][2 := put] == map[2 := put];
    w := Committed(w, sh, map[2 := put], 4, REFUNDED, ORDER_REFUNDED);
  }

  lemma AboutToRepeat() returns (w: World)
    ensures Stands(w, SHARD_REPEATED, map[2 := HANDLER_REPEATED])
  {
    hide Reachable, TransitionTarget;
    w := CancellationIsOvertaken();
    var sh := SHARD_RUNNING.(order := Some(ORDER_REFUNDED));
    var put := At(HANDLER_REPEATED, Transition(PutJob(JOB_RUNNING, []), Compensation, 0, ForHandler(JOB_RUNNING)));
    var refund := Handler(REFUNDED, POLICY, Handling(GetJob(ORDER_REFUNDED)));
    FirstStepIsUndone(JOB_RUNNING, Compensation);
    w := AboutToEnd(w, sh, map[2 := put][4 := refund], 4, REFUNDED, ORDER_REFUNDED, JOB_RUNNING);
    var writing := At(refund, put.pc);
    var procs := map[2 := put, 4 := writing];
    assert map[2 := put][4 := refund][4 := writing] == procs;
    w := Moved(w, sh, procs, 4, Go, Move(SetJob(UNDOING), Finish));
    assert procs - {4} == map[2 := put];
    w := ReadsAgain(w, SHARD_REPEATED, map[2 := put], 2, DELETED, JOB_RUNNING, Compensation, JOB_RUNNING, UNDOING);
    assert map[2 := put][2 := HANDLER_REPEATED] == map[2 := HANDLER_REPEATED];
  }

  // ---------------------------------------------------------------------------
  // A superseded worker
  // ---------------------------------------------------------------------------

  const TENANT := ResourceInput("tenant", ProviderId("t"), Mutable)

  /** The worker of the first step, whose provider call has returned a record. */
  const PERSISTING := WorkerAt(LEASE_A, Steps(JOB_RUNNING, StepPersist(NotNeeded, [TENANT], None)))

  lemma WorkerPersists() returns (w: World)
    ensures Stands(w, SHARD_RUNNING, map[1 := PERSISTING])
  {
    hide Reachable;
    w := WorkerStarts();
    var owned, list := WorkerAt(LEASE_A, Steps(JOB_RUNNING, StepOwned)), WorkerAt(LEASE_A, Steps(JOB_RUNNING, StepList));
    w := Checked(w, SHARD_RUNNING, map[1 := owned], 1, LEASE_A, owned.pc, list.pc);
    assert map[1 := owned][1 := list] == map[1 := list];
    var execute := WorkerAt(LEASE_A, Steps(JOB_RUNNING, StepExecute(NotNeeded)));
    NoRecords(SHARD_RUNNING);
    w := Moved(w, SHARD_RUNNING, map[1 := list], 1, Listing([]), Move(Nothing, Goto(execute.pc)));
    assert map[1 := list][1 := execute] == map[1 := execute];
    w := StepExecutes(w, execute);
  }

  lemma StepExecutes(w: World, execute: Process) returns (w': World)
    requires execute == WorkerAt(LEASE_A, Steps(JOB_RUNNING, StepExecute(NotNeeded))) && Stands(w, SHARD_RUNNING, map[1 := execute])
    ensures Stands(w', SHARD_RUNNING, map[1 := PERSISTING])
  {
    hide Reachable;
    var executed := WorkerAt(LEASE_A, Steps(JOB_RUNNING, StepExecuted(NotNeeded, [TENANT], None)));
    var m := Move(Execute(JOB_RUNNING, ResolveTenant), Goto(executed.pc));
    w' := Moved(w, SHARD_RUNNING, map[1 := execute], 1, Returned([TENANT], None, []), m);
    assert map[1 := execute][1 := executed] == map[1 := executed];
    w' := Checked(w', SHARD_RUNNING, map[1 := executed], 1, LEASE_A, executed.pc, PERSISTING.pc);
    assert map[1 := executed][1 := PERSISTING] == map[1 := PERSISTING];
  }

  const SHARD_UNDOING := SHARD_RUNNING.(order := Some(ORDER_CANCELED), job := Some(UNDOING))

  /** The order is canceled while the worker stands there. */
  lemma CancellationBegins() returns (w: World)
    ensures Stands(w, SHARD_UNDOING, map[1 := PERSISTING])
  {
    hide Reachable, IsReduction, TransitionTarget;
    w := WorkerPersists();
    EndsAreCommitted();
    FirstStepIsUndone(JOB_RUNNING, Compensation);
    w := Committed(w, SHARD_RUNNING, map[1 := PERSISTING], 2, DELETED, ORDER_CANCELED);
    var sh := SHARD_RUNNING.(order := Some(ORDER_CANCELED));
    var h := Handler(DELETED, POLICY, Handling(GetJob(ORDER_CANCELED)));
    w := AboutToEnd(w, sh, map[1 := PERSISTING][2 := h], 2, DELETED, ORDER_CANCELED, JOB_RUNNING);
    var put := At(h, Transition(PutJob(JOB_RUNNING, []), Compensation, 0, ForHandler(JOB_RUNNING)));
    var procs := map[1 := PERSISTING, 2 := put];
    assert map[1 := PERSISTING][2 := h][2 := put] == procs;
    w := Moved(w, sh, procs, 2, Go, Move(SetJob(UNDOING), Finish));
    assert procs - {2} == map[1 := PERSISTING];
  }

  const UNDOING_NOW := ToUndo(3, Compensation, 1)

  const SHARD_UNDOING_NOW := SHARD_UNDOING.(lease := Some(LEASE_B), job := Some(UNDOING_NOW))

  function UndoAt(u: UndoPc): Process {
    WorkerAt(LEASE_B, Undo(UNDOING_NOW, u))
  }

  function Both(u: UndoPc): map<nat, Process> {
    map[1 := PERSISTING, 3 := UndoAt(u)]
  }

  lemma BothAfter(u: UndoPc, next: UndoPc)
    ensures Both(u)[3 := UndoAt(next)] == Both(next)
  {
  }

  lemma SecondWorkerCompensates() returns (w: World)
    ensures Stands(w, SHARD_UNDOING_NOW, Both(UndoPersist([], [], [])))
  {
    hide Reachable, TransitionTarget;
    w := CancellationBegins();
    w := TakesUndoingUp(w, SHARD_UNDOING, map[1 := PERSISTING], 3, ORDER_CANCELED, 2, Compensation);
    assert map[1 := PERSISTING][3 := UndoAt(UndoOwned)] == Both(UndoOwned);
    w := Checked(w, SHARD_UNDOING_NOW, Both(UndoOwned), 3, LEASE_B, Undo(UNDOING_NOW, UndoOwned), Undo(UNDOING_NOW, UndoList));
    BothAfter(UndoOwned, UndoList);
    NoRecords(SHARD_UNDOING_NOW);
    assert RecordsOfStep([], UndoStepOf(UNDOING_NOW)) == [];
    w := Moved(w, SHARD_UNDOING_NOW, Both(UndoList), 3, Listing([]), Move(Nothing, Goto(Undo(UNDOING_NOW, UndoGetPointer([])))));
    BothAfter(UndoList, UndoGetPointer([]));
    w := Moved(w, SHARD_UNDOING_NOW, Both(UndoGetPointer([])), 3, Go, Move(Nothing, Goto(Undo(UNDOING_NOW, UndoCompensate([])))));
    BothAfter(UndoGetPointer([]), UndoCompensate([]));
    w := CompensationReturns(w);
  }

  lemma CompensationReturns(w: World) returns (w': World)
    requires Stands(w, SHARD_UNDOING_NOW, Both(UndoCompensate([])))
    ensures Stands(w', SHARD_UNDOING_NOW, Both(UndoPersist([], [], [])))
  {
    hide Reachable;
    StartsUndoing(3, Compensation, 0);
    var m := Move(Compensate(UNDOING_NOW, ResolveTenant), Goto(Undo(UNDOING_NOW, UndoCompensated([], [], []))));
    w' := Moved(w, SHARD_UNDOING_NOW, Both(UndoCompensate([])), 3, Returned([], None, []), m);
    BothAfter(UndoCompensate([]), UndoCompensated([], [], []));
    w' := Checked(w', SHARD_UNDOING_NOW, Both(UndoCompensated([], [], [])), 3, LEASE_B, UndoAt(UndoCompensated([], [], [])).pc,
                  UndoAt(UndoPersist([], [], [])).pc);
    BothAfter(UndoCompensated([], [], []), UndoPersist([], [], []));
  }

  const JOB_DISABLED := JobOf(4, Disabled, Compensation, [ResolveTenant], [ResolveTenant], 1)

  const SHARD_DISABLED := SHARD_UNDOING_NOW.(job := Some(JOB_DISABLED))

  /** The second worker disables the job; the first one still holds its record. */
  lemma SecondWorkerDisables() returns (w: World)
    ensures Stands(w, SHARD_DISABLED, map[1 := PERSISTING, 3 := WorkerAt(LEASE_B, Outside(Releasing))])
  {
    hide Reachable;
    w := SecondWorkerCompensates();
    StartsUndoing(3, Compensation, 0);
    w := Moved(w, SHARD_UNDOING_NOW, Both(UndoPersist([], [], [])), 3, Go, Move(Nothing, Goto(Undo(UNDOING_NOW, UndoDispose([], [])))));
    BothAfter(UndoPersist([], [], []), UndoDispose([], []));
    w := Moved(w, SHARD_UNDOING_NOW, Both(UndoDispose([], [])), 3, Go, Move(Nothing, Goto(Undo(UNDOING_NOW, UndoDoneOwned))));
    BothAfter(UndoDispose([], []), UndoDoneOwned);
    w := Checked(w, SHARD_UNDOING_NOW, Both(UndoDoneOwned), 3, LEASE_B, UndoAt(UndoDoneOwned).pc, UndoAt(UndoCheckpoint).pc);
    BothAfter(UndoDoneOwned, UndoCheckpoint);
    StepIsCheckpointed();
    hide Plan;
    w := Moved(w, SHARD_UNDOING_NOW, Both(UndoCheckpoint), 3, Go, Move(SetJob(JOB_DISABLED), Goto(Outside(Releasing))));
    assert Both(UndoCheckpoint)[3 := WorkerAt(LEASE_B, Outside(Releasing))] == map[1 := PERSISTING, 3 := WorkerAt(LEASE_B, Outside(Releasing))];
  }

  lemma StepIsCheckpointed()
    ensures Plan(CFG, SHARD_UNDOING_NOW, {}, UndoAt(UndoCheckpoint), Go) == Some(Move(SetJob(JOB_DISABLED), Goto(Outside(Releasing))))
  {
    StartsUndoing(3, Compensation, 0);
    assert [] + [ResolveTenant] == [ResolveTenant];
  }

  /** The record that the first worker then writes: a mutable record that is active. */
  const ON_RECORD := RecordFor(JOB_RUNNING, ResolveTenant, TENANT)

  lemma SupersededWorkerWrites() returns (w: World)
    ensures Reachable(CFG, w) && w.shard == SHARD_DISABLED.(resources := map[ON_RECORD.resourceKey := ON_RECORD])
  {
    hide Reachable;
    w := SecondWorkerDisables();
    var procs := map[1 := PERSISTING, 3 := WorkerAt(LEASE_B, Outside(Releasing))];
    var next := Steps(JOB_RUNNING, StepPersist(NotNeeded, [], None));
    assert Rest([TENANT]) == [];
    w := Moved(w, SHARD_DISABLED, procs, 1, Go, Move(SetResource(ON_RECORD), Goto(next)));
  }

  // ---------------------------------------------------------------------------
  // A worker of an earlier activation
  // ---------------------------------------------------------------------------

  const PAID_AGAIN := EventOfKind(5, InvoicePaid)

  const ORDER_PAID_AGAIN := OrderOf(2, Active, 5)

  const DELETED_LAST := EventOfKind(6, SubscriptionDeleted)

  const ORDER_CANCELED_LAST := OrderOf(3, Canceled, 6)

  const RESUMED := JobOf(3, Queued, Provisioning, [], [], 0).(activationGeneration := 1)

  const ENDED := JobOf(4, Disabled, Compensation, [], [], 0).(activationGeneration := 1)

  lemma LaterEventsAreCommitted()
    ensures forall sh: Shard :: sh.order == Some(ORDER_PAST_DUE) ==> IsReduction(sh, PAID_AGAIN, ORDER_PAID_AGAIN)
    ensures forall sh: Shard :: sh.order == Some(ORDER_PAID_AGAIN) ==> IsReduction(sh, DELETED_LAST, ORDER_CANCELED_LAST)
  {
  }

  /** While the worker persists its record, the job is suspended. */
  lemma SuspendedMeanwhile() returns (w: World)
    ensures Stands(w, SHARD_SUSPENDING, map[1 := PERSISTING])
  {
    hide Reachable, IsReduction, TransitionTarget;
    w := WorkerPersists();
    EndsAreCommitted();
    FirstStepIsUndone(JOB_RUNNING, Suspension);
    w := Committed(w, SHARD_RUNNING, map[1 := PERSISTING], 2, FAILED, ORDER_PAST_DUE);
    var sh := SHARD_RUNNING.(order := Some(ORDER_PAST_DUE));
    var h := Handler(FAILED, POLICY, Handling(GetJob(ORDER_PAST_DUE)));
    w := AboutToEnd(w, sh, map[1 := PERSISTING][2 := h], 2, FAILED, ORDER_PAST_DUE, JOB_RUNNING);
    var put := At(h, Transition(PutJob(JOB_RUNNING, []), Suspension, 0, ForHandler(JOB_RUNNING)));
    var procs := map[1 := PERSISTING, 2 := put];
    assert map[1 := PERSISTING][2 := h][2 := put] == procs;
    w := Moved(w, sh, procs, 2, Go, Move(SetJob(SUSPENDING), Finish));
    assert procs - {2} == map[1 := PERSISTING];
  }

  const SHARD_RESUMED := SHARD_RUNNING.(order := Some(ORDER_PAID_AGAIN), job := Some(RESUMED))

  /** Then it is paid for again, and starts anew. */
  lemma ResumedMeanwhile() returns (w: World)
    ensures Stands(w, SHARD_RESUMED, map[1 := PERSISTING])
  {
    hide Reachable, IsReduction;
    w := SuspendedMeanwhile();
    LaterEventsAreCommitted();
    w := Committed(w, SHARD_SUSPENDING, map[1 := PERSISTING], 2, PAID_AGAIN, ORDER_PAID_AGAIN);
    var sh := SHARD_SUSPENDING.(order := Some(ORDER_PAID_AGAIN));
    var h := Handler(PAID_AGAIN, POLICY, Handling(GetJob(ORDER_PAID_AGAIN)));
    var resume := At(h, Handling(Resume(SUSPENDING)));
    var procs := map[1 := PERSISTING, 2 := resume];
    w := Moved(w, sh, map[1 := PERSISTING][2 := h], 2, Go, Move(Nothing, Goto(resume.pc)));
    assert map[1 := PERSISTING][2 := h][2 := resume] == procs;
    w := Moved(w, sh, procs, 2, Go, Move(SetJob(RESUMED), Finish));
    assert procs - {2} == map[1 := PERSISTING];
  }

  const SHARD_ENDED := SHARD_RUNNING.(order := Some(ORDER_CANCELED_LAST), job := Some(ENDED))

  lemma NothingToEnd()
    ensures TransitionTarget(RESUMED, [], Compensation) == ENDED.(version := 3)
  {
    FirstInFlight(RESUMED);
  }

  /** And canceled before anything new was done, which disables it at once. */
  lemma EndedMeanwhile() returns (w: World)
    ensures Stands(w, SHARD_ENDED, map[1 := PERSISTING])
  {
    hide Reachable, IsReduction, TransitionTarget;
    w := ResumedMeanwhile();
    LaterEventsAreCommitted();
    NothingToEnd();
    w := Committed(w, SHARD_RESUMED, map[1 := PERSISTING], 2, DELETED_LAST, ORDER_CANCELED_LAST);
    var sh := SHARD_RESUMED.(order := Some(ORDER_CANCELED_LAST));
    var h := Handler(DELETED_LAST, POLICY, Handling(GetJob(ORDER_CANCELED_LAST)));
    w := AboutToEnd(w, sh, map[1 := PERSISTING][2 := h], 2, DELETED_LAST, ORDER_CANCELED_LAST, RESUMED);
    var put := At(h, Transition(PutJob(RESUMED, []), Compensation, 0, ForHandler(RESUMED)));
    var procs := map[1 := PERSISTING, 2 := put];
    assert map[1 := PERSISTING][2 := h][2 := put] == procs;
    w := Moved(w, sh, procs, 2, Go, Move(SetJob(ENDED), Finish));
    assert procs - {2} == map[1 := PERSISTING];
  }

  lemma EarlierActivationWrites() returns (w: World)
    ensures Reachable(CFG, w) && w.shard == SHARD_ENDED.(resources := map[ON_RECORD.resourceKey := ON_RECORD])
  {
    hide Reachable;
    w := EndedMeanwhile();
    var next := Steps(JOB_RUNNING, StepPersist(NotNeeded, [], None));
    assert Rest([TENANT]) == [];
    w := Moved(w, SHARD_ENDED, map[1 := PERSISTING], 1, Go, Move(SetResource(ON_RECORD), Goto(next)));
  }
}
