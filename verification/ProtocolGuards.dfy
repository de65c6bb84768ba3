/** Why a worker may act at all: over every run, provider calls are made by workers of the
    order's own mode, steps only for an order that was paid for, and compensations only for
    one whose payment failed or that ended (infra/provisioning/src/orchestrator.ts:789-886). */
module ProtocolGuards {
  import opened Domain
  import opened Billing
  import opened BillingKinds
  import opened Jobs
  import opened Store
  import opened Protocol
  import opened ProtocolSteps
  import opened ProtocolCore
  import opened ProtocolEffects
  import opened ProtocolOrders

  // ---------------------------------------------------------------------------
  // Orders that were stored
  // ---------------------------------------------------------------------------

  /** What a version of the order can call for: service in a mode, suspending it, ending it,
      or nothing but work for a known customer in a mode. */
  datatype Call = ForService(mode: DeploymentMode) | ForSuspension | ForEnd | ForCustomer(mode: DeploymentMode)

  predicate HasCustomer(o: Order, mode: DeploymentMode) {
    && o.customerId.Some? && o.customerId.value != "" && o.ownerSubject.Some? && o.ownerSubject.value != ""
    && o.mode == Some(mode) && o.plan.Some?
  }

  predicate CallsFor(o: Order, call: Call) {
    match call
    case ForService(mode) => o.billingState == Active && HasCustomer(o, mode) && (mode == Dedicated ==> o.plan == Some(Scale))
    case ForSuspension => o.billingState == PastDue
    case ForEnd => o.billingState == Canceled || o.billingState == Refunded
    case ForCustomer(mode) => HasCustomer(o, mode)
  }

  ghost predicate IsVersionOf(cfg: Config, committed: seq<Event>, o: Order, n: nat)
    requires AllDeliverable(committed, cfg.sub)
  {
    0 < n <= |committed| && OrderAfter(cfg, committed, n) == Some(o)
  }

  /** The order was stored at some time. */
  ghost predicate WasStored(cfg: Config, committed: seq<Event>, o: Order)
    requires AllDeliverable(committed, cfg.sub)
  {
    exists n: nat :: IsVersionOf(cfg, committed, o, n)
  }

  /** The order was stored at some time; for a handler, with its own event. */
  ghost predicate WasSeen(cfg: Config, committed: seq<Event>, p: Process, o: Order)
    requires AllDeliverable(committed, cfg.sub)
  {
    exists n: nat :: IsVersionOf(cfg, committed, o, n) && (p.Handler? ==> committed[n - 1] == p.event)
  }

  ghost predicate WasCalledFor(cfg: Config, committed: seq<Event>, call: Call)
    requires AllDeliverable(committed, cfg.sub)
  {
    exists o :: WasStored(cfg, committed, o) && CallsFor(o, call)
  }

  ghost predicate SawCall(cfg: Config, committed: seq<Event>, p: Process, call: Call)
    requires AllDeliverable(committed, cfg.sub)
  {
    exists o :: WasSeen(cfg, committed, p, o) && CallsFor(o, call)
  }

  lemma SeenWasStored(cfg: Config, committed: seq<Event>, p: Process, o: Order)
    requires AllDeliverable(committed, cfg.sub) && WasSeen(cfg, committed, p, o)
    ensures WasStored(cfg, committed, o)
  {
  }

  lemma SawWasCalledFor(cfg: Config, committed: seq<Event>, p: Process, call: Call)
    requires AllDeliverable(committed, cfg.sub) && SawCall(cfg, committed, p, call)
    ensures WasCalledFor(cfg, committed, call)
  {
    var o :| WasSeen(cfg, committed, p, o) && CallsFor(o, call);
    SeenWasStored(cfg, committed, p, o);
  }

  lemma VersionStays(cfg: Config, committed: seq<Event>, e: Event, o: Order, n: nat)
    requires AllDeliverable(committed + [e], cfg.sub) && AllDeliverable(committed, cfg.sub)
    requires IsVersionOf(cfg, committed, o, n)
    ensures IsVersionOf(cfg, committed + [e], o, n)
  {
    assert (committed + [e])[..n] == committed[..n];
  }

  lemma SeenStays(cfg: Config, committed: seq<Event>, e: Event, p: Process, o: Order)
    requires AllDeliverable(committed + [e], cfg.sub) && AllDeliverable(committed, cfg.sub)
    ensures WasSeen(cfg, committed, p, o) ==> WasSeen(cfg, committed + [e], p, o)
    ensures WasStored(cfg, committed, o) ==> WasStored(cfg, committed + [e], o)
  {
    if WasSeen(cfg, committed, p, o) {
      var n: nat :| IsVersionOf(cfg, committed, o, n) && (p.Handler? ==> committed[n - 1] == p.event);
      VersionStays(cfg, committed, e, o, n);
    }
    if WasStored(cfg, committed, o) {
      var n: nat :| IsVersionOf(cfg, committed, o, n);
      VersionStays(cfg, committed, e, o, n);
    }
    hide IsVersionOf;
  }

  lemma CallsStay(cfg: Config, committed: seq<Event>, e: Event, p: Process, call: Call)
    requires AllDeliverable(committed + [e], cfg.sub) && AllDeliverable(committed, cfg.sub)
    ensures SawCall(cfg, committed, p, call) ==> SawCall(cfg, committed + [e], p, call)
    ensures WasCalledFor(cfg, committed, call) ==> WasCalledFor(cfg, committed + [e], call)
  {
    hide WasSeen, WasStored, CallsFor;
    if SawCall(cfg, committed, p, call) {
      var o :| WasSeen(cfg, committed, p, o) && CallsFor(o, call);
      SeenStays(cfg, committed, e, p, o);
    }
    if WasCalledFor(cfg, committed, call) {
      var o :| WasStored(cfg, committed, o) && CallsFor(o, call);
      SeenStays(cfg, committed, e, p, o);
    }
  }

  lemma CurrentWasStored(cfg: Config, w: World, p: Process)
    requires StoredIsReplay(cfg, w) && w.shard.order.Some?
    requires p.Handler? ==> w.committed != [] && w.committed[|w.committed| - 1] == p.event
    ensures WasSeen(cfg, w.committed, p, w.shard.order.value)
  {
    assert w.committed[..|w.committed|] == w.committed;
    assert IsVersionOf(cfg, w.committed, w.shard.order.value, |w.committed|);
  }

  /** The mode of an order that was stored is the mode of every later one. */
  lemma ModeStays(cfg: Config, w: World, o: Order)
    requires StoredIsReplay(cfg, w) && WasStored(cfg, w.committed, o) && o.mode.Some?
    ensures w.shard.order.Some? && w.shard.order.value.mode == o.mode
  {
    var n: nat :| IsVersionOf(cfg, w.committed, o, n);
    var before, after := w.committed[..n], w.committed[n..];
    assert before + after == w.committed;
    IdentityIsImmutable(before, after, cfg.sub);
  }

  // ---------------------------------------------------------------------------
  // What a process has been called for
  // ---------------------------------------------------------------------------

  /** The order that a process carries along. */
  function Carried(pc: Pc): Option<Order> {
    match pc
    case Handling(at) => if at.GetJob? || at.Create? then Some(at.order) else None
    case Transition(_, _, _, cont) => if cont.ForWorker? then Some(cont.order) else None
    case Outside(at) => if at.RunGetJob? || at.RunStart? then Some(at.order) else None
    case _ => None
  }

  /** The call for an operation on a job of a mode. */
  function CallFor(op: Operation, mode: DeploymentMode): Call {
    match op
    case Provisioning => ForService(mode)
    case Suspension => ForSuspension
    case Compensation => ForEnd
  }

  /** What a process must have seen called for where it stands. */
  function Calls(p: Process): Option<Call> {
    match p.pc
    case Transition(_, op, _, _) => Some(CallFor(op, Shared))
    case Steps(_, _) => if p.Worker? then Some(ForService(p.mode)) else None
    case Undo(_, _) => if p.Worker? then Some(ForCustomer(p.mode)) else None
    case _ => None
  }

  predicate CallsForService(o: Order) {
    o.mode.Some? && CallsFor(o, ForService(o.mode.value))
  }

  ghost predicate PcCalled(cfg: Config, committed: seq<Event>, p: Process)
    requires AllDeliverable(committed, cfg.sub)
  {
    && (Carried(p.pc).Some? ==> WasSeen(cfg, committed, p, Carried(p.pc).value))
    && (Calls(p).Some? ==> SawCall(cfg, committed, p, Calls(p).value))
    && (p.pc.Handling? && p.pc.h.Create? ==> CallsForService(p.pc.h.order))
    && (p.pc.Handling? && p.pc.h.Resume? ==> exists o :: WasSeen(cfg, committed, p, o) && CallsForService(o))
  }

  /** A version of the job: its tenant is of the order's mode, and its operation was called
      for. */
  ghost predicate JobCalled(cfg: Config, committed: seq<Event>, j: Job)
    requires AllDeliverable(committed, cfg.sub)
  {
    && j.tenantId.subscriptionId == cfg.sub
    && WasCalledFor(cfg, committed, ForService(j.tenantId.mode))
    && WasCalledFor(cfg, committed, CallFor(j.operation, j.tenantId.mode))
  }

  ghost predicate CalledOk(cfg: Config, w: World) {
    && StoredIsReplay(cfg, w)
    && (forall pid :: pid in w.procs ==> PcCalled(cfg, w.committed, w.procs[pid]))
    && (forall j :: j in w.history ==> JobCalled(cfg, w.committed, j))
  }

  // ---------------------------------------------------------------------------
  // One step
  // ---------------------------------------------------------------------------

  /** How a process gets to where something must have been called for. */
  predicate CallFlows(sh: Shard, p: Process, m: Move) {
    m.next.Goto? ==>
      match m.next.pc
      case Handling(at) =>
        && (at.GetJob? ==> m.op.SetOrder? && at.order == m.op.order)
        && (at.Create? ==> p.pc.Handling? && p.pc.h.GetJob? && at.order == p.pc.h.order && CallsForService(at.order))
        && (at.Resume? ==> p.pc.Handling? && p.pc.h.GetJob? && CallsForService(p.pc.h.order))
      case Transition(_, op, _, cont) =>
        || (p.pc.Transition? && op == p.pc.operation && cont == p.pc.cont)
        || (p.pc.Handling? && p.pc.h.GetJob? && CallsFor(p.pc.h.order, CallFor(op, Shared)) && cont.ForHandler?)
        || (p.pc.Outside? && p.pc.r.RunGetJob? && CallsFor(p.pc.r.order, CallFor(op, Shared)) && cont == ForWorker(p.pc.r.order))
      case Outside(at) =>
        && (at.RunGetJob? ==> sh.order == Some(at.order))
        && (at.RunStart? ==> Carried(p.pc) == Some(at.order))
      case Steps(_, _) =>
        p.Worker? && (p.pc.Steps? || (Carried(p.pc).Some? && CallsFor(Carried(p.pc).value, ForService(p.mode))))
      case Undo(_, _) =>
        p.Worker? && (p.pc.Undo? || (Carried(p.pc).Some? && CallsFor(Carried(p.pc).value, ForCustomer(p.mode))))
  }

  lemma ProceedCalls(p: Process, order: Order, job: Job)
    requires p.Worker?
    ensures var next := Proceed(p, order, job);
            && next.Goto?
            && ((next.pc.Outside? && !next.pc.r.RunGetJob? && (next.pc.r.RunStart? ==> next.pc.r.order == order))
                || (next.pc.Steps? && CallsFor(order, ForService(p.mode)))
                || (next.pc.Undo? && CallsFor(order, ForCustomer(p.mode))))
  {
    hide StartProvisioningAttempt, IsStepJob, IsUndoJob;
  }

  lemma DispatchCalls(p: Process, order: Order, job: Job)
    requires p.Worker?
    ensures var next := Dispatch(p, order, job);
            && next.Goto?
            && ((next.pc.Outside? && !next.pc.r.RunGetJob? && !next.pc.r.RunStart?)
                || (next.pc.Steps? && CallsFor(order, ForService(p.mode)))
                || (next.pc.Undo? && CallsFor(order, ForCustomer(p.mode))))
  {
    hide IsStepJob, IsUndoJob;
  }

  lemma HandlerCalls(sh: Shard, p: Process, m: Move)
    requires p.Handler? && p.pc.Handling? && PlanHandler(sh, p.event, p.policy, p.pc.h) == Some(m)
    ensures CallFlows(sh, p, m)
  {
    hide ReduceBillingEvent, DecidePutOrder, DecidePutJob, ResumeProvisioningJob, CreateProvisioningJob;
  }

  lemma TransitionCalls(
    sh: Shard, p: Process, at: TransitionPc, op: Operation, tries: nat, cont: Continuation, c: Choice, m: Move)
    requires p.pc == Transition(at, op, tries, cont) && PlanTransition(sh, p, at, op, tries, cont, c) == Some(m)
    ensures CallFlows(sh, p, m)
  {
    hide TransitionTarget, Proceed, SaveJob, CallsFor;
    if cont.ForWorker? && p.Worker? {
      if at.ListRecords? { ProceedCalls(p, cont.order, at.job); }
      if m.op.SetJob? { ProceedCalls(p, cont.order, m.op.job); }
    }
  }

  lemma RunCalls(sh: Shard, p: Process, at: RunPc, c: Choice, m: Move)
    requires p.Worker? && p.pc == Outside(at) && PlanRun(sh, p, at, c) == Some(m)
    ensures CallFlows(sh, p, m)
  {
    hide StartProvisioningAttempt, FailProvisioningAttempt, Proceed, Dispatch, DecideRenew, SaveJob;
    if at.RunGetJob? && sh.job.Some? { ProceedCalls(p, at.order, sh.job.value); }
    if at.RunStart? && m.op.SetJob? { DispatchCalls(p, at.order, m.op.job); }
  }

  lemma LoopCalls(cfg: Config, sh: Shard, secrets: set<Publication>, p: Process, c: Choice, m: Move)
    requires p.Worker? && !c.Threw? && Plan(cfg, sh, secrets, p, c) == Some(m)
    requires p.pc.Steps? || p.pc.Undo?
    ensures CallFlows(sh, p, m)
  {
    hide DecideBegin, DecideBind, DecidePublish, DecideRevoke, DecideRenew, NewPointer, Receipt, IsStepJob, IsUndoJob,
      CompleteProvisioningStep, CompleteCompensationStep, NeedsHandoff, StepOf, UndoStepOf, Disposed, DispositionsWellFormed,
      RecordsOfStep, DecidePutResource, ListsShard, RecordFor, SaveJob, CallsFor;
  }

  lemma PlanCalls(cfg: Config, sh: Shard, secrets: set<Publication>, p: Process, c: Choice, m: Move)
    requires Plan(cfg, sh, secrets, p, c) == Some(m)
    ensures CallFlows(sh, p, m)
  {
    hide PlanHandler, PlanTransition, PlanRun, PlanSteps, PlanUndo, PlanHandoff, CallsFor;
    if c.Threw? && !(p.pc.Outside? && p.pc.r.Releasing?) { return; }
    match p.pc
    case Handling(at) => HandlerCalls(sh, p, m);
    case Transition(at, op, tries, cont) => TransitionCalls(sh, p, at, op, tries, cont, c, m);
    case Outside(at) => RunCalls(sh, p, at, c, m);
    case Steps(_, _) => LoopCalls(cfg, sh, secrets, p, c, m);
    case Undo(_, _) => LoopCalls(cfg, sh, secrets, p, c, m);
  }

  // ---------------------------------------------------------------------------
  // Every run
  // ---------------------------------------------------------------------------

  lemma GrownKeepsPcCalled(cfg: Config, committed: seq<Event>, e: Event, p: Process)
    requires AllDeliverable(committed + [e], cfg.sub) && AllDeliverable(committed, cfg.sub)
    requires PcCalled(cfg, committed, p)
    ensures PcCalled(cfg, committed + [e], p)
  {
    hide WasSeen, SawCall, CallsForService;
    if Carried(p.pc).Some? { SeenStays(cfg, committed, e, p, Carried(p.pc).value); }
    if Calls(p).Some? { CallsStay(cfg, committed, e, p, Calls(p).value); }
    if p.pc.Handling? && p.pc.h.Resume? {
      var o :| WasSeen(cfg, committed, p, o) && CallsForService(o);
      SeenStays(cfg, committed, e, p, o);
    }
  }

  lemma GrownKeepsJobCalled(cfg: Config, committed: seq<Event>, e: Event, j: Job, p: Process)
    requires AllDeliverable(committed + [e], cfg.sub) && AllDeliverable(committed, cfg.sub)
    requires JobCalled(cfg, committed, j)
    ensures JobCalled(cfg, committed + [e], j)
  {
    CallsStay(cfg, committed, e, p, ForService(j.tenantId.mode));
    CallsStay(cfg, committed, e, p, CallFor(j.operation, j.tenantId.mode));
    hide WasCalledFor;
  }

  /** What a process has seen does not depend on where it stands. */
  lemma SameSight(cfg: Config, committed: seq<Event>, p: Process, p': Process, o: Order)
    requires AllDeliverable(committed, cfg.sub)
    requires p.Worker? == p'.Worker? && (p.Handler? ==> p.event == p'.event)
    ensures WasSeen(cfg, committed, p, o) <==> WasSeen(cfg, committed, p', o)
  {
    hide IsVersionOf;
  }

  lemma SawIt(cfg: Config, committed: seq<Event>, p: Process, o: Order, call: Call)
    requires AllDeliverable(committed, cfg.sub) && WasSeen(cfg, committed, p, o) && CallsFor(o, call)
    ensures SawCall(cfg, committed, p, call)
  {
  }

  lemma SameCalls(cfg: Config, committed: seq<Event>, p: Process, p': Process, call: Call)
    requires AllDeliverable(committed, cfg.sub)
    requires p.Worker? == p'.Worker? && (p.Handler? ==> p.event == p'.event)
    requires SawCall(cfg, committed, p, call)
    ensures SawCall(cfg, committed, p', call)
  {
    var o :| WasSeen(cfg, committed, p, o) && CallsFor(o, call);
    SameSight(cfg, committed, p, p', o);
    SawIt(cfg, committed, p', o, call);
  }

  /** What the world after a move shows a process. */
  ghost predicate ShownTo(cfg: Config, w: World, p: Process, m: Move, w': World) {
    && StoredIsReplay(cfg, w')
    && w'.shard.order == (if m.op.SetOrder? then Some(m.op.order) else w.shard.order)
    && (m.op.SetOrder? ==> p.Handler? && w'.committed != [] && w'.committed[|w'.committed| - 1] == p.event)
  }

  /** Where a move leads, everything has been called for that must be. */
  lemma MovedIsCalled(cfg: Config, w: World, p: Process, m: Move, w': World, p': Process)
    requires ShownTo(cfg, w, p, m, w') && PcCalled(cfg, w'.committed, p) && CallFlows(w.shard, p, m) && Successor(p, m, p')
    requires p.Worker? ==> p'.mode == p.mode
    requires m.next.Goto? && m.next.pc.Outside? && m.next.pc.r.RunGetJob? ==> p.Worker?
    ensures PcCalled(cfg, w'.committed, p')
  {
    SuccessorShape(p, m, p');
    hide Advance, SawCall, WasSeen, CallsFor, CallFlows, ShownTo, StoredIsReplay;
    if m.next.Goto? {
      if m.next.pc.Steps? || m.next.pc.Undo? { LoopIsCalled(cfg, w, p, m, w', p'); } else { OutsideIsCalled(cfg, w, p, m, w', p'); }
    }
  }

  lemma LoopIsCalled(cfg: Config, w: World, p: Process, m: Move, w': World, p': Process)
    requires ShownTo(cfg, w, p, m, w') && PcCalled(cfg, w'.committed, p) && CallFlows(w.shard, p, m)
    requires m.next.Goto? && (m.next.pc.Steps? || m.next.pc.Undo?) && p'.pc == m.next.pc
    requires p.Worker? == p'.Worker? && (p.Worker? ==> p'.mode == p.mode) && (p.Handler? ==> p'.event == p.event)
    ensures PcCalled(cfg, w'.committed, p')
  {
    var h := w'.committed;
    hide SawCall, WasSeen, CallsFor;
    var call := if m.next.pc.Steps? then ForService(p.mode) else ForCustomer(p.mode);
    if Calls(p) == Some(call) {
      SameCalls(cfg, h, p, p', call);
    } else {
      SameSight(cfg, h, p, p', Carried(p.pc).value);
      SawIt(cfg, h, p', Carried(p.pc).value, call);
    }
  }

  lemma OutsideIsCalled(cfg: Config, w: World, p: Process, m: Move, w': World, p': Process)
    requires ShownTo(cfg, w, p, m, w') && PcCalled(cfg, w'.committed, p) && CallFlows(w.shard, p, m)
    requires m.next.Goto? && !m.next.pc.Steps? && !m.next.pc.Undo? && p'.pc == m.next.pc
    requires p.Worker? == p'.Worker? && (p.Handler? ==> p'.event == p.event)
    requires m.next.pc.Outside? && m.next.pc.r.RunGetJob? ==> p.Worker?
    ensures PcCalled(cfg, w'.committed, p')
  {
    var h := w'.committed;
    if Carried(p.pc).Some? { SameSight(cfg, h, p, p', Carried(p.pc).value); }
    hide SawCall, WasSeen, CallsFor, StoredIsReplay;
    match m.next.pc
    case Handling(at) =>
      if at.GetJob? { CurrentWasStored(cfg, w', p'); }
      if at.Resume? { assert WasSeen(cfg, h, p', p.pc.h.order) && CallsForService(p.pc.h.order); }
    case Transition(_, op, _, cont) =>
      if p.pc.Transition? { SameCalls(cfg, h, p, p', CallFor(op, Shared)); }
      else { SawIt(cfg, h, p', Carried(p.pc).value, CallFor(op, Shared)); }
    case Outside(at) => if at.RunGetJob? { CurrentWasStored(cfg, w', p'); }
  }

  /** A transition keeps the tenant, and changes the operation only to what it is for. */
  lemma EventKeepsTenant(job: Job, ev: JobEvent)
    requires Apply(job, ev).Ok?
    ensures var next := Apply(job, ev).value;
            && next.tenantId == job.tenantId
            && next.operation == (match ev case CompensationBegun(_, op) => op case Resumed => Provisioning case _ => job.operation)
  {
    hide ObservedPrefix, AllIn, LastOutside, RetryDelayMs, NextProvisioningStep, InFlightSteps;
  }

  lemma CreatedTenant(order: Order, policy: RetryPolicy)
    requires CreateProvisioningJob(order, policy).Ok?
    ensures order.mode.Some?
    ensures var job := CreateProvisioningJob(order, policy).value;
            job.tenantId == TenantId(order.subscriptionId, order.mode.value) && job.operation == Provisioning
  {
  }

  lemma CreatedIsCalled(cfg: Config, committed: seq<Event>, p: Process, stored: Job)
    requires AllDeliverable(committed, cfg.sub) && PcCalled(cfg, committed, p) && HandlerOk(cfg, p)
    requires Creates(p) && CreateProvisioningJob(p.pc.h.order, p.policy) == Ok(stored)
    ensures JobCalled(cfg, committed, stored)
  {
    var o := p.pc.h.order;
    CreatedTenant(o, p.policy);
    SawIt(cfg, committed, p, o, ForService(o.mode.value));
    SawWasCalledFor(cfg, committed, p, ForService(o.mode.value));
    hide WasCalledFor, WasSeen, SawCall, CallsFor, CreateProvisioningJob;
  }

  lemma PutIsCalled(cfg: Config, w: World, p: Process, stored: Job)
    requires AllDeliverable(w.committed, cfg.sub) && PcCalled(cfg, w.committed, p) && ProcessOk(cfg, w, p)
    requires JobPut(w.shard, p, stored) && forall j :: j in w.history ==> JobCalled(cfg, w.committed, j)
    ensures JobCalled(cfg, w.committed, stored)
  {
    hide CounterOk, Apply, WasSeen, SawCall, WasCalledFor, CallsForService;
    if Creates(p) {
      CreatedIsCalled(cfg, w.committed, p, stored);
    } else {
      var read, ev := SnapshotOf(p.pc).value, EventOf(p).value;
      EventKeepsTenant(read, ev);
      assert read in w.history;
      if ev.CompensationBegun? {
        SawWasCalledFor(cfg, w.committed, p, CallFor(ev.operation, Shared));
        TransitionIsNotProvisioning(p);
      }
    }
  }

  lemma TransitionIsNotProvisioning(p: Process)
    requires CounterOk(p) && p.pc.Transition?
    ensures p.pc.operation != Provisioning
  {
    hide TransitionTarget, IsStepJob, IsUndoJob, StartProvisioningAttempt;
  }

  /** What the proof of a step needs to know of the step. */
  ghost predicate CalledStep(cfg: Config, w: World, p: Process, m: Move, w': World) {
    && StoredIsReplay(cfg, w) && StoredIsReplay(cfg, w')
    && AllDeliverable(w.committed, cfg.sub) && AllDeliverable(w'.committed, cfg.sub)
    && w'.committed == (if m.op.SetOrder? then w.committed + [m.op.event] else w.committed)
    && w'.history == (if m.op.SetJob? then w.history + [m.op.job] else w.history)
    && w'.shard.order == (if m.op.SetOrder? then Some(m.op.order) else w.shard.order)
    && (m.op.SetOrder? ==> p.Handler? && m.op.event == p.event && AllDeliverable(w.committed + [m.op.event], cfg.sub))
    && (m.op.SetJob? ==> JobPut(w.shard, p, m.op.job))
    && CallFlows(w.shard, p, m) && ProcessOk(cfg, w, p)
    && (m.next.Goto? && m.next.pc.Outside? && m.next.pc.r.RunGetJob? ==> p.Worker?)
  }

  lemma MoveIsCalledStep(cfg: Config, w: World, pid: nat, c: Choice, m: Move, w': World)
    requires Core(cfg, w) && OrdersOk(cfg, w) && Moves(cfg, w, pid, c, m, w') && OrdersOk(cfg, w')
    ensures CalledStep(cfg, w, w.procs[pid], m, w')
  {
    hide Plan, HistoryOk, TokensDiffer, SnapshotsInOrder, CounterOk, HandlerOk, CallFlows, ReducedFromStored, JobPut, LoopFlow, CallFlow,
      SnapshotIsFresh, EntryFacts, OrderFlow, ApplyOp, StoredIsReplay, Advance;
    var p := w.procs[pid];
    MoveKeepsHistory(cfg, w, pid, c, m, w');
    PlanCalls(cfg, w.shard, w.secrets, p, c, m);
    OpTouches(w, TokenOfProcess(p), m.op);
    assert ProcessOk(cfg, w, p);
    hide ProcessOk, ProcessesOk;
    CommittedGrows(cfg, w, p, m, w');
    if m.next.Goto? && m.next.pc.Outside? && m.next.pc.r.RunGetJob? { ReadsOrder(cfg, w, p, c, m); }
  }

  lemma StepKeepsJobs(cfg: Config, w: World, p: Process, m: Move, w': World)
    requires CalledStep(cfg, w, p, m, w') && PcCalled(cfg, w.committed, p)
    requires forall j :: j in w.history ==> JobCalled(cfg, w.committed, j)
    ensures forall j :: j in w'.history ==> JobCalled(cfg, w'.committed, j)
  {
    hide JobCalled, PcCalled, JobPut, CallFlows, ProcessOk;
    if m.op.SetJob? { PutIsCalled(cfg, w, p, m.op.job); }
    forall j | j in w'.history ensures JobCalled(cfg, w'.committed, j) {
      if m.op.SetOrder? { GrownKeepsJobCalled(cfg, w.committed, m.op.event, j, p); }
    }
  }

  lemma MoveKeepsCalled(cfg: Config, w: World, pid: nat, c: Choice, m: Move, w': World)
    requires Core(cfg, w) && OrdersOk(cfg, w) && CalledOk(cfg, w) && Moves(cfg, w, pid, c, m, w') && OrdersOk(cfg, w')
    ensures CalledOk(cfg, w')
  {
    hide Plan, Core, OrdersOk, PcCalled, JobCalled, CallFlows, StoredIsReplay, ProcessOk, JobPut, ApplyOp, Advance;
    var p := w.procs[pid];
    MoveIsCalledStep(cfg, w, pid, c, m, w');
    StepKeepsJobs(cfg, w, p, m, w');
    forall q | q in w.procs ensures PcCalled(cfg, w'.committed, w.procs[q]) {
      if m.op.SetOrder? { GrownKeepsPcCalled(cfg, w.committed, m.op.event, w.procs[q]); }
    }
    MovesProcess(cfg, w, pid, c, m, w');
    if pid in w'.procs {
      AdvanceKeepsMode(p, m, w'.procs[pid]);
      MovedIsCalled(cfg, w, p, m, w', w'.procs[pid]);
    }
  }

  lemma MovesProcess(cfg: Config, w: World, pid: nat, c: Choice, m: Move, w': World)
    requires Moves(cfg, w, pid, c, m, w')
    ensures pid in w'.procs ==> Advance(w.procs[pid], m.next) == Some(w'.procs[pid])
    ensures forall q :: q in w'.procs && q != pid ==> q in w.procs && w'.procs[q] == w.procs[q]
  {
    hide Plan, Advance;
  }

  lemma CommittedGrows(cfg: Config, w: World, p: Process, m: Move, w': World)
    requires OrdersOk(cfg, w) && OrdersOk(cfg, w') && Flow(w.shard, p, m)
    requires w'.committed == if m.op.SetOrder? then w.committed + [m.op.event] else w.committed
    ensures AllDeliverable(w.committed, cfg.sub) && StoredIsReplay(cfg, w) && StoredIsReplay(cfg, w')
    ensures m.op.SetOrder? ==> p.Handler? && m.op.event == p.event && AllDeliverable(w.committed + [m.op.event], cfg.sub)
    ensures m.op.SetJob? ==> JobPut(w.shard, p, m.op.job)
  {
    hide ReducedFromStored, LoopFlow, CallFlow, JobPut, SnapshotIsFresh, EntryFacts, DecidePutOrder;
  }

  lemma AdvanceKeepsMode(p: Process, m: Move, p': Process)
    requires Advance(p, m.next) == Some(p')
    ensures Successor(p, m, p') && (p.Worker? ==> p'.Worker? && p'.mode == p.mode)
  {
  }

  lemma ReadsOrder(cfg: Config, w: World, p: Process, c: Choice, m: Move)
    requires Plan(cfg, w.shard, w.secrets, p, c) == Some(m) && m.next.Goto? && m.next.pc.Outside? && m.next.pc.r.RunGetJob?
    ensures p.Worker?
  {
    hide PlanHandoff, PlanSteps, PlanUndo, PlanRun, ReduceBillingEvent, TransitionTarget, Proceed;
  }

  lemma OtherKeepsCalled(cfg: Config, w: World, a: Action, w': World)
    requires CalledOk(cfg, w) && !a.Continue? && Perform(cfg, w, a) == Some(w')
    ensures CalledOk(cfg, w')
  {
    assert w'.committed == w.committed && w'.shard.order == w.shard.order && w'.history == w.history;
    assert forall q :: q in w'.procs && (q !in w.procs || w'.procs[q] != w.procs[q]) ==>
             w'.procs[q].pc == Outside(RunOwned) || w'.procs[q].pc == Handling(GetOrder(0));
    hide Perform, JobCalled, WasSeen, SawCall;
    forall q | q in w'.procs ensures PcCalled(cfg, w'.committed, w'.procs[q]) {
      if q in w.procs { assert PcCalled(cfg, w.committed, w.procs[q]); }
    }
  }

  lemma {:induction false} RunIsCalled(cfg: Config, actions: seq<Action>)
    requires Run(cfg, actions).Some?
    ensures CalledOk(cfg, Run(cfg, actions).value)
  {
    OrderRunIsSafe(cfg, actions);
    if actions != [] {
      var n := |actions| - 1;
      RunIsSafe(cfg, actions[..n]);
      OrderRunIsSafe(cfg, actions[..n]);
      RunIsCalled(cfg, actions[..n]);
      hide Core, EffectsOk, OrdersOk, CalledOk, Plan;
      var w, a, w' := Run(cfg, actions[..n]).value, actions[n], Run(cfg, actions).value;
      if a.Continue? {
        MoveKeepsCalled(cfg, w, a.pid, a.choice, Plan(cfg, w.shard, w.secrets, w.procs[a.pid], a.choice).value, w');
      } else {
        OtherKeepsCalled(cfg, w, a, w');
      }
    }
  }

  // ---------------------------------------------------------------------------
  // What that means
  // ---------------------------------------------------------------------------

  /** Inside its loops a worker is of the mode of the stored order. */
  lemma LoopsMatchMode(cfg: Config, actions: seq<Action>, pid: nat)
    requires Run(cfg, actions).Some? && pid in Run(cfg, actions).value.procs
    requires Run(cfg, actions).value.procs[pid].pc.Steps? || Run(cfg, actions).value.procs[pid].pc.Undo?
    ensures var w := Run(cfg, actions).value;
            w.procs[pid].Worker? && w.shard.order.Some? && w.shard.order.value.mode == Some(w.procs[pid].mode)
  {
    hide Run, CallsFor, IsVersionOf, ProcessOk, HistoryOk, EffectsOk;
    RunIsCalled(cfg, actions);
    RunIsSafe(cfg, actions);
    var w := Run(cfg, actions).value;
    InLoopIsWorker(cfg, w, pid);
    var p := w.procs[pid];
    assert PcCalled(cfg, w.committed, p);
    var o :| WasSeen(cfg, w.committed, p, o) && CallsFor(o, Calls(p).value);
    SeenWasStored(cfg, w.committed, p, o);
    CallNamesMode(o, Calls(p).value);
    hide WasSeen, WasStored;
    ModeStays(cfg, w, o);
  }

  lemma CallNamesMode(o: Order, call: Call)
    requires CallsFor(o, call) && (call.ForService? || call.ForCustomer?)
    ensures o.mode == Some(call.mode)
  {
  }

  lemma InLoopIsWorker(cfg: Config, w: World, pid: nat)
    requires Core(cfg, w) && pid in w.procs && (w.procs[pid].pc.Steps? || w.procs[pid].pc.Undo?)
    ensures w.procs[pid].Worker?
  {
    hide HistoryOk, HandlerOk, IsStepJob, IsUndoJob, TokensDiffer, SnapshotsInOrder;
    assert ProcessOk(cfg, w, w.procs[pid]);
  }

  lemma CalledWasSaid(cfg: Config, committed: seq<Event>, call: Call)
    requires AllDeliverable(committed, cfg.sub) && WasCalledFor(cfg, committed, call)
    ensures call.ForService? ==> exists e :: e in committed && Says(e, Active)
    ensures call.ForSuspension? ==> exists e :: e in committed && Says(e, PastDue)
    ensures call.ForEnd? ==> exists e :: e in committed && (Says(e, Canceled) || Says(e, Refunded))
    ensures call == ForService(Dedicated) ==> exists e :: e in committed && e.plan == Some(Scale)
    ensures call.ForService? || call.ForCustomer? ==> exists e :: e in committed && e.mode == Some(call.mode)
  {
    var o :| WasStored(cfg, committed, o) && CallsFor(o, call);
    var n: nat :| IsVersionOf(cfg, committed, o, n);
    var events := committed[..n];
    assert forall e :: e in events ==> e in committed;
    StateWasSaid(events, cfg.sub);
    IdentityIsTheFirst(events, cfg.sub);
    PlanWasNamed(events, cfg.sub);
    hide Replay, Says;
    if o.mode.Some? { FirstKnownIsKnown(events, (e: Event) => e.mode); }
  }

  lemma {:induction false} FirstKnownIsKnown<T>(events: seq<Event>, field: Event -> Option<T>)
    requires FirstKnown(events, field).Some?
    ensures exists e :: e in events && field(e) == FirstKnown(events, field)
  {
    if field(events[0]).Some? { assert events[0] in events; }
    else {
      FirstKnownIsKnown(events[1..], field);
      var e :| e in events[1..] && field(e) == FirstKnown(events, field);
      assert e in events;
    }
  }

  /** Every version of the job is wanted: its tenant is of a mode in which some version of
      the order called for service, so somebody paid; a suspension follows a failed payment,
      and an end a cancellation or a refund. */
  lemma JobsAreCalledFor(cfg: Config, actions: seq<Action>, j: Job)
    requires Run(cfg, actions).Some? && j in Run(cfg, actions).value.history
    ensures var h := Run(cfg, actions).value.committed;
            && AllDeliverable(h, cfg.sub)
            && WasCalledFor(cfg, h, ForService(j.tenantId.mode)) && j.tenantId.subscriptionId == cfg.sub
            && (exists e :: e in h && Says(e, Active))
            && (j.operation == Suspension ==> WasCalledFor(cfg, h, ForSuspension) && exists e :: e in h && Says(e, PastDue))
            && (j.operation == Compensation ==>
                  WasCalledFor(cfg, h, ForEnd) && exists e :: e in h && (Says(e, Canceled) || Says(e, Refunded)))
  {
    RunIsCalled(cfg, actions);
    var h := Run(cfg, actions).value.committed;
    hide Run, Says, WasCalledFor;
    assert JobCalled(cfg, h, j);
    CalledWasSaid(cfg, h, ForService(j.tenantId.mode));
    CalledWasSaid(cfg, h, CallFor(j.operation, j.tenantId.mode));
  }

  /** Every provider call is made by a worker of the stored order's mode: a step only after
      a version of the order called for service in that mode, so that somebody paid; and a
      compensation only on behalf of a job that was suspended or ended. */
  lemma EffectsAreCalledFor(cfg: Config, actions: seq<Action>, pid: nat, c: Choice, effect: Effect)
    requires Run(cfg, actions).Some? && Perform(cfg, Run(cfg, actions).value, Continue(pid, c)).Some?
    requires var w := Run(cfg, actions).value;
             Perform(cfg, w, Continue(pid, c)).value.log == w.log + [effect]
    ensures var w := Run(cfg, actions).value; var p := w.procs[pid];
            && AllDeliverable(w.committed, cfg.sub)
            && p.Worker? && w.shard.order.Some? && w.shard.order.value.mode == Some(p.mode)
            && effect.version < |w.history|
            && (effect.Executed? ==>
                  && w.history[effect.version].operation == Provisioning
                  && WasCalledFor(cfg, w.committed, ForService(p.mode)) && exists e :: e in w.committed && Says(e, Active))
            && (effect.Undone? ==>
                  && w.history[effect.version].operation != Provisioning
                  && exists e :: e in w.committed && (Says(e, PastDue) || Says(e, Canceled) || Says(e, Refunded)))
  {
    var w := Run(cfg, actions).value;
    var p := w.procs[pid];
    var m := Plan(cfg, w.shard, w.secrets, p, c).value;
    RunIsSafe(cfg, actions);
    RunIsCalled(cfg, actions);
    assert ProcessOk(cfg, w, p);
    hide Run, Plan, Says, WasCalledFor;
    PlanFlow(cfg, w.shard, w.secrets, p, c, m);
    OpTouches(w, TokenOfProcess(p), m.op);
    EffectIsCall(w, m, p, effect);
    LoopsMatchMode(cfg, actions, pid);
    assert PcCalled(cfg, w.committed, p);
    SawWasCalledFor(cfg, w.committed, p, Calls(p).value);
    var j := w.history[effect.version];
    assert j in w.history;
    JobsAreCalledFor(cfg, actions, j);
  }

  lemma EffectIsCall(w: World, m: Move, p: Process, effect: Effect)
    requires CallFlow(w.shard, p, m) && CounterOk(p) && ApplyOp(w, TokenOfProcess(p), m.op).log == w.log + [effect]
    ensures m.op.Execute? || m.op.Compensate?
    ensures p.pc.Steps? || p.pc.Undo?
    ensures effect.version == p.pc.job.version
    ensures effect.Executed? == p.pc.Steps?
    ensures p.pc.job.operation == Provisioning <==> p.pc.Steps?
  {
    assert ApplyOp(w, TokenOfProcess(p), m.op).log[|w.log|] == effect;
    hide TransitionTarget, StartProvisioningAttempt;
  }

  /** What a run does with a job that has started, for an order that has not ended: it works
      for its own mode and for an order that calls for service, and otherwise saves a failure
      that is not worth another attempt. */
  lemma RunDecides(cfg: Config, sh: Shard, secrets: set<Publication>, p: Process, order: Order, job: Job)
    requires p.Worker? && p.pc == Outside(RunGetJob(order)) && sh.job == Some(job) && p.now >= 0
    requires order.billingState == Pending || order.billingState == Active
    requires JobOk(job) && job.state == Running
    ensures Plan(cfg, sh, secrets, p, Go) == Some(Move(Nothing, Goto(
              if order.mode != Some(p.mode) then Outside(SaveFailure(job, SafeFailure(ModeMismatch, false)))
              else if !CallsFor(order, ForService(p.mode)) then Outside(SaveFailure(job, SafeFailure(InvalidOrder, false)))
              else Steps(job, StepOwned))))
  {
    PrefixIsTake(job.completedSteps);
    assert NextProvisioningStep(job).Some?;
    assert IsProvisionableOrder(order) && order.mode == Some(p.mode) <==> CallsFor(order, ForService(p.mode));
    hide IsProvisionableOrder, CallsFor, JobOk;
  }

  /** A handler acts on the order that its own event left: it creates or resumes a job only
      if that order calls for service, and turns one only if it calls for that. */
  lemma HandlersAreCalled(cfg: Config, actions: seq<Action>, pid: nat)
    requires Run(cfg, actions).Some? && pid in Run(cfg, actions).value.procs && Run(cfg, actions).value.procs[pid].Handler?
    ensures var w := Run(cfg, actions).value; var p := w.procs[pid];
            && AllDeliverable(w.committed, cfg.sub)
            && (p.pc.Handling? && (p.pc.h.Create? || p.pc.h.Resume?) ==>
                  exists o, n: nat :: IsVersionOf(cfg, w.committed, o, n) && w.committed[n - 1] == p.event && CallsForService(o))
            && (p.pc.Transition? ==>
                  exists o, n: nat ::
                    IsVersionOf(cfg, w.committed, o, n) && w.committed[n - 1] == p.event && CallsFor(o, CallFor(p.pc.operation, Shared)))
  {
    RunIsCalled(cfg, actions);
    var w := Run(cfg, actions).value;
    var p := w.procs[pid];
    hide Run, CallsFor, IsVersionOf;
    assert PcCalled(cfg, w.committed, p);
  }

  // ---------------------------------------------------------------------------
  // Failures
  // ---------------------------------------------------------------------------

  /** What a failed attempt leaves: the step lists as they were, the error, and a time for
      another attempt if the failure is worth one and attempts are left. */
  function FailedWith(job: Job, failure: SafeFailure, now: int): Job {
    var again := failure.retryable && job.attempt < job.retryPolicy.maxAttempts;
    job.(version := job.version + 1, state := JobState.Failed, lastErrorCode := Some(failure.code), retryExhausted := !again,
         nextRetryAt := if again then Some(now + RetryDelayMs(job)) else None)
  }

  /** Whatever is thrown inside a loop is saved on the job, the provider's errors after their
      effect among them. */
  lemma FailuresAreSaved(cfg: Config, w: World, pid: nat, c: Choice, w': World)
    requires pid in w.procs && w.procs[pid].Worker? && (w.procs[pid].pc.Steps? || w.procs[pid].pc.Undo?)
    requires Perform(cfg, w, Continue(pid, c)) == Some(w')
    requires c.Threw? || (c.ThrewAfterEffect? && (w.procs[pid].pc == Steps(w.procs[pid].pc.job, StepExecute(NotNeeded))
                                                  || (w.procs[pid].pc.Undo? && w.procs[pid].pc.u.UndoCompensate?)))
    ensures pid in w'.procs && w'.procs[pid].pc == Outside(SaveFailure(w.procs[pid].pc.job, c.thrown))
    ensures c.ThrewAfterEffect? ==> |w'.log| == |w.log| + 1
    ensures w'.shard == w.shard
  {
    hide PlanHandler, PlanTransition, PlanRun, PlanHandoff, ListsShard, StepOf, UndoStepOf;
  }

  lemma FailureIsStored(cfg: Config, w: World, pid: nat, job: Job, failure: SafeFailure, w': World)
    requires pid in w.procs && w.procs[pid].Worker? && w.procs[pid].pc == Outside(SaveFailure(job, failure))
    requires Perform(cfg, w, Continue(pid, Go)) == Some(w') && w.shard.job == Some(job) && JobOk(job) && w.procs[pid].now >= 0
    requires job.attempt >= 1 && (job.state == Running || job.state == Compensating)
    ensures w'.shard.job == Some(FailedWith(job, failure, w.procs[pid].now))
    ensures pid in w'.procs && w'.procs[pid].pc == Outside(Releasing)
  {
    hide RetryDelayMs;
  }

  // ---------------------------------------------------------------------------
  // Giving up
  // ---------------------------------------------------------------------------

  /** How often a conflict is worth another attempt: an order is written up to four times, a
      job turned up to three times, and a run begun again up to twice. */
  lemma ConflictsAreRetried(cfg: Config, w: World, pid: nat, w': World)
    requires pid in w.procs && Perform(cfg, w, Continue(pid, Go)) == Some(w')
    ensures var p := w.procs[pid];
            && (p.Handler? && p.pc.Handling? && p.pc.h.PutOrder? && w'.shard.order == w.shard.order && w'.committed == w.committed ==>
                  if p.pc.h.attempt == 3 then pid !in w'.procs
                  else pid in w'.procs && w'.procs[pid].pc == Handling(GetOrder(p.pc.h.attempt + 1)))
            && (p.Handler? && p.pc.Transition? && p.pc.t.GetJobAgain? && w.shard.job.Some? ==>
                  (pid in w'.procs <==> p.pc.tries < 3))
            && (p.Worker? && p.pc.Transition? && p.pc.t.GetJobAgain? && p.pc.tries >= 3 ==>
                  pid in w'.procs && w'.procs[pid].pc == (if p.conflictsLeft == 0 then Outside(Releasing) else Outside(RunOwned))
                  && w'.procs[pid].conflictsLeft == (if p.conflictsLeft == 0 then 0 else p.conflictsLeft - 1))
  {
    hide ReduceBillingEvent, TransitionTarget, PlanHandoff, PlanSteps, PlanUndo, PlanRun, ListsShard;
  }

  lemma RunsBeginAgainTwice(cfg: Config, w: World, pid: nat, owner: string, at: int, d: int, mode: DeploymentMode, handoff: bool, now: int)
    requires Perform(cfg, w, StartRun(pid, owner, at, d, mode, handoff, now)).Some?
    ensures var p := Perform(cfg, w, StartRun(pid, owner, at, d, mode, handoff, now)).value.procs[pid];
            p.Worker? && p.conflictsLeft == 2 && p.mode == mode && p.now == now && p.hasHandoff == handoff && p.lease.ownerId == owner
  {
  }

  // ---------------------------------------------------------------------------
  // Credentials
  // ---------------------------------------------------------------------------

  /** Past the look at the records a worker has a handoff, if its step needs one. */
  predicate HandoffAtHand(cfg: Config, p: Process) {
    p.Worker? && p.pc.Steps? && !p.pc.s.StepOwned? && !p.pc.s.StepList? && NeedsHandoff(cfg, p.pc.job) ==> p.hasHandoff
  }

  lemma MoveKeepsHandoff(cfg: Config, sh: Shard, secrets: set<Publication>, p: Process, c: Choice, m: Move)
    requires Plan(cfg, sh, secrets, p, c) == Some(m) && m.next.Goto? && HandoffAtHand(cfg, p)
    ensures HandoffAtHand(cfg, At(p, m.next.pc))
  {
    hide ReduceBillingEvent, TransitionTarget, IsProvisionableOrder, DecideBegin, DecideBind, DecidePublish, DecideRevoke, DecideRenew,
      NewPointer, Receipt, IsStepJob, IsUndoJob, CompleteProvisioningStep, CompleteCompensationStep, NeedsHandoff, StepOf, UndoStepOf,
      Disposed, DispositionsWellFormed, RecordsOfStep, DecidePutResource, ListsShard, RecordFor, SaveJob, PlanUndo, PlanTransition,
      PlanHandler, PlanRun;
    if m.next.pc.Steps? && !p.pc.Steps? { HeadOfLoop(cfg, sh, secrets, p, c, m); }
  }

  lemma HeadOfLoop(cfg: Config, sh: Shard, secrets: set<Publication>, p: Process, c: Choice, m: Move)
    requires Plan(cfg, sh, secrets, p, c) == Some(m) && m.next.Goto? && m.next.pc.Steps? && !p.pc.Steps?
    ensures m.next.pc.s.StepOwned?
  {
    hide ReduceBillingEvent, TransitionTarget, StartProvisioningAttempt, IsStepJob, IsUndoJob, ListsShard, DecideRenew, DecideRevoke,
      CompleteCompensationStep, Disposed, DispositionsWellFormed, RecordsOfStep, DecidePutResource, RecordFor, SaveJob;
  }

  lemma {:induction false} RunKeepsHandoff(cfg: Config, actions: seq<Action>, pid: nat)
    requires Run(cfg, actions).Some? && pid in Run(cfg, actions).value.procs
    ensures HandoffAtHand(cfg, Run(cfg, actions).value.procs[pid])
  {
    if actions != [] {
      var before := actions[..|actions| - 1];
      var w, a, w' := Run(cfg, before).value, actions[|actions| - 1], Run(cfg, actions).value;
      if pid in w.procs { RunKeepsHandoff(cfg, before, pid); }
      hide Run, Plan, HandoffAtHand;
      if a.Continue? {
        var m := Plan(cfg, w.shard, w.secrets, w.procs[a.pid], a.choice).value;
        if pid == a.pid {
          if m.next.Goto? { MoveKeepsHandoff(cfg, w.shard, w.secrets, w.procs[a.pid], a.choice, m); }
          OutsideNeedsNone(cfg, w'.procs[pid]);
        }
      } else {
        OutsideNeedsNone(cfg, w'.procs[pid]);
      }
    }
  }

  lemma OutsideNeedsNone(cfg: Config, p: Process)
    ensures p.pc.Outside? || p.pc.Handling? ==> HandoffAtHand(cfg, p)
  {
  }

  /** The driver is never asked for a credential that there is nowhere safe to put. */
  lemma CredentialHasAPlace(cfg: Config, actions: seq<Action>, pid: nat, c: Choice, effect: Effect)
    requires Run(cfg, actions).Some? && Perform(cfg, Run(cfg, actions).value, Continue(pid, c)).Some?
    requires var w := Run(cfg, actions).value; Perform(cfg, w, Continue(pid, c)).value.log == w.log + [effect]
    requires cfg.handoffRequired && effect.Executed? && effect.step == ApiCredential
    ensures Run(cfg, actions).value.procs[pid].Worker? && Run(cfg, actions).value.procs[pid].hasHandoff
  {
    var w := Run(cfg, actions).value;
    var p := w.procs[pid];
    var m := Plan(cfg, w.shard, w.secrets, p, c).value;
    RunIsSafe(cfg, actions);
    RunKeepsHandoff(cfg, actions, pid);
    assert ProcessOk(cfg, w, p);
    hide Run, Plan;
    PlanFlow(cfg, w.shard, w.secrets, p, c, m);
    EffectIsCall(w, m, p, effect);
    assert ApplyOp(w, TokenOfProcess(p), m.op).log[|w.log|] == effect;
    hide CounterOk, HandlerOk, EffectsOk;
  }

  /** A credential that the driver returned is never dropped: it is bound to the pointer that
      was begun for it, or the attempt fails; and an attempt that was to bring one fails without
      it, to be made again. */
  lemma CredentialIsNotDropped(cfg: Config, sh: Shard, secrets: set<Publication>, p: Process, job: Job, prepared: Prepared, credential: Option<string>)
    requires p.Worker? && p.pc == Steps(job, StepPersist(prepared, [], credential))
    ensures var needs := cfg.handoffRequired && StepOf(job) == ApiCredential;
            Plan(cfg, sh, secrets, p, Go) == Some(Move(Nothing, Goto(
              if credential.Some? && (StepOf(job) != ApiCredential || (needs && prepared == AlreadyPublished))
              then Outside(SaveFailure(job, SafeFailure(ProviderResponseInvalid, false)))
              else if !needs || prepared == AlreadyPublished then Steps(job, StepDoneOwned)
              else if !prepared.Fresh? then Outside(SaveFailure(job, SafeFailure(CredentialHandoffRequired, false)))
              else if credential.Some? then Steps(job, StepBind(prepared.pointer, credential.value))
              else Outside(SaveFailure(job, SafeFailure(CredentialReissueRequired, true))))))
  {
    hide StepOf;
  }
}
