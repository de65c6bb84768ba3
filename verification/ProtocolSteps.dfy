/** What a single step of the orchestrator can do: a summary of `Protocol.Plan` that the
    safety proofs use in place of its body. */
module ProtocolSteps {
  import opened Domain
  import opened Billing
  import opened Jobs
  import opened Store
  import opened Protocol

  /** The job version that a process acts on. */
  function SnapshotOf(pc: Pc): Option<Job> {
    match pc
    case Handling(at) => if at.Resume? then Some(at.resumed) else None
    case Transition(at, _, _, _) => if at.GetJobAgain? then None else Some(at.job)
    case Outside(at) => if at.RunStart? || at.SaveFailure? then Some(at.job) else None
    case Steps(job, _) => Some(job)
    case Undo(job, _) => Some(job)
  }

  /** Inside a loop, past the ownership check that follows reading the job. */
  predicate Checked(pc: Pc) {
    (pc.Steps? && !pc.s.StepOwned?) || (pc.Undo? && !pc.u.UndoOwned?)
  }

  /** Past the compensation call, before its checkpoint. */
  predicate Undoing(pc: Pc) {
    pc.Undo? && (pc.u.UndoCompensated? || pc.u.UndoPersist? || pc.u.UndoDispose? || pc.u.UndoDoneOwned? || pc.u.UndoCheckpoint?)
  }

  predicate Holds(sh: Shard, p: Process) {
    p.Worker? && p.lease.fencingToken == TokenOf(sh.lease)
  }

  /** The transition by which a process standing at its counter writes a job. */
  function EventOf(p: Process): Option<JobEvent> {
    match p.pc
    case Handling(at) => if at.Resume? then Some(Resumed) else None
    case Transition(at, op, _, _) => if at.PutJob? then Some(CompensationBegun(at.steps, op)) else None
    case Outside(at) =>
      if p.Handler? then None
      else if at.RunStart? then Some(Started(p.now))
      else if at.SaveFailure? then Some(AttemptFailed(at.failure, p.now))
      else None
    case Steps(job, at) => if at.StepCheckpoint? then Some(StepDone(StepOf(job))) else None
    case Undo(job, at) => if at.UndoCheckpoint? then Some(StepCompensated(UndoStepOf(job))) else None
  }

  predicate Creates(p: Process) {
    p.Handler? && p.pc.Handling? && p.pc.h.Create?
  }

  /** A job write replaces exactly the version that the process read, by its transition;
      or it is the first version. */
  predicate JobPut(sh: Shard, p: Process, stored: Job) {
    if Creates(p) then
      sh.job.None? && CreateProvisioningJob(p.pc.h.order, p.policy) == Ok(stored)
    else
      && sh.job.Some? && SnapshotOf(p.pc).Some? && EventOf(p).Some?
      && var read := SnapshotOf(p.pc).value;
         && sh.job.value.version == read.version
         && Apply(read, EventOf(p).value).Ok?
         && stored == Apply(read, EventOf(p).value).value.(version := read.version + 1)
  }

  predicate SnapshotIsFresh(sh: Shard, p: Process, m: Move) {
    m.next.Goto? && SnapshotOf(m.next.pc).Some? ==>
      if m.op.SetJob? then SnapshotOf(m.next.pc) == Some(m.op.job)
      else SnapshotOf(m.next.pc) == SnapshotOf(p.pc) || SnapshotOf(m.next.pc) == sh.job
  }

  /** How control moves through the two loops. */
  predicate LoopFlow(sh: Shard, p: Process, m: Move) {
    m.next.Goto? ==>
      var pc := m.next.pc;
      && (pc.Steps? ==>
            p.Worker? && if pc.s.StepOwned? then
                           IsStepJob(pc.job) && if m.op.SetJob? then pc.job == m.op.job else Some(pc.job) == sh.job
                         else p.pc.Steps? && p.pc.job == pc.job && !m.op.SetJob? && (Checked(p.pc) || Holds(sh, p)))
      && (pc.Undo? ==>
            p.Worker? && if pc.u.UndoOwned? then IsUndoJob(pc.job)
                         else p.pc.Undo? && p.pc.job == pc.job && !m.op.SetJob? && (Checked(p.pc) || Holds(sh, p)))
      && (Undoing(pc) ==> Undoing(p.pc) || m.op == Compensate(pc.job, UndoStepOf(pc.job)))
  }

  /** Provider calls are made only at their counters, by the holder of the lease. */
  predicate CallFlow(sh: Shard, p: Process, m: Move) {
    && (m.op.Execute? ==>
          && p.pc.Steps? && p.pc.s.StepExecute? && Holds(sh, p)
          && m.op.onBehalf == p.pc.job && m.op.step == StepOf(p.pc.job))
    && (m.op.Compensate? ==>
          && p.pc.Undo? && p.pc.u.UndoCompensate? && Holds(sh, p)
          && m.op.onBehalf == p.pc.job && m.op.step == UndoStepOf(p.pc.job)
          && m.next.Goto? && SnapshotOf(m.next.pc) == Some(p.pc.job)
          && !m.next.pc.Handling? && !m.next.pc.Transition? && !m.next.pc.Steps?)
    && (m.op.SetLease? ==> p.Worker? && TokenOf(m.op.lease) == TokenOf(sh.lease))
  }

  /** What a process knows when it arrives at the counters outside the loops. */
  predicate EntryFacts(sh: Shard, p: Process, m: Move) {
    m.next.Goto? ==>
      match m.next.pc
      case Handling(at) =>
        && p.Handler?
        && (at.Create? ==> p.pc.Handling? && p.pc.h.GetJob? && at.order == p.pc.h.order)
        && (at.GetJob? ==> m.op.SetOrder? && at.order == m.op.order)
        && (at.PutOrder? ==>
              && m.op == Nothing && at.read == sh.order
              && ReduceBillingEvent(sh.order, p.event).Ok?
              && ReduceBillingEvent(sh.order, p.event).value.order == Some(at.reduced))
      case Transition(at, op, _, _) =>
        && (if p.pc.Transition? then op == p.pc.operation else op != Provisioning)
        && (at.PutJob? ==> TransitionTarget(at.job, at.steps, op) != at.job)
      case Outside(at) =>
        at.RunStart? ==>
          p.Worker? && StartProvisioningAttempt(at.job, p.now).Ok?
          && StartProvisioningAttempt(at.job, p.now).value != at.job
      case _ => true
  }

  predicate OrderFlow(sh: Shard, p: Process, m: Move) {
    m.op.SetOrder? ==>
      && p.Handler? && p.pc.Handling? && p.pc.h.PutOrder? && m.op.event == p.event
      && DecidePutOrder(sh.order, p.pc.h.reduced, VersionOf(p.pc.h.read)) == Ok(m.op.order)
  }

  predicate Flow(sh: Shard, p: Process, m: Move) {
    && (m.op.SetJob? ==> JobPut(sh, p, m.op.job))
    && SnapshotIsFresh(sh, p, m)
    && LoopFlow(sh, p, m)
    && CallFlow(sh, p, m)
    && EntryFacts(sh, p, m)
    && OrderFlow(sh, p, m)
  }

  lemma HandlerFlow(sh: Shard, p: Process, m: Move)
    requires p.Handler? && p.pc.Handling? && PlanHandler(sh, p.event, p.policy, p.pc.h) == Some(m)
    ensures Flow(sh, p, m)
  {
    hide ReduceBillingEvent, IsProvisionableOrder, TransitionTarget;
  }

  lemma ProceedFlow(sh: Shard, p: Process, order: Order, job: Job)
    requires p.Worker?
    ensures Proceed(p, order, job).Goto?
    ensures var pc := Proceed(p, order, job).pc;
            && (SnapshotOf(pc).Some? ==> SnapshotOf(pc) == Some(job))
            && !pc.Handling? && !pc.Transition? && !Checked(pc)
            && (pc.Steps? ==> IsStepJob(pc.job)) && (pc.Undo? ==> IsUndoJob(pc.job))
            && (pc.Outside? && pc.r.RunStart? ==>
                  StartProvisioningAttempt(job, p.now).Ok? && StartProvisioningAttempt(job, p.now).value != job)
  {
    hide StartProvisioningAttempt, IsStepJob, IsUndoJob, HasProvisioningIdentity, IsProvisionableOrder;
    DispatchFlow(p, order, job);
  }

  lemma DispatchFlow(p: Process, order: Order, job: Job)
    requires p.Worker?
    ensures Dispatch(p, order, job).Goto?
    ensures var pc := Dispatch(p, order, job).pc;
            && (SnapshotOf(pc).Some? ==> SnapshotOf(pc) == Some(job))
            && !pc.Handling? && !pc.Transition? && !Checked(pc) && !(pc.Outside? && pc.r.RunStart?)
            && (pc.Steps? ==> IsStepJob(pc.job)) && (pc.Undo? ==> IsUndoJob(pc.job))
  {
    hide HasProvisioningIdentity, IsProvisionableOrder, IsStepJob, IsUndoJob;
  }

  lemma TargetOperation(job: Job, steps: seq<Step>, op: Operation)
    ensures TransitionTarget(job, steps, op).operation == op
  {
  }

  lemma ListFlow(sh: Shard, p: Process, job: Job, op: Operation, tries: nat, cont: Continuation, c: Choice, m: Move)
    requires p.pc == Transition(ListRecords(job), op, tries, cont) && op != Provisioning
    requires PlanTransition(sh, p, ListRecords(job), op, tries, cont, c) == Some(m)
    ensures Flow(sh, p, m)
  {
    TargetOperation(job, StepsOf(c.listed), op);
    assert TransitionTarget(job, StepsOf(c.listed), op) == job ==> !IsStepJob(job);
    hide TransitionTarget, StartProvisioningAttempt, Proceed, IsUndoJob, IsStepJob;
    if cont.ForWorker? && p.Worker? { ProceedFlow(sh, p, cont.order, job); }
  }

  lemma PutFlow(sh: Shard, p: Process, at: TransitionPc, op: Operation, tries: nat, cont: Continuation, c: Choice, m: Move)
    requires p.pc == Transition(at, op, tries, cont) && op != Provisioning && !at.ListRecords?
    requires PlanTransition(sh, p, at, op, tries, cont, c) == Some(m)
    ensures Flow(sh, p, m)
  {
    hide TransitionTarget, StartProvisioningAttempt, Proceed, IsStepJob, IsUndoJob;
    if cont.ForWorker? && p.Worker? && m.op.SetJob? { ProceedFlow(sh, p, cont.order, m.op.job); }
  }

  lemma RunFlow(sh: Shard, p: Process, at: RunPc, c: Choice, m: Move)
    requires p.Worker? && p.pc == Outside(at) && PlanRun(sh, p, at, c) == Some(m)
    ensures Flow(sh, p, m)
  {
    hide StartProvisioningAttempt, FailProvisioningAttempt, Proceed, Dispatch, IsStepJob, IsUndoJob, TransitionTarget;
    if at.RunGetJob? && sh.job.Some? { ProceedFlow(sh, p, at.order, sh.job.value); }
    if at.RunStart? && m.op.SetJob? { DispatchFlow(p, at.order, m.op.job); }
  }

  lemma StepsFlow(cfg: Config, sh: Shard, p: Process, job: Job, at: StepPc, c: Choice, m: Move)
    requires p.Worker? && p.pc == Steps(job, at) && IsStepJob(job) && !IsHandoffPc(at)
    requires PlanSteps(cfg, sh, p, job, at, c) == Some(m)
    ensures Flow(sh, p, m)
  {
    hide CompleteProvisioningStep, NextProvisioningStep, NeedsHandoff, StepOf;
  }

  lemma HandoffFlow(sh: Shard, secrets: set<Publication>, p: Process, job: Job, at: StepPc, c: Choice, m: Move)
    requires p.Worker? && p.pc == Steps(job, at) && IsStepJob(job) && IsHandoffPc(at)
    requires PlanHandoff(sh, secrets, p, job, at, c) == Some(m)
    ensures Flow(sh, p, m)
  {
    hide DecideBegin, DecideBind, DecidePublish, NewPointer, Receipt, IsStepJob, IsUndoJob;
  }

  lemma UndoFlow(sh: Shard, p: Process, job: Job, at: UndoPc, c: Choice, m: Move)
    requires p.Worker? && p.pc == Undo(job, at) && IsUndoJob(job)
    requires PlanUndo(sh, p, job, at, c) == Some(m)
    ensures Flow(sh, p, m)
  {
    hide CompleteCompensationStep, NextCompensationStep, Disposed, DispositionsWellFormed, RecordsOfStep, DecideRevoke;
  }

  /** What holds of every process that stands at its counter. */
  predicate CounterOk(p: Process) {
    && (p.pc.Steps? ==> p.Worker? && IsStepJob(p.pc.job))
    && (p.pc.Undo? ==> p.Worker? && IsUndoJob(p.pc.job))
    && (p.pc.Transition? ==> p.pc.operation != Provisioning)
    && (p.pc.Transition? && p.pc.t.PutJob? ==>
          TransitionTarget(p.pc.t.job, p.pc.t.steps, p.pc.operation) != p.pc.t.job)
    && (p.pc.Outside? && p.pc.r.RunStart? ==>
          && p.Worker? && StartProvisioningAttempt(p.pc.r.job, p.now).Ok?
          && StartProvisioningAttempt(p.pc.r.job, p.now).value != p.pc.r.job)
  }

  /** Every step obeys the summary. */
  lemma PlanFlow(cfg: Config, sh: Shard, secrets: set<Publication>, p: Process, c: Choice, m: Move)
    requires Plan(cfg, sh, secrets, p, c) == Some(m)
    requires CounterOk(p)
    ensures Flow(sh, p, m)
  {
    hide TransitionTarget, StartProvisioningAttempt, IsStepJob, IsUndoJob;
    if c.Threw? && !(p.pc.Outside? && p.pc.r.Releasing?) {
      return;
    }
    match p.pc
    case Handling(at) => HandlerFlow(sh, p, m);
    case Transition(at, op, tries, cont) =>
      if at.ListRecords? { ListFlow(sh, p, at.job, op, tries, cont, c, m); }
      else { PutFlow(sh, p, at, op, tries, cont, c, m); }
    case Outside(at) => RunFlow(sh, p, at, c, m);
    case Steps(job, at) =>
      if IsHandoffPc(at) { HandoffFlow(sh, secrets, p, job, at, c, m); }
      else { StepsFlow(cfg, sh, p, job, at, c, m); }
    case Undo(job, at) => UndoFlow(sh, p, job, at, c, m);
  }
}
