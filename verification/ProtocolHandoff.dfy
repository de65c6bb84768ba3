/** One-time credentials: a compensation runs only when the activation's pointer can no
    longer be published, and a completed credential step means a published secret that
    exists, whatever crashes and takeovers happen in between. */
module ProtocolHandoff {
  import opened Domain
  import opened Billing
  import opened Jobs
  import opened Store
  import opened Protocol
  import opened ProtocolSteps
  import opened ProtocolCore
  import opened ProtocolEffects

  function Current(sh: Shard, job: Job): Option<Pointer> {
    Lookup(sh.handoffs, HandoffOf(job))
  }

  /** Pointers are filed under their own ids. */
  ghost predicate PointersFiled(sh: Shard) {
    forall h :: h in sh.handoffs ==> sh.handoffs[h].handoffId == h && sh.handoffs[h].subscriptionId == h.subscriptionId
  }

  /** No pointer of the activation is, or can become, published. */
  predicate Closed(sh: Shard, h: HandoffId) {
    h in sh.handoffs ==> sh.handoffs[h].state == Revoked
  }

  predicate IsPublished(sh: Shard, h: HandoffId) {
    h in sh.handoffs && sh.handoffs[h].state == Published
  }

  /** Published secrets exist. */
  ghost predicate PublishedExist(sh: Shard, secrets: set<Publication>) {
    forall h :: h in sh.handoffs && sh.handoffs[h].state == Published ==>
      sh.handoffs[h].publication.Some? && sh.handoffs[h].publication.value in secrets
  }

  /** The pointer that a process carries inside the credential step. */
  function Carried(at: StepPc): Option<Pointer> {
    match at
    case StepVerify(q) => Some(q)
    case StepPublishVerified(q) => Some(q)
    case StepBeginHandoff(seen) => seen
    case StepExecute(prepared) => if prepared.Fresh? then Some(prepared.pointer) else None
    case StepExecuted(prepared, _, _) => if prepared.Fresh? then Some(prepared.pointer) else None
    case StepPersist(prepared, _, _) => if prepared.Fresh? then Some(prepared.pointer) else None
    case StepBind(q, _) => Some(q)
    case StepCreateSecret(q) => Some(q)
    case StepPublish(q) => Some(q)
    case _ => None
  }

  /** Whether the carried pointer is the one that was read or written last, so that the
      lease holder may rely on it. */
  predicate Tracks(at: StepPc) {
    Carried(at).Some? || at.StepBeginHandoff?
  }

  /** Counters that are reached, in the credential step, only after publication. */
  predicate AfterPublication(at: StepPc) {
    || (at.StepVerify? && at.pointer.state == Published)
    || at.StepReceiptVerified? || at.StepReceipt? || at.StepDoneOwned? || at.StepCheckpoint?
    || (at.StepExecute? && at.prepared.AlreadyPublished?)
    || (at.StepExecuted? && at.prepared.AlreadyPublished?)
    || (at.StepPersist? && at.prepared.AlreadyPublished?)
  }

  /** What the counter says about the pointer that is carried. */
  predicate CarriedOk(secrets: set<Publication>, job: Job, at: StepPc) {
    && (Carried(at).Some? ==> PointerMatchesJob(Carried(at).value, job))
    && (at.StepPublish? || at.StepPublishVerified? ==>
          Carried(at).value.publication.Some? && Carried(at).value.publication.value in secrets)
    && (at.StepVerify? ==>
          && at.pointer.state != Revoked && at.pointer.publication.Some?
          && (at.pointer.state == Published ==> at.pointer.publication.value in secrets))
    && (at.StepBeginHandoff? && at.seen.Some? ==> at.seen.value.state == PendingPublication)
  }

  predicate StepPcOk(cfg: Config, sh: Shard, secrets: set<Publication>, p: Process, job: Job, at: StepPc) {
    && CarriedOk(secrets, job, at)
    && (IsHandoffPc(at) ==> NeedsHandoff(cfg, job))
    && (Holds(sh, p) && Tracks(at) ==> Current(sh, job) == Carried(at))
    && (AfterPublication(at) && NeedsHandoff(cfg, job) && sh.job == Some(job) ==> IsPublished(sh, HandoffOf(job)))
  }

  predicate UndoPcOk(sh: Shard, p: Process, job: Job, at: UndoPc) {
    && (at.UndoRevoke? ==> PointerMatchesJob(at.pointer, job))
    && (Holds(sh, p) && at.UndoCompensate? ==> Closed(sh, HandoffOf(job)))
  }

  predicate HandoffPcOk(cfg: Config, sh: Shard, secrets: set<Publication>, p: Process) {
    && (p.pc.Steps? ==> StepPcOk(cfg, sh, secrets, p, p.pc.job, p.pc.s))
    && (p.pc.Undo? ==> UndoPcOk(sh, p, p.pc.job, p.pc.u))
  }

  ghost predicate ProcsHandoffOk(cfg: Config, w: World) {
    forall pid :: pid in w.procs ==> HandoffPcOk(cfg, w.shard, w.secrets, w.procs[pid])
  }

  /** Once an effect of an activation was undone, its pointer is closed. */
  ghost predicate UndoneAreClosed(cfg: Config, w: World) {
    forall e :: e in w.log && e.Undone? ==> Closed(w.shard, HandoffId(cfg.sub, e.generation))
  }

  /** A provisioning job past its credential step has a published pointer. */
  ghost predicate CredentialPublished(cfg: Config, sh: Shard) {
    cfg.handoffRequired && sh.job.Some? && sh.job.value.operation == Provisioning
    && ApiCredential in sh.job.value.completedSteps
    ==> IsPublished(sh, HandoffOf(sh.job.value))
  }

  /** A pointer exists only for an activation that reached its credential step. */
  predicate ReachedCredential(sh: Shard, h: HandoffId) {
    && sh.job.Some?
    && h.activationGeneration <= sh.job.value.activationGeneration
    && (h.activationGeneration == sh.job.value.activationGeneration ==> |sh.job.value.completedSteps| >= 3)
  }

  ghost predicate PointersFollowSteps(cfg: Config, sh: Shard) {
    forall h :: h in sh.handoffs ==> ReachedCredential(sh, h)
  }

  ghost predicate HandoffOk(cfg: Config, w: World) {
    && PointersFollowSteps(cfg, w.shard)
    && PointersFiled(w.shard) && PublishedExist(w.shard, w.secrets)
    && ProcsHandoffOk(cfg, w) && UndoneAreClosed(cfg, w) && CredentialPublished(cfg, w.shard)
  }

  // ---------------------------------------------------------------------------
  // What a move does to the pointer
  // ---------------------------------------------------------------------------

  /** A handoff mutation is made by the lease holder, on its own activation's pointer. */
  predicate PointerFlow(sh: Shard, p: Process, m: Move) {
    m.op.SetPointer? ==>
      && Holds(sh, p) && (p.pc.Steps? || p.pc.Undo?)
      && PointerMatchesJob(m.op.pointer, p.pc.job)
      && (p.pc.Undo? ==> m.op.pointer.state == Revoked && m.op.pointer.handoffId in sh.handoffs)
      && (p.pc.Steps? ==> StepOf(p.pc.job) == ApiCredential && m.op.pointer.state != Revoked
                          && (IsPublished(sh, HandoffOf(p.pc.job)) ==> m.op.pointer.state == Published))
  }

  predicate PublishesKnown(secrets: set<Publication>, m: Move) {
    m.op.SetPointer? && m.op.pointer.state == Published ==>
      m.op.pointer.publication.Some? && m.op.pointer.publication.value in secrets
  }

  lemma HandoffMoves(cfg: Config, sh: Shard, secrets: set<Publication>, p: Process, job: Job, at: StepPc, c: Choice, m: Move)
    requires p.Worker? && p.pc == Steps(job, at) && IsHandoffPc(at)
    requires PlanHandoff(sh, secrets, p, job, at, c) == Some(m)
    requires PointersFiled(sh) && PublishedExist(sh, secrets) && StepPcOk(cfg, sh, secrets, p, job, at)
    ensures PointerFlow(sh, p, m) && PublishesKnown(secrets, m)
  {
    hide StepOf, Receipt, IsStepJob, IsUndoJob;
  }

  lemma UndoMoves(sh: Shard, p: Process, job: Job, at: UndoPc, c: Choice, m: Move)
    requires p.Worker? && p.pc == Undo(job, at) && PlanUndo(sh, p, job, at, c) == Some(m)
    requires PointersFiled(sh) && UndoPcOk(sh, p, job, at)
    ensures PointerFlow(sh, p, m) && !(m.op.SetPointer? && m.op.pointer.state == Published)
  {
    hide CompleteCompensationStep, NextCompensationStep, Disposed, DispositionsWellFormed, RecordsOfStep;
  }

  lemma PlanMovesPointer(cfg: Config, sh: Shard, secrets: set<Publication>, p: Process, c: Choice, m: Move)
    requires Plan(cfg, sh, secrets, p, c) == Some(m)
    requires PointersFiled(sh) && PublishedExist(sh, secrets) && HandoffPcOk(cfg, sh, secrets, p)
    ensures PointerFlow(sh, p, m) && PublishesKnown(secrets, m)
  {
    hide TransitionTarget, StartProvisioningAttempt, FailProvisioningAttempt, IsStepJob, IsUndoJob;
    if m.op.SetPointer? {
      match p.pc
      case Steps(job, at) =>
        if IsHandoffPc(at) { HandoffMoves(cfg, sh, secrets, p, job, at, c, m); }
        else { StepsMoveNoPointer(cfg, sh, p, job, at, c, m); }
      case Undo(job, at) => UndoMoves(sh, p, job, at, c, m);
      case _ => NonLoopsMoveNoPointer(cfg, sh, secrets, p, c, m);
    }
  }

  lemma StepsMoveNoPointer(cfg: Config, sh: Shard, p: Process, job: Job, at: StepPc, c: Choice, m: Move)
    requires p.Worker? && !IsHandoffPc(at) && PlanSteps(cfg, sh, p, job, at, c) == Some(m)
    ensures !m.op.SetPointer? && !m.op.CreateSecret?
  {
    hide CompleteProvisioningStep, NextProvisioningStep, NeedsHandoff, StepOf;
  }

  lemma NonLoopsMoveNoPointer(cfg: Config, sh: Shard, secrets: set<Publication>, p: Process, c: Choice, m: Move)
    requires Plan(cfg, sh, secrets, p, c) == Some(m) && !p.pc.Steps? && !p.pc.Undo?
    ensures !m.op.SetPointer? && !m.op.CreateSecret?
  {
    hide ReduceBillingEvent, TransitionTarget, StartProvisioningAttempt, FailProvisioningAttempt, Proceed, Dispatch;
  }

  // ---------------------------------------------------------------------------
  // The process that moved
  // ---------------------------------------------------------------------------

  /** The shard after an operation, as far as handoffs and the job are concerned. */
  predicate After(sh: Shard, op: SharedOp, sh': Shard) {
    && sh'.handoffs == (if op.SetPointer? then sh.handoffs[op.pointer.handoffId := op.pointer] else sh.handoffs)
    && sh'.job == (if op.SetJob? then Some(op.job) else sh.job)
    && TokenOf(sh'.lease) == TokenOf(sh.lease)
  }

  predicate Mutates(at: StepPc) {
    at.StepPublishVerified? || at.StepBeginHandoff? || at.StepBind? || at.StepPublish?
  }

  lemma ReadNext(cfg: Config, sh: Shard, secrets: set<Publication>, p: Process, job: Job, at: StepPc, c: Choice, m: Move,
                    sh': Shard, secrets': set<Publication>)
    requires p.Worker? && p.pc == Steps(job, at) && IsHandoffPc(at) && !Mutates(at)
    requires PlanHandoff(sh, secrets, p, job, at, c) == Some(m)
    requires PointersFiled(sh) && PublishedExist(sh, secrets) && StepPcOk(cfg, sh, secrets, p, job, at)
    requires After(sh, m.op, sh') && secrets' == (if m.op.CreateSecret? then secrets + {m.op.secret} else secrets)
    requires m.next.Goto? && m.next.pc.Steps?
    ensures m.next.pc.job == job && StepPcOk(cfg, sh', secrets', p, job, m.next.pc.s)
  {
    hide NeedsHandoff, Receipt, IsStepJob, IsUndoJob;
  }

  lemma PublishNext(cfg: Config, sh: Shard, secrets: set<Publication>, p: Process, job: Job, at: StepPc, c: Choice, m: Move,
                    sh': Shard, secrets': set<Publication>)
    requires p.Worker? && p.pc == Steps(job, at) && IsHandoffPc(at) && (at.StepPublishVerified? || at.StepPublish?)
    requires PlanHandoff(sh, secrets, p, job, at, c) == Some(m)
    requires PointersFiled(sh) && PublishedExist(sh, secrets) && StepPcOk(cfg, sh, secrets, p, job, at)
    requires After(sh, m.op, sh') && secrets' == (if m.op.CreateSecret? then secrets + {m.op.secret} else secrets)
    requires m.next.Goto? && m.next.pc.Steps?
    ensures m.next.pc.job == job && StepPcOk(cfg, sh', secrets', p, job, m.next.pc.s)
  {
    hide NeedsHandoff, Receipt, IsStepJob, IsUndoJob;
  }

  lemma BindNext(cfg: Config, sh: Shard, secrets: set<Publication>, p: Process, job: Job, at: StepPc, c: Choice, m: Move,
                    sh': Shard, secrets': set<Publication>)
    requires p.Worker? && p.pc == Steps(job, at) && IsHandoffPc(at) && (at.StepBeginHandoff? || at.StepBind?)
    requires PlanHandoff(sh, secrets, p, job, at, c) == Some(m)
    requires PointersFiled(sh) && PublishedExist(sh, secrets) && StepPcOk(cfg, sh, secrets, p, job, at)
    requires After(sh, m.op, sh') && secrets' == (if m.op.CreateSecret? then secrets + {m.op.secret} else secrets)
    requires m.next.Goto? && m.next.pc.Steps?
    ensures m.next.pc.job == job && StepPcOk(cfg, sh', secrets', p, job, m.next.pc.s)
  {
    hide NeedsHandoff, Receipt, IsStepJob, IsUndoJob;
  }

  lemma HandoffNext(cfg: Config, sh: Shard, secrets: set<Publication>, p: Process, job: Job, at: StepPc, c: Choice, m: Move,
                    sh': Shard, secrets': set<Publication>)
    requires p.Worker? && p.pc == Steps(job, at) && IsHandoffPc(at)
    requires PlanHandoff(sh, secrets, p, job, at, c) == Some(m)
    requires PointersFiled(sh) && PublishedExist(sh, secrets) && StepPcOk(cfg, sh, secrets, p, job, at)
    requires After(sh, m.op, sh') && secrets' == (if m.op.CreateSecret? then secrets + {m.op.secret} else secrets)
    requires m.next.Goto? && m.next.pc.Steps?
    ensures m.next.pc.job == job && StepPcOk(cfg, sh', secrets', p, job, m.next.pc.s)
  {
    hide PlanHandoff, StepPcOk, PointersFiled, PublishedExist, After;
    if !Mutates(at) {
      ReadNext(cfg, sh, secrets, p, job, at, c, m, sh', secrets');
    } else if at.StepPublishVerified? || at.StepPublish? {
      PublishNext(cfg, sh, secrets, p, job, at, c, m, sh', secrets');
    } else {
      BindNext(cfg, sh, secrets, p, job, at, c, m, sh', secrets');
    }
  }

  lemma StepsNext(cfg: Config, sh: Shard, secrets: set<Publication>, p: Process, job: Job, at: StepPc, c: Choice, m: Move,
                  sh': Shard)
    requires p.Worker? && p.pc == Steps(job, at) && !IsHandoffPc(at)
    requires PlanSteps(cfg, sh, p, job, at, c) == Some(m)
    requires StepPcOk(cfg, sh, secrets, p, job, at)
    requires After(sh, m.op, sh')
    requires m.next.Goto? && m.next.pc.Steps?
    ensures StepPcOk(cfg, sh', secrets, p, m.next.pc.job, m.next.pc.s)
  {
    hide CompleteProvisioningStep, NextProvisioningStep, StepOf, PointerMatchesJob;
  }

  lemma UndoNext(sh: Shard, p: Process, job: Job, at: UndoPc, c: Choice, m: Move, sh': Shard)
    requires p.Worker? && p.pc == Undo(job, at) && PlanUndo(sh, p, job, at, c) == Some(m)
    requires PointersFiled(sh) && UndoPcOk(sh, p, job, at) && After(sh, m.op, sh')
    requires m.next.Goto? && m.next.pc.Undo?
    ensures UndoPcOk(sh', p, m.next.pc.job, m.next.pc.u)
  {
    hide CompleteCompensationStep, NextCompensationStep, Disposed, DispositionsWellFormed, RecordsOfStep;
  }

  /** A fresh entry into a loop knows nothing about the pointer yet. */
  lemma EntryPcOk(cfg: Config, sh: Shard, secrets: set<Publication>, p: Process)
    requires p.pc.Steps? ==> p.pc.s.StepOwned?
    requires p.pc.Undo? ==> p.pc.u.UndoOwned?
    ensures HandoffPcOk(cfg, sh, secrets, p)
  {
  }

  lemma HoldsSame(cfg: Config, sh: Shard, secrets: set<Publication>, p: Process, p': Process, job: Job, at: StepPc, u: UndoPc)
    requires p'.Worker? == p.Worker? && (p.Worker? ==> p'.lease == p.lease)
    ensures StepPcOk(cfg, sh, secrets, p, job, at) ==> StepPcOk(cfg, sh, secrets, p', job, at)
    ensures UndoPcOk(sh, p, job, u) ==> UndoPcOk(sh, p', job, u)
  {
    hide CarriedOk, AfterPublication, Tracks, NeedsHandoff, PointerMatchesJob;
  }

  lemma MovedPcOk(cfg: Config, w: World, pid: nat, c: Choice, m: Move, w': World, p': Process)
    requires Core(cfg, w) && Moves(cfg, w, pid, c, m, w') && Successor(w.procs[pid], m, p')
    requires HandoffOk(cfg, w)
    ensures HandoffPcOk(cfg, w'.shard, w'.secrets, p')
  {
    var p := w.procs[pid];
    MoveKeepsHistory(cfg, w, pid, c, m, w');
    MoveKeepsToken(w.shard, w, p, m);
    SuccessorShape(p, m, p');
    OpTouches(w, TokenOfProcess(p), m.op);
    assert ProcessOk(cfg, w, p) && HandoffPcOk(cfg, w.shard, w.secrets, p);
    hide Core, HandlerOk, CounterOk, SnapshotIsFresh, EntryFacts, OrderFlow, CallFlow, JobPut, ApplyOp, Advance,
      PlanHandoff, PlanSteps, PlanUndo, PlanRun, PlanTransition, PlanHandler, StepPcOk, UndoPcOk;
    if m.next.Goto? && Checked(m.next.pc) && !c.Threw? {
      if p.pc.Steps? {
        if IsHandoffPc(p.pc.s) {
          HandoffNext(cfg, w.shard, w.secrets, p, p.pc.job, p.pc.s, c, m, w'.shard, w'.secrets);
        } else {
          StepsMoveNoPointer(cfg, w.shard, p, p.pc.job, p.pc.s, c, m);
          StepsNext(cfg, w.shard, w.secrets, p, p.pc.job, p.pc.s, c, m, w'.shard);
        }
        HoldsSame(cfg, w'.shard, w'.secrets, p, p', p'.pc.job, p'.pc.s, UndoOwned);
      } else {
        UndoNext(w.shard, p, p.pc.job, p.pc.u, c, m, w'.shard);
        HoldsSame(cfg, w'.shard, w'.secrets, p, p', p'.pc.job, StepOwned, p'.pc.u);
      }
    } else {
      EntryPcOk(cfg, w'.shard, w'.secrets, p');
    }
  }

  // ---------------------------------------------------------------------------
  // Everything else
  // ---------------------------------------------------------------------------

  /** The worker that revokes never acts for the activation of a provisioning job that is
      still stored. */
  lemma RevokerIsElsewhere(cfg: Config, w: World, pid: nat)
    requires Core(cfg, w) && pid in w.procs && w.procs[pid].pc.Undo?
    requires w.shard.job.Some? && w.shard.job.value.operation == Provisioning
    ensures HandoffOf(w.procs[pid].pc.job) != HandoffOf(w.shard.job.value)
  {
    assert ProcessOk(cfg, w, w.procs[pid]);
    LastEvolves(cfg, w, w.procs[pid].pc.job);
  }

  /** A published pointer of the stored provisioning job stays published. */
  lemma PublishedStays(cfg: Config, w: World, pid: nat, m: Move, sh': Shard)
    requires Core(cfg, w) && pid in w.procs && PointerFlow(w.shard, w.procs[pid], m)
    requires After(w.shard, m.op, sh') && !m.op.SetJob?
    requires w.shard.job.Some? && w.shard.job.value.operation == Provisioning
    requires IsPublished(w.shard, HandoffOf(w.shard.job.value))
    ensures IsPublished(sh', HandoffOf(w.shard.job.value))
  {
    if m.op.SetPointer? && w.procs[pid].pc.Undo? {
      RevokerIsElsewhere(cfg, w, pid);
    }
    hide Core;
  }

  lemma OtherPcOk(cfg: Config, w: World, pid: nat, m: Move, w': World, q: nat)
    requires Core(cfg, w) && HandoffOk(cfg, w) && pid in w.procs && q in w.procs && q != pid
    requires PointerFlow(w.shard, w.procs[pid], m) && After(w.shard, m.op, w'.shard)
    requires m.op.SetJob? ==> m.op.job.version == |w.history|
    requires w.secrets <= w'.secrets
    ensures HandoffPcOk(cfg, w'.shard, w'.secrets, w.procs[q])
  {
    var r := w.procs[q];
    assert ProcessOk(cfg, w, r) && ProcessOk(cfg, w, w.procs[pid]) && HandoffPcOk(cfg, w.shard, w.secrets, r);
    if w.shard.job.Some? && w.shard.job.value.operation == Provisioning && !m.op.SetJob?
       && IsPublished(w.shard, HandoffOf(w.shard.job.value)) {
      PublishedStays(cfg, w, pid, m, w'.shard);
    }
    assert m.op.SetPointer? && r.Worker? ==> r.lease.fencingToken != w.procs[pid].lease.fencingToken;
    hide Core, HandoffOk, HandlerOk, NeedsHandoff, NextProvisioningStep, NextCompensationStep, TransitionTarget;
  }

  lemma MoveKeepsPointers(cfg: Config, w: World, m: Move, p: Process, w': World)
    requires PointersFiled(w.shard) && PublishedExist(w.shard, w.secrets)
    requires PointerFlow(w.shard, p, m) && PublishesKnown(w.secrets, m)
    requires After(w.shard, m.op, w'.shard) && w.secrets <= w'.secrets
    ensures PointersFiled(w'.shard) && PublishedExist(w'.shard, w'.secrets)
  {
  }

  /** Nobody who holds the lease acts for an activation that a compensation has touched,
      except to compensate. */
  lemma NoStepsAfterUndo(cfg: Config, w: World, pid: nat, e: Effect)
    requires Core(cfg, w) && EffectsOk(w) && pid in w.procs && e in w.log && e.Undone?
    requires Holds(w.shard, w.procs[pid]) && w.procs[pid].pc.Steps?
    ensures w.procs[pid].pc.job.activationGeneration != e.generation
  {
    var p := w.procs[pid];
    assert ProcessOk(cfg, w, p) && EntryOk(w, e) && ReadAfter(e, p);
    HistoryEvolves(w.history, e.version, p.pc.job.version);
  }

  lemma MoveKeepsClosed(cfg: Config, w: World, pid: nat, m: Move, w': World)
    requires Core(cfg, w) && EffectsOk(w) && HandoffOk(cfg, w) && pid in w.procs
    requires Flow(w.shard, w.procs[pid], m) && PointerFlow(w.shard, w.procs[pid], m)
    requires After(w.shard, m.op, w'.shard)
    requires w'.log == w.log
             || (m.op.Compensate? && w'.log == w.log + [Undone(m.op.onBehalf.activationGeneration, m.op.step,
                                                               TokenOfProcess(w.procs[pid]), m.op.onBehalf.version)])
             || (m.op.Execute? && w'.log == w.log + [Executed(m.op.onBehalf.activationGeneration, m.op.step,
                                                              TokenOfProcess(w.procs[pid]), m.op.onBehalf.version)])
    ensures UndoneAreClosed(cfg, w')
  {
    var p := w.procs[pid];
    assert ProcessOk(cfg, w, p) && HandoffPcOk(cfg, w.shard, w.secrets, p);
    if p.pc.Steps? || p.pc.Undo? { SnapshotSub(cfg, w, p.pc.job); }
    forall e | e in w'.log && e.Undone? ensures Closed(w'.shard, HandoffId(cfg.sub, e.generation)) {
      if e in w.log {
        assert Closed(w.shard, HandoffId(cfg.sub, e.generation));
        if m.op.SetPointer? && p.pc.Steps? { NoStepsAfterUndo(cfg, w, pid, e); }
      }
    }
    hide Core, EffectsOk, HandoffOk, JobPut, LoopFlow, SnapshotIsFresh, EntryFacts, OrderFlow, HandlerOk, CounterOk;
  }

  lemma SnapshotSub(cfg: Config, w: World, j: Job)
    requires HistoryOk(cfg, w) && IsVersion(w.history, j)
    ensures j.subscriptionId == cfg.sub
  {
    assert j in w.history;
  }

  /** Which write makes a provisioning job contain the credential step. */
  lemma CredentialStepIsCompleted(last: Job, ev: JobEvent)
    requires JobOk(last) && Apply(last, ev).Ok?
    requires Apply(last, ev).value.operation == Provisioning
    requires ApiCredential in Apply(last, ev).value.completedSteps
    ensures HandoffOf(Apply(last, ev).value) == HandoffOf(last) && last.operation == Provisioning
    ensures ApiCredential in last.completedSteps || (ev.StepDone? && ev.step == ApiCredential)
  {
    hide LastOutside, ObservedPrefix;
  }

  lemma MoveKeepsCredential(cfg: Config, w: World, pid: nat, m: Move, w': World)
    requires Core(cfg, w) && HandoffOk(cfg, w) && Put(cfg, w, pid, m, w')
    ensures CredentialPublished(cfg, w'.shard)
  {
    PutShape(cfg, w, pid, m, w');
    OpTouches(w, TokenOfProcess(w.procs[pid]), m.op);
    var p, stored := w.procs[pid], m.op.job;
    assert HandoffPcOk(cfg, w.shard, w.secrets, p);
    if stored.operation == Provisioning && ApiCredential in stored.completedSteps {
      if w.shard.job.None? {
        assert Creates(p) by { PutIsWrite(cfg, w, p, stored) by { assert ProcessOk(cfg, w, p); } }
      } else {
        CredentialStepIsCompleted(w.shard.job.value, EventOf(p).value);
      }
    }
    hide Core, JobOk, Apply, ApplyOp, LoopFlow, EntryFacts, CallFlow, OrderFlow, SnapshotIsFresh, CarriedOk, Tracks;
  }

  lemma MoveKeepsReached(cfg: Config, w: World, pid: nat, m: Move, w': World)
    requires Core(cfg, w) && HandoffOk(cfg, w) && pid in w.procs && PointerFlow(w.shard, w.procs[pid], m)
    requires After(w.shard, m.op, w'.shard)
    requires m.op.SetJob? ==> Put(cfg, w, pid, m, w')
    ensures PointersFollowSteps(cfg, w'.shard)
  {
    var p := w.procs[pid];
    assert ProcessOk(cfg, w, p) && HandoffPcOk(cfg, w.shard, w.secrets, p);
    if m.op.SetJob? && w.shard.job.Some? {
      PutShape(cfg, w, pid, m, w');
      ApplyEvolves(w.shard.job.value, EventOf(p).value);
    }
    if m.op.SetPointer? && p.pc.Steps? { LastEvolves(cfg, w, p.pc.job); }
    hide Core, Put, JobOk, Apply, HandlerOk, CounterOk, CarriedOk, Tracks, AfterPublication, UndoPcOk;
    forall h | h in w'.shard.handoffs ensures ReachedCredential(w'.shard, h) {
      if h in w.shard.handoffs { assert ReachedCredential(w.shard, h); }
    }
  }

  lemma MoveKeepsHandoff(cfg: Config, w: World, pid: nat, c: Choice, m: Move, w': World)
    requires Core(cfg, w) && EffectsOk(w) && HandoffOk(cfg, w) && Moves(cfg, w, pid, c, m, w')
    ensures HandoffOk(cfg, w')
  {
    hide Plan;
    var p := w.procs[pid];
    MoveKeepsHistory(cfg, w, pid, c, m, w');
    MoveKeepsToken(w.shard, w, p, m);
    OpTouches(w, TokenOfProcess(p), m.op);
    assert HandoffPcOk(cfg, w.shard, w.secrets, p);
    PlanMovesPointer(cfg, w.shard, w.secrets, p, c, m);
    MoveKeepsPointers(cfg, w, m, p, w');
    MoveKeepsClosed(cfg, w, pid, m, w');
    MoveKeepsReached(cfg, w, pid, m, w');
    if m.op.SetJob? { PutShape(cfg, w, pid, m, w'); }
    forall q | q in w'.procs ensures HandoffPcOk(cfg, w'.shard, w'.secrets, w'.procs[q]) {
      if q == pid { MovedPcOk(cfg, w, pid, c, m, w', w'.procs[q]); }
      else { OtherPcOk(cfg, w, pid, m, w', q); }
    }
    assert CredentialPublished(cfg, w'.shard) by {
      if m.op.SetJob? { MoveKeepsCredential(cfg, w, pid, m, w'); }
      else if w.shard.job.Some? && w.shard.job.value.operation == Provisioning
              && IsPublished(w.shard, HandoffOf(w.shard.job.value)) {
        PublishedStays(cfg, w, pid, m, w'.shard);
      }
    }
    hide Core, EffectsOk, Flow, ApplyOp, Advance, HandoffPcOk;
  }

  lemma OtherKeepsHandoff(cfg: Config, w: World, a: Action, w': World)
    requires Core(cfg, w) && HandoffOk(cfg, w) && !a.Continue? && Perform(cfg, w, a) == Some(w')
    ensures HandoffOk(cfg, w')
  {
    if a.StartRun? { NewLeaseIsNewest(cfg, w, a, w'); }
    assert w'.shard.handoffs == w.shard.handoffs && w'.secrets == w.secrets && w'.log == w.log && w'.shard.job == w.shard.job;
    assert TokenOf(w'.shard.lease) >= TokenOf(w.shard.lease);
    assert forall q :: q in w'.procs && (q !in w.procs || w'.procs[q] != w.procs[q]) ==>
             !w'.procs[q].pc.Steps? && !w'.procs[q].pc.Undo?;
    hide Perform;
    forall q | q in w'.procs ensures HandoffPcOk(cfg, w'.shard, w'.secrets, w'.procs[q]) {
      if q in w.procs && w.procs[q] == w'.procs[q] {
        assert HandoffPcOk(cfg, w.shard, w.secrets, w.procs[q]) && ProcessOk(cfg, w, w.procs[q]);
        NewerTokenKeepsPcOk(cfg, w.shard, w'.shard, w.secrets, w.procs[q]);
      }
    }
    hide HandoffPcOk, Core;
  }

  lemma NewerTokenKeepsPcOk(cfg: Config, sh: Shard, sh': Shard, secrets: set<Publication>, p: Process)
    requires HandoffPcOk(cfg, sh, secrets, p) && (p.Worker? ==> p.lease.fencingToken <= TokenOf(sh.lease))
    requires sh'.handoffs == sh.handoffs && sh'.job == sh.job && TokenOf(sh.lease) <= TokenOf(sh'.lease)
    ensures HandoffPcOk(cfg, sh', secrets, p)
  {
    hide CarriedOk, AfterPublication, Tracks, NeedsHandoff, PointerMatchesJob;
  }

  lemma {:induction false} HandoffRunIsSafe(cfg: Config, actions: seq<Action>)
    requires Run(cfg, actions).Some?
    ensures Core(cfg, Run(cfg, actions).value) && EffectsOk(Run(cfg, actions).value)
    ensures HandoffOk(cfg, Run(cfg, actions).value)
  {
    RunIsSafe(cfg, actions);
    if actions != [] {
      var n := |actions| - 1;
      HandoffRunIsSafe(cfg, actions[..n]);
      hide Core, EffectsOk, HandoffOk, Plan;
      var w, a, w' := Run(cfg, actions[..n]).value, actions[n], Run(cfg, actions).value;
      if a.Continue? {
        MoveKeepsHandoff(cfg, w, a.pid, a.choice, Plan(cfg, w.shard, w.secrets, w.procs[a.pid], a.choice).value, w');
      } else {
        OtherKeepsHandoff(cfg, w, a, w');
      }
    }
  }

  // ---------------------------------------------------------------------------
  // Theorems
  // ---------------------------------------------------------------------------

  /** Every compensation call happens only after the pointer of its activation was revoked,
      or never existed, and so it stays: the pointer is closed when the call is made and in
      every world after it. */
  lemma CompensationFollowsRevocation(cfg: Config, actions: seq<Action>, e: Effect)
    requires Run(cfg, actions).Some? && e in Run(cfg, actions).value.log && e.Undone?
    ensures Closed(Run(cfg, actions).value.shard, HandoffId(cfg.sub, e.generation))
  {
    HandoffRunIsSafe(cfg, actions);
  }

  /** A job that a suspension or a compensation disabled has no published credential. */
  lemma DisabledHasNoPublishedCredential(cfg: Config, actions: seq<Action>)
    requires Run(cfg, actions).Some? && Run(cfg, actions).value.shard.job.Some?
    requires Run(cfg, actions).value.shard.job.value.state == Disabled
    ensures Closed(Run(cfg, actions).value.shard, HandoffOf(Run(cfg, actions).value.shard.job.value))
  {
    HandoffRunIsSafe(cfg, actions);
    var w := Run(cfg, actions).value;
    hide Run;
    var last := w.shard.job.value;
    HistoryEvolves(w.history, |w.history| - 1, |w.history| - 1);
    SnapshotSub(cfg, w, last) by { assert w.history[|w.history| - 1].version == |w.history| - 1; }
    if last.completedSteps == [] {
      assert HandoffOf(last) in w.shard.handoffs ==> ReachedCredential(w.shard, HandoffOf(last));
    } else {
      assert last.completedSteps[0] in last.completedSteps;
      assert last.completedSteps[0] in last.compensatedSteps;
      var e :| e in w.log && e.Undone? && e.generation == last.activationGeneration;
      assert Closed(w.shard, HandoffId(cfg.sub, e.generation));
    }
  }

  /** When the driver hands out one-time credentials, a provisioning job whose credential
      step is complete has a published pointer, and the published secret exists. */
  lemma CompletedCredentialIsPublished(cfg: Config, actions: seq<Action>)
    requires cfg.handoffRequired && Run(cfg, actions).Some? && Run(cfg, actions).value.shard.job.Some?
    requires Run(cfg, actions).value.shard.job.value.operation == Provisioning
    requires ApiCredential in Run(cfg, actions).value.shard.job.value.completedSteps
    ensures var w := Run(cfg, actions).value;
            var h := HandoffOf(w.shard.job.value);
            && IsPublished(w.shard, h)
            && w.shard.handoffs[h].publication.Some? && w.shard.handoffs[h].publication.value in w.secrets
  {
    HandoffRunIsSafe(cfg, actions);
  }
}
