/** Resource records over all runs of the protocol. The store takes record writes from
    anybody, so what a disabled job leaves behind depends on who writes them: as long as
    provisioning steps write records only under the lease and for the stored activation,
    nothing stays on; a superseded worker can leave a record on. */
module ProtocolRecords {
  import opened Domain
  import opened Billing
  import opened Jobs
  import opened Store
  import opened Protocol
  import opened ProtocolSteps
  import opened ProtocolCore
  import opened ProtocolEffects
  import opened ProtocolHandoff
  import opened Scenarios
  import opened Deliveries
  import Compensation

  // ---------------------------------------------------------------------------
  // Record writes
  // ---------------------------------------------------------------------------

  /** A write that the store accepts: under the record's own key, with identity and
      retention kept, and evidence unchanged. */
  predicate IsPut(resources: map<ResourceKey, Resource>, r: Resource) {
    && r.resourceKey == KeyOf(r)
    && (r.resourceKey in resources ==>
          && KeyOf(resources[r.resourceKey]) == KeyOf(r) && resources[r.resourceKey].retention == r.retention
          && (r.retention == ImmutableEvidence ==> r == resources[r.resourceKey]))
  }

  /** Who writes which record. */
  predicate RecordFlow(sh: Shard, p: Process, m: Move) {
    m.op.SetResource? ==>
      var r := m.op.resource;
      && p.Worker? && (p.pc.Steps? || p.pc.Undo?) && IsPut(sh.resources, r)
      && (p.pc.Steps? ==> r.step == StepOf(p.pc.job) && r.subscriptionId == p.pc.job.subscriptionId)
      && (p.pc.Undo? ==>
            if p.pc.u.UndoPersist? then
              p.pc.u.todo != [] && r.retention == p.pc.u.todo[0].retention && r.subscriptionId == p.pc.job.subscriptionId
            else
              p.pc.u.UndoDispose? && p.pc.u.records != []
              && KeyOf(r) == KeyOf(p.pc.u.records[0]) && r.resourceKey == p.pc.u.records[0].resourceKey
              && Compensation.TurnedOff(r))
  }

  lemma PutIsAccepted(sh: Shard, job: Job, record: Resource, pc: Pc, m: Move)
    requires Compensation.Filed(sh.resources) && PutRecord(sh, job, record, pc) == Some(m) && m.op.SetResource?
    ensures IsPut(sh.resources, m.op.resource) && KeyOf(m.op.resource) == KeyOf(record)
    ensures m.op.resource.resourceKey == record.resourceKey && m.op.resource.retention == record.retention
    ensures m.op.resource == record || record.retention == ImmutableEvidence
  {
  }

  lemma StepsPutRecords(cfg: Config, sh: Shard, secrets: set<Publication>, p: Process, job: Job, at: StepPc, c: Choice, m: Move)
    requires Compensation.Filed(sh.resources)
    requires p.Worker? && p.pc == Steps(job, at) && (IsHandoffPc(at) ==> NeedsHandoff(cfg, job))
    requires if IsHandoffPc(at) then PlanHandoff(sh, secrets, p, job, at, c) == Some(m) else PlanSteps(cfg, sh, p, job, at, c) == Some(m)
    ensures RecordFlow(sh, p, m)
  {
    match at
    case StepPersist(prepared, todo, credential) =>
      if todo != [] && m.op.SetResource? {
        PutIsAccepted(sh, job, RecordFor(job, StepOf(job), todo[0]), Steps(job, StepPersist(prepared, Rest(todo), credential)), m);
      }
    case StepReceipt => if m.op.SetResource? { PutIsAccepted(sh, job, Receipt(job), Steps(job, StepDoneOwned), m); }
    case StepReceiptVerified =>
      if m.op.SetResource? { PutIsAccepted(sh, job, Receipt(job), Steps(job, StepExecute(AlreadyPublished)), m); }
    case _ =>
    hide PutRecord, CompleteProvisioningStep, NextProvisioningStep, StepOf, IsStepJob, DecideBegin, DecideBind, DecidePublish,
      NewPointer, Owned, IsPut;
  }

  lemma UndoPutsRecords(sh: Shard, p: Process, job: Job, at: UndoPc, c: Choice, m: Move)
    requires Compensation.Filed(sh.resources)
    requires p.Worker? && p.pc == Undo(job, at) && PlanUndo(sh, p, job, at, c) == Some(m)
    ensures RecordFlow(sh, p, m)
  {
    match at
    case UndoPersist(records, todo, ds) =>
      if todo != [] && m.op.SetResource? {
        PutIsAccepted(sh, job, RecordFor(job, UndoStepOf(job), todo[0]), Undo(job, UndoPersist(records, Rest(todo), ds)), m);
      }
    case UndoDispose(records, ds) =>
      if records != [] && m.op.SetResource? { DisposePutsRecord(sh, job, records, ds, m); }
    case _ =>
    hide PutRecord, PlanDispose, CompleteCompensationStep, NextCompensationStep, IsUndoJob, DecideRevoke, DispositionsWellFormed,
      RecordsOfStep, UndoStepOf, Owned, IsPut;
  }

  lemma DisposePutsRecord(sh: Shard, job: Job, records: seq<Resource>, ds: seq<Protocol.Disposition>, m: Move)
    requires Compensation.Filed(sh.resources) && PlanDispose(sh, job, records, ds) == Some(m) && m.op.SetResource?
    ensures records != [] && IsPut(sh.resources, m.op.resource) && KeyOf(m.op.resource) == KeyOf(records[0])
    ensures m.op.resource.resourceKey == records[0].resourceKey && Compensation.TurnedOff(m.op.resource)
  {
    var d := Disposed(records[0], ds).value;
    Compensation.DisposedTurnsOff(records[0], ds);
    PutIsAccepted(sh, job, d.value, Undo(job, UndoDispose(records[1..], ds)), m);
    hide PutRecord, Disposed, IsPut;
  }

  lemma PlanPutsRecords(cfg: Config, sh: Shard, secrets: set<Publication>, p: Process, c: Choice, m: Move)
    requires Plan(cfg, sh, secrets, p, c) == Some(m) && HandoffPcOk(cfg, sh, secrets, p) && Compensation.Filed(sh.resources)
    ensures RecordFlow(sh, p, m)
  {
    hide RecordFlow, PlanHandoff, PlanSteps, PlanUndo, PlanHandler, PlanTransition, PlanRun;
    match p.pc
    case Steps(job, at) =>
      if !c.Threw? && p.Worker? {
        assert IsHandoffPc(at) ==> NeedsHandoff(cfg, job) by { HandoffPcNeeds(cfg, sh, secrets, p); }
        StepsPutRecords(cfg, sh, secrets, p, job, at, c, m);
      } else { NoRecord(sh, p, m); }
    case Undo(job, at) => if !c.Threw? && p.Worker? { UndoPutsRecords(sh, p, job, at, c, m); } else { NoRecord(sh, p, m); }
    case _ =>
      OutsidePutsNone(cfg, sh, secrets, p, c, m);
      NoRecord(sh, p, m);
  }

  lemma HandoffPcNeeds(cfg: Config, sh: Shard, secrets: set<Publication>, p: Process)
    requires HandoffPcOk(cfg, sh, secrets, p) && p.pc.Steps?
    ensures IsHandoffPc(p.pc.s) ==> NeedsHandoff(cfg, p.pc.job)
  {
  }

  lemma NoRecord(sh: Shard, p: Process, m: Move)
    requires !m.op.SetResource?
    ensures RecordFlow(sh, p, m)
  {
  }

  lemma OutsidePutsNone(cfg: Config, sh: Shard, secrets: set<Publication>, p: Process, c: Choice, m: Move)
    requires Plan(cfg, sh, secrets, p, c) == Some(m) && !p.pc.Steps? && !p.pc.Undo?
    ensures !m.op.SetResource?
  {
    hide ReduceBillingEvent, TransitionTarget, StartProvisioningAttempt, FailProvisioningAttempt, Proceed, Dispatch;
  }

  // ---------------------------------------------------------------------------
  // Records over all runs
  // ---------------------------------------------------------------------------

  /** The records that a process in the undo loop has listed for its step. */
  function Listed(at: UndoPc): seq<Resource> {
    match at
    case UndoGetPointer(records) => records
    case UndoRevoke(records, _) => records
    case UndoCompensate(records) => records
    case UndoCompensated(records, _, _) => records
    case UndoPersist(records, _, _) => records
    case UndoDispose(records, _) => records
    case _ => []
  }

  /** Listed records are those of the step, and still there with their retention. */
  ghost predicate ListedThere(resources: map<ResourceKey, Resource>, p: Process) {
    p.pc.Undo? ==>
      forall r :: r in Listed(p.pc.u) ==>
        && r.step == UndoStepOf(p.pc.job) && r.resourceKey == KeyOf(r) && r.resourceKey in resources
        && resources[r.resourceKey].retention == r.retention
  }

  ghost predicate RecordsOk(cfg: Config, w: World) {
    && Compensation.Filed(w.shard.resources)
    && (forall k :: k in w.shard.resources ==> w.shard.resources[k].subscriptionId == cfg.sub)
    && (forall pid :: pid in w.procs ==> ListedThere(w.shard.resources, w.procs[pid]))
  }

  /** No record disappears or changes identity or retention, and evidence never changes. */
  ghost predicate RecordsKept(before: map<ResourceKey, Resource>, after: map<ResourceKey, Resource>) {
    forall k :: k in before ==>
      && k in after && KeyOf(after[k]) == KeyOf(before[k]) && after[k].retention == before[k].retention
      && (before[k].retention == ImmutableEvidence ==> after[k] == before[k])
  }

  lemma KeptThere(before: map<ResourceKey, Resource>, after: map<ResourceKey, Resource>, p: Process)
    requires ListedThere(before, p) && RecordsKept(before, after)
    ensures ListedThere(after, p)
  {
  }

  /** The records after an operation. */
  predicate ResourcesAfter(sh: Shard, op: SharedOp, sh': Shard) {
    sh'.resources == (if op.SetResource? then sh.resources[op.resource.resourceKey := op.resource] else sh.resources)
  }

  lemma OpKeepsResources(w: World, token: nat, op: SharedOp)
    ensures ResourcesAfter(w.shard, op, ApplyOp(w, token, op).shard)
  {
  }

  predicate HasListed(at: UndoPc) {
    !at.UndoOwned? && !at.UndoList?
  }

  /** How the undo loop goes through its records. */
  predicate UndoGoesOn(p: Process, c: Choice, m: Move, job: Job, at: UndoPc, next: UndoPc) {
    && (HasListed(next) ==>
          || (HasListed(at) && Listed(next) == Listed(at))
          || (at.UndoList? && c.Listing? && next == UndoGetPointer(RecordsOfStep(c.listed, UndoStepOf(job))))
          || (&& at.UndoDispose? && at.records != [] && next.UndoDispose? && next.records == at.records[1..]
              && (m.op.SetResource? || at.records[0].retention == ImmutableEvidence)))
    && (next.UndoCompensated? ==> at.UndoCompensate? && c.Returned? && next.todo == c.resources)
    && (next.UndoPersist? ==>
          (at.UndoCompensated? && next.todo == at.todo) || (at.UndoPersist? && next.todo == Rest(at.todo)))
  }

  lemma UndoGoes(sh: Shard, p: Process, job: Job, at: UndoPc, c: Choice, m: Move)
    requires p.Worker? && PlanUndo(sh, p, job, at, c) == Some(m) && m.next.Goto? && m.next.pc.Undo? && !m.next.pc.u.UndoOwned?
    ensures UndoGoesOn(p, c, m, job, at, m.next.pc.u)
  {
    hide CompleteCompensationStep, NextCompensationStep, IsUndoJob, DecideRevoke, DispositionsWellFormed, RecordsOfStep,
      UndoStepOf, DecidePutResource, FindDisposition;
  }

  /** What a process that goes on in the undo loop lists. */
  lemma MovedListsThere(cfg: Config, w: World, p: Process, c: Choice, m: Move, next: UndoPc, after: map<ResourceKey, Resource>)
    requires RecordsOk(cfg, w) && p.pc.Undo? && ListedThere(w.shard.resources, p) && RecordsKept(w.shard.resources, after)
    requires UndoGoesOn(p, c, m, p.pc.job, p.pc.u, next) && (c.Listing? ==> ListsShard(c.listed, w.shard, cfg.sub))
    ensures forall r :: r in Listed(next) ==>
              && r.step == UndoStepOf(p.pc.job) && r.resourceKey == KeyOf(r) && r.resourceKey in after
              && after[r.resourceKey].retention == r.retention
  {
    if p.pc.u.UndoList? && c.Listing? {
      Compensation.RecordsOfStepAre(c.listed, UndoStepOf(p.pc.job));
      ListedAreFiled(cfg, w, c.listed);
    }
    hide RecordsOfStep, UndoStepOf;
  }

  lemma MovedThere(cfg: Config, w: World, pid: nat, c: Choice, m: Move, w': World)
    requires Core(cfg, w) && RecordsOk(cfg, w) && Moves(cfg, w, pid, c, m, w') && Advance(w.procs[pid], m.next).Some?
    requires RecordsKept(w.shard.resources, w'.shard.resources)
    ensures ListedThere(w'.shard.resources, Advance(w.procs[pid], m.next).value)
  {
    var p := w.procs[pid];
    var p' := Advance(p, m.next).value;
    hide RecordsKept, Plan, Moves, Flow, LoopFlow, ListedThere;
    MoveKeepsHistory(cfg, w, pid, c, m, w');
    hide Core;
    SuccessorShape(p, m, p');
    hide Advance;
    if p'.pc.Undo? && HasListed(p'.pc.u) {
      LoopFlowOf(w.shard, p, m);
      HasProcess(cfg, w, pid, c, m, w');
      MovedUndoThere(cfg, w, pid, c, m, w', p');
    } else {
      NothingListed(w'.shard.resources, p');
    }
  }

  lemma NothingListed(resources: map<ResourceKey, Resource>, p: Process)
    requires p.pc.Undo? ==> !HasListed(p.pc.u)
    ensures ListedThere(resources, p)
  {
  }

  lemma MovedUndoThere(cfg: Config, w: World, pid: nat, c: Choice, m: Move, w': World, p': Process)
    requires RecordsOk(cfg, w) && Moves(cfg, w, pid, c, m, w') && LoopFlow(w.shard, w.procs[pid], m)
    requires m.next.Goto? && m.next.pc == p'.pc && p'.pc.Undo? && HasListed(p'.pc.u)
    requires RecordsKept(w.shard.resources, w'.shard.resources)
    ensures ListedThere(w'.shard.resources, p')
  {
    hide RecordsKept, UndoGoesOn, UndoStepOf, Plan, ListsShard;
    UndoMovesOn(cfg, w, pid, c, m, w');
    ListedBy(cfg, w, pid);
    hide RecordsOk;
    MovedListsThere(cfg, w, w.procs[pid], c, m, p'.pc.u, w'.shard.resources);
  }

  lemma HasProcess(cfg: Config, w: World, pid: nat, c: Choice, m: Move, w': World)
    requires Moves(cfg, w, pid, c, m, w')
    ensures pid in w.procs
  {
  }

  lemma ListedBy(cfg: Config, w: World, pid: nat)
    requires RecordsOk(cfg, w) && pid in w.procs
    ensures ListedThere(w.shard.resources, w.procs[pid])
  {
    hide ListedThere;
  }

  lemma LoopFlowOf(sh: Shard, p: Process, m: Move)
    requires Flow(sh, p, m)
    ensures LoopFlow(sh, p, m)
  {
    hide LoopFlow, JobPut, SnapshotIsFresh, CallFlow, EntryFacts, OrderFlow;
  }

  lemma UndoMovesOn(cfg: Config, w: World, pid: nat, c: Choice, m: Move, w': World)
    requires Moves(cfg, w, pid, c, m, w') && LoopFlow(w.shard, w.procs[pid], m)
    requires m.next.Goto? && m.next.pc.Undo? && !m.next.pc.u.UndoOwned?
    ensures w.procs[pid].pc.Undo? && w.procs[pid].pc.job == m.next.pc.job && w.procs[pid].Worker?
    ensures UndoGoesOn(w.procs[pid], c, m, m.next.pc.job, w.procs[pid].pc.u, m.next.pc.u)
    ensures c.Listing? ==> ListsShard(c.listed, w.shard, cfg.sub)
  {
    var p := w.procs[pid];
    hide PlanUndo, PlanHandler, PlanTransition, PlanRun, PlanSteps, PlanHandoff, ListsShard, UndoGoesOn, ApplyOp, Advance;
    UndoGoes(w.shard, p, p.pc.job, p.pc.u, c, m);
  }

  lemma ListedAreFiled(cfg: Config, w: World, listed: seq<Resource>)
    requires RecordsOk(cfg, w) && ListsShard(listed, w.shard, cfg.sub)
    ensures forall r :: r in listed ==> r.resourceKey == KeyOf(r) && r.resourceKey in w.shard.resources
                                        && w.shard.resources[r.resourceKey] == r
  {
  }

  lemma PutKeepsRecords(cfg: Config, w: World, p: Process, m: Move, sh': Shard)
    requires RecordsOk(cfg, w) && RecordFlow(w.shard, p, m) && ResourcesAfter(w.shard, m.op, sh') && ListedThere(w.shard.resources, p)
    requires p.Worker? && (p.pc.Steps? || p.pc.Undo?) ==> p.pc.job.subscriptionId == cfg.sub
    ensures RecordsKept(w.shard.resources, sh'.resources) && Compensation.Filed(sh'.resources)
    ensures forall k :: k in sh'.resources ==> sh'.resources[k].subscriptionId == cfg.sub
  {
    if m.op.SetResource? && p.pc.Undo? && p.pc.u.UndoDispose? {
      assert p.pc.u.records[0] in Listed(p.pc.u);
    }
    hide Compensation.TurnedOff, StepOf, UndoStepOf;
  }

  lemma MoveKeepsRecords(cfg: Config, w: World, pid: nat, c: Choice, m: Move, w': World)
    requires Core(cfg, w) && HandoffOk(cfg, w) && RecordsOk(cfg, w) && Moves(cfg, w, pid, c, m, w')
    ensures RecordFlow(w.shard, w.procs[pid], m) && ResourcesAfter(w.shard, m.op, w'.shard)
    ensures RecordsOk(cfg, w') && RecordsKept(w.shard.resources, w'.shard.resources)
  {
    var p := w.procs[pid];
    MovePuts(cfg, w, pid, c, m, w');
    hide Plan, Core, HandoffOk, RecordFlow, ApplyOp, ResourcesAfter, ListedThere, RecordsKept, Advance;
    forall q | q in w'.procs ensures ListedThere(w'.shard.resources, w'.procs[q]) {
      if q == pid { MovedThere(cfg, w, pid, c, m, w'); }
      else { KeptThere(w.shard.resources, w'.shard.resources, w.procs[q]); }
    }
  }

  /** The records after a move. */
  lemma MovePuts(cfg: Config, w: World, pid: nat, c: Choice, m: Move, w': World)
    requires Core(cfg, w) && HandoffOk(cfg, w) && RecordsOk(cfg, w) && Moves(cfg, w, pid, c, m, w')
    ensures RecordFlow(w.shard, w.procs[pid], m) && ResourcesAfter(w.shard, m.op, w'.shard)
    ensures RecordsKept(w.shard.resources, w'.shard.resources) && Compensation.Filed(w'.shard.resources)
    ensures forall k :: k in w'.shard.resources ==> w'.shard.resources[k].subscriptionId == cfg.sub
  {
    var p := w.procs[pid];
    OpKeepsResources(w, TokenOfProcess(p), m.op);
    assert HandoffPcOk(cfg, w.shard, w.secrets, p) && ProcessOk(cfg, w, p) && ListedThere(w.shard.resources, p);
    PlanPutsRecords(cfg, w.shard, w.secrets, p, c, m);
    if p.pc.Steps? || p.pc.Undo? { SnapshotSub(cfg, w, p.pc.job); }
    hide Plan, Core, HandoffOk, RecordFlow, ApplyOp, HandoffPcOk, ResourcesAfter, ProcessOk, ListedThere, RecordsKept;
    PutKeepsRecords(cfg, w, p, m, w'.shard);
  }

  lemma OtherKeepsRecords(cfg: Config, w: World, a: Action, w': World)
    requires RecordsOk(cfg, w) && !a.Continue? && Perform(cfg, w, a) == Some(w')
    ensures RecordsOk(cfg, w') && w'.shard.resources == w.shard.resources
  {
    assert forall q :: q in w'.procs && (q !in w.procs || w'.procs[q] != w.procs[q]) ==> !w'.procs[q].pc.Undo?;
    hide Perform;
    forall q | q in w'.procs ensures ListedThere(w'.shard.resources, w'.procs[q]) {
      if q in w.procs && w'.procs[q] == w.procs[q] { assert ListedThere(w.shard.resources, w.procs[q]); }
    }
  }

  lemma {:induction false} RecordRunIsSafe(cfg: Config, actions: seq<Action>)
    requires Run(cfg, actions).Some?
    ensures RecordsOk(cfg, Run(cfg, actions).value)
  {
    if actions != [] {
      var n := |actions| - 1;
      RecordRunIsSafe(cfg, actions[..n]);
      HandoffRunIsSafe(cfg, actions[..n]);
      hide Core, EffectsOk, HandoffOk, RecordsOk, Plan;
      var w, a, w' := Run(cfg, actions[..n]).value, actions[n], Run(cfg, actions).value;
      if a.Continue? {
        MoveKeepsRecords(cfg, w, a.pid, a.choice, Plan(cfg, w.shard, w.secrets, w.procs[a.pid], a.choice).value, w');
      } else {
        OtherKeepsRecords(cfg, w, a, w');
      }
    }
  }

  /** Along every run, receipts and all: no record disappears or changes identity or
      retention, and immutable evidence never changes. */
  lemma {:induction false} RunKeepsRecords(cfg: Config, actions: seq<Action>, n: nat)
    requires n <= |actions| && Run(cfg, actions).Some?
    ensures Run(cfg, actions[..n]).Some?
    ensures RecordsKept(Run(cfg, actions[..n]).value.shard.resources, Run(cfg, actions).value.shard.resources)
    decreases |actions|
  {
    if n == |actions| {
      assert actions[..n] == actions;
    } else {
      var init := actions[..|actions| - 1];
      RunKeepsRecords(cfg, init, n);
      assert init[..n] == actions[..n];
      RecordRunIsSafe(cfg, init);
      HandoffRunIsSafe(cfg, init);
      hide Core, EffectsOk, HandoffOk, RecordsOk, Plan;
      var w, a, w' := Run(cfg, init).value, actions[|actions| - 1], Run(cfg, actions).value;
      if a.Continue? {
        MoveKeepsRecords(cfg, w, a.pid, a.choice, Plan(cfg, w.shard, w.secrets, w.procs[a.pid], a.choice).value, w');
      } else {
        OtherKeepsRecords(cfg, w, a, w');
      }
      hide Run;
    }
  }

  predicate IsRetained(r: Resource) {
    r.retention == ImmutableEvidence <==> r.status == Retained
  }

  /** Evidence is retained, and nothing else is. */
  lemma MoveSetsRetained(cfg: Config, sh: Shard, secrets: set<Publication>, p: Process, c: Choice, m: Move)
    requires Plan(cfg, sh, secrets, p, c) == Some(m) && m.op.SetResource?
    requires forall k :: k in sh.resources ==> IsRetained(sh.resources[k])
    ensures IsRetained(m.op.resource)
  {
    hide Plan, PlanHandoff, PlanSteps, PlanUndo, IsRetained;
    OnlyLoopsSetRecords(cfg, sh, secrets, p, c, m);
    if p.pc.Steps? { StepSetsRetained(cfg, sh, secrets, p, c, m); } else { UndoSetsRetained(cfg, sh, secrets, p, c, m); }
  }

  lemma StepSetsRetained(cfg: Config, sh: Shard, secrets: set<Publication>, p: Process, c: Choice, m: Move)
    requires Plan(cfg, sh, secrets, p, c) == Some(m) && m.op.SetResource? && p.pc.Steps?
    requires forall k :: k in sh.resources ==> IsRetained(sh.resources[k])
    ensures IsRetained(m.op.resource)
  {
    hide DecideBegin, DecideBind, DecidePublish, DecideRenew, NewPointer, Describe, IsStepJob, NeedsHandoff, CompleteProvisioningStep,
      StepOf, ListsShard, SaveJob, KeyOf, PlanTransition, PlanHandler, PlanRun, PlanUndo;
  }

  lemma UndoSetsRetained(cfg: Config, sh: Shard, secrets: set<Publication>, p: Process, c: Choice, m: Move)
    requires Plan(cfg, sh, secrets, p, c) == Some(m) && m.op.SetResource? && p.pc.Undo?
    requires forall k :: k in sh.resources ==> IsRetained(sh.resources[k])
    ensures IsRetained(m.op.resource)
  {
    hide DecideRevoke, DecideRenew, IsUndoJob, CompleteCompensationStep, UndoStepOf, DispositionsWellFormed, RecordsOfStep, ListsShard,
      SaveJob, FindDisposition, RequiredStatus, KeyOf, PlanTransition, PlanHandler, PlanRun, PlanSteps, PlanHandoff;
  }

  lemma OnlyLoopsSetRecords(cfg: Config, sh: Shard, secrets: set<Publication>, p: Process, c: Choice, m: Move)
    requires Plan(cfg, sh, secrets, p, c) == Some(m) && m.op.SetResource?
    ensures p.pc.Steps? || p.pc.Undo?
  {
    hide ReduceBillingEvent, TransitionTarget, StartProvisioningAttempt, FailProvisioningAttempt, Proceed, Dispatch, DecideRenew, ListsShard,
      PlanSteps, PlanUndo, PlanHandoff;
  }

  /** Along every run: evidence, and nothing else, has the status of evidence. */
  lemma {:induction false} EvidenceIsRetained(cfg: Config, actions: seq<Action>, k: ResourceKey)
    requires Run(cfg, actions).Some? && k in Run(cfg, actions).value.shard.resources
    ensures var r := Run(cfg, actions).value.shard.resources[k]; r.retention == ImmutableEvidence <==> r.status == Retained
    decreases |actions|
  {
    if actions != [] {
      var init := actions[..|actions| - 1];
      var w, a, w' := Run(cfg, init).value, actions[|actions| - 1], Run(cfg, actions).value;
      forall q | q in w.shard.resources ensures IsRetained(w.shard.resources[q]) { EvidenceIsRetained(cfg, init, q); }
      hide Run, Plan, IsRetained;
      if a.Continue? {
        var m := Plan(cfg, w.shard, w.secrets, w.procs[a.pid], a.choice).value;
        OpKeepsResources(w, TokenOfProcess(w.procs[a.pid]), m.op);
        if m.op.SetResource? { MoveSetsRetained(cfg, w.shard, w.secrets, w.procs[a.pid], a.choice, m); }
        hide ApplyOp;
      }
      assert IsRetained(w'.shard.resources[k]);
    }
    RetainedMeans();
  }

  lemma RetainedMeans()
    ensures forall r :: IsRetained(r) <==> (r.retention == ImmutableEvidence <==> r.status == Retained)
  {
  }

  // ---------------------------------------------------------------------------
  // What a disabled job leaves on
  // ---------------------------------------------------------------------------

  /** A mutable record that is not inactive in the way its step demands. */
  predicate IsOn(r: Resource) {
    !Compensation.TurnedOff(r)
  }

  /** Of a job that is being ended, a step whose record is on is completed and not yet
      compensated. */
  ghost predicate OnIsCovered(w: World) {
    w.shard.job.Some? && w.shard.job.value.operation != Provisioning ==>
      forall k :: k in w.shard.resources && IsOn(w.shard.resources[k]) ==>
        && w.shard.resources[k].step in w.shard.job.value.completedSteps
        && w.shard.resources[k].step !in w.shard.job.value.compensatedSteps
  }

  predicate IsCounted(job: Job, steps: seq<Step>, step: Step) {
    step in steps || step in InFlightSteps(job) || step in job.completedSteps
  }

  /** What is about to end a job has counted every step whose record is on. */
  ghost predicate ListingCovers(w: World, p: Process) {
    p.pc.Transition? && p.pc.t.PutJob? && w.shard.job == Some(p.pc.t.job) ==>
      forall k :: k in w.shard.resources && IsOn(w.shard.resources[k]) ==>
        IsCounted(p.pc.t.job, p.pc.t.steps, w.shard.resources[k].step)
  }

  predicate IsListed(records: seq<Resource>, k: ResourceKey) {
    exists r :: r in records && r.resourceKey == k
  }

  /** The records that a compensation has still to turn off are those of its step that are on. */
  ghost predicate StepIsListed(w: World, p: Process) {
    p.pc.Undo? && HasListed(p.pc.u) && w.shard.job == Some(p.pc.job) ==>
      forall k :: k in w.shard.resources && IsOn(w.shard.resources[k]) && w.shard.resources[k].step == UndoStepOf(p.pc.job) ==>
        IsListed(Listed(p.pc.u), k)
  }

  predicate AllEvidence(inputs: seq<ResourceInput>) {
    forall i :: 0 <= i < |inputs| ==> inputs[i].retention == ImmutableEvidence
  }

  predicate EvidenceOnly(p: Process) {
    && (p.pc.Undo? && p.pc.u.UndoCompensated? ==> AllEvidence(p.pc.u.todo))
    && (p.pc.Undo? && p.pc.u.UndoPersist? ==> AllEvidence(p.pc.u.todo))
  }

  ghost predicate ProcessRecordsOk(w: World, p: Process) {
    ListingCovers(w, p) && StepIsListed(w, p) && EvidenceOnly(p)
  }

  ghost predicate OffOk(w: World) {
    OnIsCovered(w) && forall pid :: pid in w.procs ==> ProcessRecordsOk(w, w.procs[pid])
  }

  /** Provisioning steps write records under the lease and for the stored activation, and
      compensations return evidence only. */
  predicate Fenced(cfg: Config, w: World, a: Action) {
    a.Continue? && a.pid in w.procs ==>
      var p := w.procs[a.pid];
      var m := Plan(cfg, w.shard, w.secrets, p, a.choice);
      && (p.pc.Steps? && m.Some? && m.value.op.SetResource? ==>
            Holds(w.shard, p) && w.shard.job.Some?
            && w.shard.job.value.activationGeneration == p.pc.job.activationGeneration)
      && (p.pc.Undo? && a.choice.Returned? ==> AllEvidence(a.choice.resources))
  }

  ghost predicate FencedRun(cfg: Config, actions: seq<Action>)
    requires Run(cfg, actions).Some?
    decreases |actions|
  {
    actions != [] ==>
      var before := actions[..|actions| - 1];
      FencedRun(cfg, before) && Fenced(cfg, Run(cfg, before).value, actions[|actions| - 1])
  }

  // One move.

  /** Where a transition's write comes from. */
  lemma WriteWasListed(cfg: Config, sh: Shard, secrets: set<Publication>, p: Process, c: Choice, m: Move)
    requires Plan(cfg, sh, secrets, p, c) == Some(m) && m.next.Goto? && m.next.pc.Transition? && m.next.pc.t.PutJob?
    ensures m.op == Nothing && c.Listing? && m.next.pc.t.steps == StepsOf(c.listed) && ListsShard(c.listed, sh, cfg.sub)
  {
    hide ReduceBillingEvent, TransitionTarget, StartProvisioningAttempt, FailProvisioningAttempt, IsStepJob, IsUndoJob,
      PlanHandoff, PlanSteps, PlanUndo, ListsShard, HasProvisioningIdentity, IsProvisionableOrder;
    if p.pc.Steps? || p.pc.Undo? { LoopsStay(cfg, sh, secrets, p, c, m); }
  }

  lemma LoopsStay(cfg: Config, sh: Shard, secrets: set<Publication>, p: Process, c: Choice, m: Move)
    requires Plan(cfg, sh, secrets, p, c) == Some(m) && (p.pc.Steps? || p.pc.Undo?)
    ensures m.next.Goto? ==> !m.next.pc.Transition?
  {
    hide CompleteProvisioningStep, CompleteCompensationStep, NextProvisioningStep, NextCompensationStep, NeedsHandoff, StepOf,
      IsStepJob, IsUndoJob, DecideBegin, DecideBind, DecidePublish, DecideRevoke, NewPointer, Receipt, Disposed,
      DispositionsWellFormed, RecordsOfStep, DecidePutResource, UndoStepOf;
  }

  lemma OnShrinks(w: World, m: Move, w': World)
    requires m.op.SetResource? && IsPut(w.shard.resources, m.op.resource) && ResourcesAfter(w.shard, m.op, w'.shard)
    requires Compensation.TurnedOff(m.op.resource)
    ensures forall k :: k in w'.shard.resources && IsOn(w'.shard.resources[k]) ==>
              k != m.op.resource.resourceKey && k in w.shard.resources && w'.shard.resources[k] == w.shard.resources[k]
  {
  }

  /** With fewer records on and the same job, a process that stays is as right as before. */
  lemma FewerOn(w: World, w': World, p: Process)
    requires ProcessRecordsOk(w, p) && w'.shard.job == w.shard.job
    requires forall k :: k in w'.shard.resources && IsOn(w'.shard.resources[k]) ==>
               k in w.shard.resources && w'.shard.resources[k] == w.shard.resources[k]
    ensures ProcessRecordsOk(w', p)
  {
    hide IsOn, UndoStepOf, IsListed, IsCounted;
  }

  /** A record of a covered step may be on. */
  lemma CoveredOn(w: World, m: Move, w': World, p: Process)
    requires ProcessRecordsOk(w, p) && m.op.SetResource? && ResourcesAfter(w.shard, m.op, w'.shard)
    requires w'.shard.job == w.shard.job && w.shard.job.Some? && Covers(w.shard.job.value, m.op.resource.step)
    requires p.pc.Undo? && HasListed(p.pc.u) && w.shard.job == Some(p.pc.job) ==> UndoStepOf(p.pc.job) != m.op.resource.step
    ensures ProcessRecordsOk(w', p)
  {
    hide IsOn, UndoStepOf, IsListed;
  }

  /** The step whose record the lease holder writes is not being compensated by anybody. */
  lemma HolderStepIsOpen(cfg: Config, w: World, pid: nat, q: nat)
    requires Core(cfg, w) && pid in w.procs && q in w.procs && q != pid && w.procs[pid].pc.Steps? && Holds(w.shard, w.procs[pid])
    requires w.shard.job.Some? && w.shard.job.value.activationGeneration == w.procs[pid].pc.job.activationGeneration
    ensures w.procs[q].pc.Undo? && HasListed(w.procs[q].pc.u) ==> w.shard.job != Some(w.procs[q].pc.job)
  {
    assert ProcessOk(cfg, w, w.procs[q]);
    if w.procs[q].pc.Undo? && HasListed(w.procs[q].pc.u) { HolderIsNotBehind(cfg, w, q, pid); }
    hide Core;
  }

  /** The pcs that carry no obligation. */
  predicate IsFree(pc: Pc) {
    && !(pc.Transition? && pc.t.PutJob?)
    && !(pc.Undo? && HasListed(pc.u))
  }

  lemma FreeIsOk(w: World, p: Process)
    requires IsFree(p.pc)
    ensures ProcessRecordsOk(w, p)
  {
  }

  lemma StepWriteKeepsOff(cfg: Config, w: World, pid: nat, m: Move, w': World)
    requires Core(cfg, w) && EffectsOk(w) && OffOk(w) && pid in w.procs && w.procs[pid].pc.Steps? && m.op.SetResource?
    requires RecordFlow(w.shard, w.procs[pid], m) && ResourcesAfter(w.shard, m.op, w'.shard) && w'.shard.job == w.shard.job
    requires Holds(w.shard, w.procs[pid]) && w.shard.job.Some?
    requires w.shard.job.value.activationGeneration == w.procs[pid].pc.job.activationGeneration
    ensures OnIsCovered(w')
    ensures forall q :: q in w.procs && q != pid ==> ProcessRecordsOk(w', w.procs[q])
  {
    assert MayExecute(w, w.procs[pid]);
    ExecutedIsCovered(cfg, w, pid);
    hide Core, EffectsOk, IsOn, UndoStepOf, StepOf;
    forall q | q in w.procs && q != pid ensures ProcessRecordsOk(w', w.procs[q]) {
      HolderStepIsOpen(cfg, w, pid, q);
      CoveredOn(w, m, w', w.procs[q]);
    }
    hide ProcessRecordsOk;
  }

  /** What is on after a move was on before, and is not what the move wrote. */
  ghost predicate OnlyFewerOn(w: World, m: Move, w': World) {
    forall k :: k in w'.shard.resources && IsOn(w'.shard.resources[k]) ==>
      && k in w.shard.resources && w'.shard.resources[k] == w.shard.resources[k]
      && !(m.op.SetResource? && k == m.op.resource.resourceKey)
  }

  /** A compensation turns records off, or adds evidence. */
  lemma UndoWriteTurnsOff(cfg: Config, w: World, p: Process, m: Move, w': World)
    requires RecordFlow(w.shard, p, m) && EvidenceOnly(p) && !p.pc.Steps? && ResourcesAfter(w.shard, m.op, w'.shard)
    ensures OnlyFewerOn(w, m, w')
    ensures m.op.SetResource? ==> p.pc.Undo?
    ensures m.op.SetResource? && p.pc.u.UndoDispose? ==>
              p.pc.u.records != [] && m.op.resource.resourceKey == p.pc.u.records[0].resourceKey
  {
    if m.op.SetResource? {
      assert Compensation.TurnedOff(m.op.resource);
      OnShrinks(w, m, w');
    }
    hide IsOn;
  }

  lemma ListedStepIs(cfg: Config, w: World, listed: seq<Resource>, step: Step)
    requires RecordsOk(cfg, w) && ListsShard(listed, w.shard, cfg.sub)
    ensures forall k :: k in w.shard.resources && w.shard.resources[k].step == step ==> IsListed(RecordsOfStep(listed, step), k)
  {
    Compensation.RecordsOfStepAre(listed, step);
    forall k | k in w.shard.resources && w.shard.resources[k].step == step
      ensures IsListed(RecordsOfStep(listed, step), k)
    {
      assert w.shard.resources[k] in RecordsOfStep(listed, step);
    }
    hide RecordsOfStep;
  }

  /** A record of evidence is not on. */
  lemma EvidenceIsOff(w: World, p: Process, k: ResourceKey)
    requires p.pc.Undo? && p.pc.u.UndoDispose? && p.pc.u.records != [] && p.pc.u.records[0].retention == ImmutableEvidence
    requires ListedThere(w.shard.resources, p) && k == p.pc.u.records[0].resourceKey
    ensures k in w.shard.resources && !IsOn(w.shard.resources[k])
  {
    assert p.pc.u.records[0] in Listed(p.pc.u);
  }

  lemma OthersAreLeft(records: seq<Resource>, k: ResourceKey)
    requires records != [] && IsListed(records, k) && k != records[0].resourceKey
    ensures IsListed(records[1..], k)
  {
    var r :| r in records && r.resourceKey == k;
    assert r in records[1..];
  }

  /** The undo loop goes on knowing which records of its step are on. */
  lemma NextUndoOk(cfg: Config, w: World, p: Process, c: Choice, m: Move, w': World, next: UndoPc)
    requires RecordsOk(cfg, w) && p.pc.Undo? && ListedThere(w.shard.resources, p) && StepIsListed(w, p) && OnlyFewerOn(w, m, w')
    requires UndoGoesOn(p, c, m, p.pc.job, p.pc.u, next) && HasListed(next) && w'.shard.job == w.shard.job
    requires c.Listing? ==> ListsShard(c.listed, w.shard, cfg.sub)
    requires m.op.SetResource? && p.pc.u.UndoDispose? ==>
               p.pc.u.records != [] && m.op.resource.resourceKey == p.pc.u.records[0].resourceKey
    ensures w'.shard.job == Some(p.pc.job) ==>
              forall k :: k in w'.shard.resources && IsOn(w'.shard.resources[k]) && w'.shard.resources[k].step == UndoStepOf(p.pc.job) ==>
                IsListed(Listed(next), k)
  {
    hide IsOn, UndoStepOf, IsListed, RecordsOfStep, RecordsOk, ListsShard, ListedThere;
    if p.pc.u.UndoList? && c.Listing? { ListedStepIs(cfg, w, c.listed, UndoStepOf(p.pc.job)); }
    if w'.shard.job == Some(p.pc.job) {
      forall k | k in w'.shard.resources && IsOn(w'.shard.resources[k]) && w'.shard.resources[k].step == UndoStepOf(p.pc.job)
        ensures IsListed(Listed(next), k)
      {
        if HasListed(p.pc.u) && Listed(next) == Listed(p.pc.u) {
        } else if p.pc.u.UndoList? {
        } else {
          if !m.op.SetResource? { EvidenceIsOff(w, p, p.pc.u.records[0].resourceKey); }
          OthersAreLeft(p.pc.u.records, k);
        }
      }
    }
  }

  /** The process that moved. */
  lemma MovedRecordsOk(cfg: Config, w: World, pid: nat, c: Choice, m: Move, w': World)
    requires Core(cfg, w) && RecordsOk(cfg, w) && OffOk(w) && Moves(cfg, w, pid, c, m, w') && Advance(w.procs[pid], m.next).Some?
    requires RecordFlow(w.shard, w.procs[pid], m) && ResourcesAfter(w.shard, m.op, w'.shard)
    requires w.procs[pid].pc.Undo? && c.Returned? ==> AllEvidence(c.resources)
    ensures ProcessRecordsOk(w', Advance(w.procs[pid], m.next).value)
  {
    hide Plan, Core, RecordsOk, ProcessRecordsOk, UndoGoesOn, ResourcesAfter, RecordFlow, ApplyOp, OnlyFewerOn;
    var p := w.procs[pid];
    var p' := Advance(p, m.next).value;
    MoveKeepsHistory(cfg, w, pid, c, m, w');
    SuccessorShape(p, m, p');
    assert ProcessRecordsOk(w, p);
    hide OffOk, Advance;
    if IsFree(p'.pc) {
      FreeIsOk(w', p');
    } else if p'.pc.Transition? {
      MovedTransitionOk(cfg, w, pid, c, m, w', p');
    } else {
      MovedUndoOk(cfg, w, pid, c, m, w', p');
    }
    hide Flow;
  }

  lemma MovedTransitionOk(cfg: Config, w: World, pid: nat, c: Choice, m: Move, w': World, p': Process)
    requires RecordsOk(cfg, w) && Moves(cfg, w, pid, c, m, w') && m.next.Goto? && m.next.pc == p'.pc
    requires p'.pc.Transition? && p'.pc.t.PutJob?
    ensures ProcessRecordsOk(w', p')
  {
    WriteWasListed(cfg, w.shard, w.secrets, w.procs[pid], c, m);
    hide Plan, IsOn;
    forall k | k in w.shard.resources ensures w.shard.resources[k].step in StepsOf(c.listed) {
      assert w.shard.resources[k] in c.listed;
      var i :| 0 <= i < |c.listed| && c.listed[i] == w.shard.resources[k];
      assert StepsOf(c.listed)[i] == w.shard.resources[k].step;
    }
  }

  lemma MovedUndoOk(cfg: Config, w: World, pid: nat, c: Choice, m: Move, w': World, p': Process)
    requires RecordsOk(cfg, w) && Moves(cfg, w, pid, c, m, w') && LoopFlow(w.shard, w.procs[pid], m)
    requires m.next.Goto? && m.next.pc == p'.pc && p'.pc.Undo? && HasListed(p'.pc.u)
    requires ProcessRecordsOk(w, w.procs[pid])
    requires RecordFlow(w.shard, w.procs[pid], m) && ResourcesAfter(w.shard, m.op, w'.shard)
    requires w.procs[pid].pc.Undo? && c.Returned? ==> AllEvidence(c.resources)
    ensures ProcessRecordsOk(w', p')
  {
    hide Plan, IsOn, UndoStepOf, RecordFlow, ResourcesAfter, IsCounted, AllEvidence;
    var p := w.procs[pid];
    OpTouches(w, TokenOfProcess(p), m.op);
    UndoMovesOn(cfg, w, pid, c, m, w');
    UndoWriteTurnsOff(cfg, w, p, m, w');
    assert ListedThere(w.shard.resources, p);
    hide ApplyOp, OnlyFewerOn, IsListed, RecordsOk, ListsShard, ListedThere;
    NextUndoOk(cfg, w, p, c, m, w', p'.pc.u);
    RestIsEvidence(p);
  }

  lemma RestIsEvidence(p: Process)
    requires EvidenceOnly(p)
    ensures p.pc.Undo? && p.pc.u.UndoPersist? ==> AllEvidence(Rest(p.pc.u.todo))
  {
  }

  /** A job write keeps a step covered if the write counts it, and does not compensate it. */
  lemma CoveredAfter(last: Job, ev: JobEvent, step: Step)
    requires JobOk(last) && Apply(last, ev).Ok? && Apply(last, ev).value.operation != Provisioning
    requires last.operation != Provisioning ==> step in last.completedSteps && step !in last.compensatedSteps
    requires ev.CompensationBegun? ==> IsCounted(last, ev.resourceSteps, step)
    requires ev.StepCompensated? ==> ev.compensated != step
    ensures step in Apply(last, ev).value.completedSteps && step !in Apply(last, ev).value.compensatedSteps
  {
    var next := Apply(last, ev).value;
    CompensatedAfter(last, ev);
    ApplyEvolves(last, ev);
    if step in last.completedSteps {
      PrefixKeepsMembers(last.completedSteps, next.completedSteps, step);
    } else {
      var observed := ev.resourceSteps + InFlightSteps(last);
      ObservedPrefixCovers(last, observed);
      assert step in observed;
      hide ObservedPrefix;
    }
  }

  /** Ending a job starts from a listing, and nothing but that makes it end. */
  lemma EndsByListing(last: Job, ev: JobEvent)
    requires Apply(last, ev).Ok? && Apply(last, ev).value.operation != Provisioning && last.operation == Provisioning
    ensures ev.CompensationBegun?
  {
    hide ObservedPrefix;
  }

  lemma CheckpointHasListed(w: World, p: Process)
    requires ProcessRecordsOk(w, p) && EventOf(p).Some? && w.shard.job.Some? && SnapshotOf(p.pc) == w.shard.job
    ensures EventOf(p).value.CompensationBegun? ==>
              forall k :: k in w.shard.resources && IsOn(w.shard.resources[k]) ==>
                IsCounted(w.shard.job.value, EventOf(p).value.resourceSteps, w.shard.resources[k].step)
    ensures EventOf(p).value.StepCompensated? ==>
              forall k :: k in w.shard.resources && IsOn(w.shard.resources[k]) ==>
                w.shard.resources[k].step != EventOf(p).value.compensated
  {
    if EventOf(p).value.StepCompensated? {
      assert forall k :: !IsListed([], k);
    }
    hide IsOn, UndoStepOf, IsCounted;
  }

  lemma JobWriteKeepsCovered(cfg: Config, w: World, pid: nat, m: Move, w': World)
    requires Core(cfg, w) && OffOk(w) && Put(cfg, w, pid, m, w') && w'.shard.resources == w.shard.resources
    ensures OnIsCovered(w')
  {
    PutShape(cfg, w, pid, m, w');
    var p, stored := w.procs[pid], m.op.job;
    assert ProcessRecordsOk(w, p);
    hide Core, Flow, ApplyOp, JobOk, Apply, IsOn, IsCounted, ProcessRecordsOk;
    if stored.operation != Provisioning {
      if w.shard.job.None? {
        FirstIsProvisioning(w.shard, p, stored) by { JobPutOf(w.shard, p, m); }
      } else {
        var last, ev := w.shard.job.value, EventOf(p).value;
        CheckpointHasListed(w, p);
        if last.operation == Provisioning { EndsByListing(last, ev); }
        forall k | k in w.shard.resources && IsOn(w.shard.resources[k])
          ensures w.shard.resources[k].step in stored.completedSteps && w.shard.resources[k].step !in stored.compensatedSteps
        {
          CoveredAfter(last, ev, w.shard.resources[k].step);
        }
      }
    }
  }

  lemma JobPutOf(sh: Shard, p: Process, m: Move)
    requires Flow(sh, p, m) && m.op.SetJob?
    ensures JobPut(sh, p, m.op.job)
  {
    hide JobPut, LoopFlow, CallFlow, EntryFacts, OrderFlow, SnapshotIsFresh;
  }

  lemma FirstIsProvisioning(sh: Shard, p: Process, stored: Job)
    requires JobPut(sh, p, stored) && sh.job.None?
    ensures stored.operation == Provisioning
  {
    hide Apply, IsProvisionableOrder, IsRetryPolicy;
  }

  /** What others hold is older than what was written. */
  lemma OlderIsOk(cfg: Config, w: World, w': World, q: Process)
    requires ProcessOk(cfg, w, q) && ProcessRecordsOk(w, q) && w'.shard.job.Some? && w'.shard.job.value.version == |w.history|
    ensures ProcessRecordsOk(w', q)
  {
    hide CounterOk, HandlerOk, IsOn, UndoStepOf, IsCounted, IsListed;
  }

  lemma SameIsOk(w: World, w': World, q: Process)
    requires ProcessRecordsOk(w, q) && w'.shard.job == w.shard.job && w'.shard.resources == w.shard.resources
    ensures ProcessRecordsOk(w', q)
  {
    hide IsOn, UndoStepOf, IsCounted, IsListed;
  }

  /** What a move does to the records of everybody else. */
  lemma OthersRecordsOk(cfg: Config, w: World, pid: nat, c: Choice, m: Move, w': World)
    requires Core(cfg, w) && EffectsOk(w) && RecordsOk(cfg, w) && OffOk(w) && Moves(cfg, w, pid, c, m, w')
    requires RecordFlow(w.shard, w.procs[pid], m) && ResourcesAfter(w.shard, m.op, w'.shard)
    requires Fenced(cfg, w, Continue(pid, c))
    ensures OnIsCovered(w')
    ensures forall q :: q in w.procs && q != pid ==> ProcessRecordsOk(w', w.procs[q])
  {
    var p := w.procs[pid];
    MoveKeepsHistory(cfg, w, pid, c, m, w');
    OpTouches(w, TokenOfProcess(p), m.op);
    hide Plan, Flow, EffectsOk, RecordsOk, ApplyOp, ProcessRecordsOk, RecordFlow, ResourcesAfter, OnIsCovered;
    assert ProcessRecordsOk(w, p) && OnIsCovered(w);
    if m.op.SetJob? {
      NoRecordWritten(w, m, w');
      JobWriteKeepsCovered(cfg, w, pid, m, w');
      NewVersion(cfg, w, w');
      forall q | q in w.procs && q != pid ensures ProcessRecordsOk(w', w.procs[q]) { OlderIsOk(cfg, w, w', w.procs[q]); }
    } else if m.op.SetResource? && p.pc.Steps? {
      StepWriteKeepsOff(cfg, w, pid, m, w');
    } else {
      UndoKeepsOff(cfg, w, p, m, w');
      forall q | q in w.procs && q != pid ensures ProcessRecordsOk(w', w.procs[q]) { FewerIsOk(w, m, w', w.procs[q]); }
    }
  }

  lemma NoRecordWritten(w: World, m: Move, w': World)
    requires ResourcesAfter(w.shard, m.op, w'.shard) && !m.op.SetResource?
    ensures w'.shard.resources == w.shard.resources
  {
  }

  lemma NewVersion(cfg: Config, w: World, w': World)
    requires HistoryOk(cfg, w') && |w'.history| == |w.history| + 1
    ensures w'.shard.job.Some? && w'.shard.job.value.version == |w.history|
  {
    assert w'.history[|w.history|].version == |w.history|;
  }

  lemma UndoKeepsOff(cfg: Config, w: World, p: Process, m: Move, w': World)
    requires OnIsCovered(w) && ProcessRecordsOk(w, p) && RecordFlow(w.shard, p, m) && ResourcesAfter(w.shard, m.op, w'.shard)
    requires w'.shard.job == w.shard.job && !(m.op.SetResource? && p.pc.Steps?)
    ensures OnIsCovered(w') && OnlyFewerOn(w, m, w')
  {
    if m.op.SetResource? {
      assert Compensation.TurnedOff(m.op.resource);
      OnShrinks(w, m, w');
    }
    hide IsOn;
  }

  lemma FewerIsOk(w: World, m: Move, w': World, q: Process)
    requires ProcessRecordsOk(w, q) && OnlyFewerOn(w, m, w') && w'.shard.job == w.shard.job
    ensures ProcessRecordsOk(w', q)
  {
    hide IsOn, ProcessRecordsOk;
    FewerOn(w, w', q);
  }

  lemma MoveKeepsOff(cfg: Config, w: World, pid: nat, c: Choice, m: Move, w': World)
    requires Core(cfg, w) && EffectsOk(w) && HandoffOk(cfg, w) && RecordsOk(cfg, w) && OffOk(w) && Moves(cfg, w, pid, c, m, w')
    requires Fenced(cfg, w, Continue(pid, c))
    ensures OffOk(w')
  {
    MoveKeepsRecords(cfg, w, pid, c, m, w');
    assert w.procs[pid].pc.Undo? && c.Returned? ==> AllEvidence(c.resources);
    hide Plan, Core, EffectsOk, HandoffOk, RecordsOk, RecordFlow, ResourcesAfter, ApplyOp, ProcessRecordsOk, OnIsCovered, Fenced, OffOk;
    OthersRecordsOk(cfg, w, pid, c, m, w');
    if Advance(w.procs[pid], m.next).Some? { MovedRecordsOk(cfg, w, pid, c, m, w'); }
    hide Advance;
    forall q | q in w'.procs ensures ProcessRecordsOk(w', w'.procs[q]) {
    }
    assert OffOk(w') by { OffIs(w'); }
  }

  lemma OffIs(w: World)
    requires OnIsCovered(w) && forall q :: q in w.procs ==> ProcessRecordsOk(w, w.procs[q])
    ensures OffOk(w)
  {
    hide OnIsCovered, ProcessRecordsOk;
  }

  lemma OtherKeepsOff(cfg: Config, w: World, a: Action, w': World)
    requires OffOk(w) && !a.Continue? && Perform(cfg, w, a) == Some(w')
    ensures OffOk(w')
  {
    assert w'.shard.resources == w.shard.resources && w'.shard.job == w.shard.job;
    assert forall q :: q in w'.procs && (q !in w.procs || w'.procs[q] != w.procs[q]) ==> IsFree(w'.procs[q].pc);
    hide Perform;
    forall q | q in w'.procs ensures ProcessRecordsOk(w', w'.procs[q]) {
      if q in w.procs && w'.procs[q] == w.procs[q] { SameIsOk(w, w', w'.procs[q]); } else { FreeIsOk(w', w'.procs[q]); }
    }
    hide IsOn, ProcessRecordsOk;
  }

  lemma {:induction false} FencedRunIsOff(cfg: Config, actions: seq<Action>)
    requires Run(cfg, actions).Some? && FencedRun(cfg, actions)
    ensures OffOk(Run(cfg, actions).value)
  {
    if actions != [] {
      var n := |actions| - 1;
      FencedRunIsOff(cfg, actions[..n]);
      RecordRunIsSafe(cfg, actions[..n]);
      HandoffRunIsSafe(cfg, actions[..n]);
      hide Core, EffectsOk, HandoffOk, RecordsOk, OffOk, Plan, Fenced;
      var w, a, w' := Run(cfg, actions[..n]).value, actions[n], Run(cfg, actions).value;
      if a.Continue? {
        MoveKeepsOff(cfg, w, a.pid, a.choice, Plan(cfg, w.shard, w.secrets, w.procs[a.pid], a.choice).value, w');
      } else {
        OtherKeepsOff(cfg, w, a, w');
      }
    }
  }

  /** Over all runs whose provisioning steps write records under the lease and for the
      stored activation, and whose compensations return evidence only: a disabled job leaves
      no record on. Every mutable record is inactive, in the way that its step demands. */
  lemma DisabledLeavesNothingOn(cfg: Config, actions: seq<Action>, k: ResourceKey)
    requires Run(cfg, actions).Some? && FencedRun(cfg, actions)
    requires var sh := Run(cfg, actions).value.shard;
             sh.job.Some? && sh.job.value.state == Disabled && k in sh.resources
    ensures Compensation.TurnedOff(Run(cfg, actions).value.shard.resources[k])
  {
    FencedRunIsOff(cfg, actions);
    HandoffRunIsSafe(cfg, actions);
    var w := Run(cfg, actions).value;
    hide Run, EffectsOk, HandoffOk;
    HistoryEvolves(w.history, |w.history| - 1, |w.history| - 1);
    hide Compensation.TurnedOff;
    assert !IsOn(w.shard.resources[k]);
  }

  // ---------------------------------------------------------------------------
  // Both conditions are needed
  // ---------------------------------------------------------------------------

  /** The store takes a record from a worker whose lease was taken over: the job is disabled
      by the worker that took it, and the record stays on. */
  lemma SupersededLeavesOn() returns (w: World, k: ResourceKey)
    ensures Reachable(CFG, w) && w.shard.job.Some? && w.shard.job.value.state == Disabled
    ensures k in w.shard.resources && w.shard.resources[k].retention == Mutable && w.shard.resources[k].status == ActiveResource
    ensures !Compensation.TurnedOff(w.shard.resources[k])
    ensures w.shard.lease == Some(LEASE_B)
  {
    w := SupersededWorkerWrites();
    k := ON_RECORD.resourceKey;
  }

  /** So it does from the worker that holds the lease, if the job was suspended, resumed and
      canceled meanwhile: the record belongs to an activation that is over. */
  lemma EarlierActivationLeavesOn() returns (w: World, k: ResourceKey)
    ensures Reachable(CFG, w) && w.shard.job.Some? && w.shard.job.value.state == Disabled
    ensures k in w.shard.resources && w.shard.resources[k].retention == Mutable && w.shard.resources[k].status == ActiveResource
    ensures !Compensation.TurnedOff(w.shard.resources[k])
    ensures w.shard.lease == Some(LEASE_A) && w.shard.job.value.activationGeneration == JOB_RUNNING.activationGeneration + 1
  {
    w := EarlierActivationWrites();
    k := ON_RECORD.resourceKey;
  }

  // ---------------------------------------------------------------------------
  // Both hold when messages are delivered one at a time
  // ---------------------------------------------------------------------------

  /** Compensations return evidence only. */
  predicate ReturnsEvidence(s: Service, a: Act) {
    a.Work? && a.id in s.queue && PidOf(s.queue[a.id].stage).Some? && a.choice.Returned?
    && PidOf(s.queue[a.id].stage).value in s.world.procs
    && s.world.procs[PidOf(s.queue[a.id].stage).value].pc.Undo?
    ==> AllEvidence(a.choice.resources)
  }

  ghost predicate AllReturnEvidence(cfg: Config, acts: seq<Act>)
    requires Served(cfg, acts).Some?
    decreases |acts|
  {
    acts != [] ==>
      var before := acts[..|acts| - 1];
      AllReturnEvidence(cfg, before) && ReturnsEvidence(Served(cfg, before).value, acts[|acts| - 1])
  }

  lemma StepIsStored(sh: Shard, p: Process)
    requires HoldsStored(sh, p) && p.pc.Steps?
    ensures sh.job == Some(p.pc.job)
  {
  }

  lemma HandlerTakesNoStep(cfg: Config, sh: Shard, secrets: set<Publication>, p: Process, c: Choice)
    requires p.Handler? && p.pc.Steps?
    ensures Plan(cfg, sh, secrets, p, c) == None
  {
  }

  /** A run that is delivered alone holds the lease, and acts on the stored job. */
  lemma SerialIsFenced(cfg: Config, s: Service, a: Act, s': Service)
    requires StagesOk(s) && SerialOk(s) && ReturnsEvidence(s, a) && Serve(cfg, s, a) == Some(s') && ActionOf(s, a).Some?
    ensures Fenced(cfg, s.world, ActionOf(s, a).value)
  {
    hide Plan, Serve, HoldsStored, AllEvidence, Aligned;
    if a.Work? && PidOf(s.queue[a.id].stage).value in s.world.procs {
      var stage := s.queue[a.id].stage;
      var p := s.world.procs[PidOf(stage).value];
      assert StageOk(s.world, stage) && StageAligned(s.world, stage);
      if p.pc.Steps? {
        StepIsStored(s.world.shard, p);
        if p.Handler? { HandlerTakesNoStep(cfg, s.world.shard, s.world.secrets, p, a.choice); }
      }
    }
  }

  lemma {:induction false} ServedIsFenced(cfg: Config, acts: seq<Act>) returns (actions: seq<Action>)
    requires Served(cfg, acts).Some? && Serial(cfg, acts) && AllReturnEvidence(cfg, acts)
    ensures Run(cfg, actions) == Some(Served(cfg, acts).value.world) && FencedRun(cfg, actions)
  {
    if acts == [] {
      actions := [];
    } else {
      var before := acts[..|acts| - 1];
      var s, a, s' := Served(cfg, before).value, acts[|acts| - 1], Served(cfg, acts).value;
      ServedIsOwed(cfg, before);
      ServedIsSerial(cfg, before);
      actions := ServedIsFenced(cfg, before);
      hide Served, Serve, Perform, Fenced, StagesOk, SerialOk, ReturnsEvidence;
      ServesByActions(cfg, s, a, s');
      if s'.world != s.world {
        SerialIsFenced(cfg, s, a, s');
        var more := actions + [ActionOf(s, a).value];
        assert more[..|more| - 1] == actions;
        actions := more;
      }
    }
  }

  /** So with messages delivered one at a time, whatever crashes and failures occur, a job
      that is disabled leaves no record on. */
  lemma DeliveredLeavesNothingOn(cfg: Config, acts: seq<Act>, k: ResourceKey)
    requires Served(cfg, acts).Some? && Serial(cfg, acts) && AllReturnEvidence(cfg, acts)
    requires var sh := Served(cfg, acts).value.world.shard;
             sh.job.Some? && sh.job.value.state == Disabled && k in sh.resources
    ensures Compensation.TurnedOff(Served(cfg, acts).value.world.shard.resources[k])
  {
    hide Served, Serial, AllReturnEvidence, FencedRun;
    var actions := ServedIsFenced(cfg, acts);
    DisabledLeavesNothingOn(cfg, actions, k);
  }
}
