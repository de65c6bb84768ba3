/** No provider effect is ever lost: in every reachable world, each effect of the current
    activation that was not undone is accounted for by the stored job, so that a disabled
    job has none left. */
module ProtocolEffects {
  import opened Domain
  import opened Jobs
  import opened Store
  import opened Protocol
  import opened ProtocolSteps
  import opened ProtocolCore

  /** The last thing that happened to this step of this activation was its execution. */
  predicate Outstanding(log: seq<Effect>, generation: nat, step: Step)
    decreases |log|
  {
    if log == [] then false
    else
      var last := log[|log| - 1];
      if last.generation == generation && last.step == step then last.Executed?
      else Outstanding(log[..|log| - 1], generation, step)
  }

  predicate HasUndone(log: seq<Effect>, generation: nat, step: Step) {
    exists e :: e in log && e.Undone? && e.generation == generation && e.step == step
  }

  /** How a stored job accounts for an outstanding effect of its activation. */
  predicate Covers(job: Job, step: Step) {
    if job.operation == Provisioning then
      step in job.completedSteps || (InFlight(job) && NextProvisioningStep(job) == Some(step))
    else
      step in job.completedSteps && step !in job.compensatedSteps
  }

  predicate EntryOk(w: World, e: Effect) {
    && e.version < |w.history|
    && w.history[e.version].activationGeneration == e.generation
    && (e.Undone? ==> w.history[e.version].operation != Provisioning)
    && e.token <= TokenOf(w.shard.lease)
  }

  ghost predicate LogOk(w: World) {
    forall e :: e in w.log ==> EntryOk(w, e)
  }

  /** Who holds a token at least as new as a compensation's has read a version at least
      as new as the one that was compensated. */
  predicate ReadAfter(e: Effect, p: Process) {
    e.Undone? && p.Worker? && e.token <= p.lease.fencingToken && SnapshotOf(p.pc).Some?
    ==> e.version <= SnapshotOf(p.pc).value.version
  }

  ghost predicate UndoesAreOrdered(w: World) {
    forall e, pid :: e in w.log && pid in w.procs ==> ReadAfter(e, w.procs[pid])
  }

  ghost predicate CoverageOk(w: World) {
    w.shard.job.Some? ==>
      forall s :: Outstanding(w.log, w.shard.job.value.activationGeneration, s) ==> Covers(w.shard.job.value, s)
  }

  predicate UndoingOk(w: World, p: Process) {
    Undoing(p.pc) ==>
      && !Outstanding(w.log, p.pc.job.activationGeneration, UndoStepOf(p.pc.job))
      && HasUndone(w.log, p.pc.job.activationGeneration, UndoStepOf(p.pc.job))
  }

  ghost predicate AllUndoingOk(w: World) {
    forall pid :: pid in w.procs ==> UndoingOk(w, w.procs[pid])
  }

  /** Steps are marked compensated only after a compensation ran. */
  ghost predicate CompensatedWereUndone(w: World) {
    w.shard.job.Some? && w.shard.job.value.operation != Provisioning ==>
      forall s :: s in w.shard.job.value.compensatedSteps ==> HasUndone(w.log, w.shard.job.value.activationGeneration, s)
  }

  /** The lease holder may still execute its step: it was not compensated meanwhile. */
  predicate MayExecute(w: World, p: Process) {
    Holds(w.shard, p) && p.pc.Steps? && w.shard.job.Some?
    && w.shard.job.value.activationGeneration == p.pc.job.activationGeneration
    && w.shard.job.value.operation != Provisioning
    ==> StepOf(p.pc.job) !in w.shard.job.value.compensatedSteps
  }

  ghost predicate HolderMayExecute(w: World) {
    forall pid :: pid in w.procs ==> MayExecute(w, w.procs[pid])
  }

  ghost predicate EffectsOk(w: World) {
    && LogOk(w) && UndoesAreOrdered(w) && CoverageOk(w) && AllUndoingOk(w)
    && CompensatedWereUndone(w) && HolderMayExecute(w)
  }

  // ---------------------------------------------------------------------------
  // The log
  // ---------------------------------------------------------------------------

  lemma OutstandingSnoc(log: seq<Effect>, e: Effect, g: nat, s: Step)
    ensures Outstanding(log + [e], g, s)
            == if e.generation == g && e.step == s then e.Executed? else Outstanding(log, g, s)
    ensures HasUndone(log, g, s) ==> HasUndone(log + [e], g, s)
    ensures e.Undone? && e.generation == g && e.step == s ==> HasUndone(log + [e], g, s)
  {
    assert (log + [e])[..|log + [e]| - 1] == log;
    if HasUndone(log, g, s) {
      var u :| u in log && u.Undone? && u.generation == g && u.step == s;
      assert u in log + [e];
    }
    assert e in log + [e];
  }

  lemma {:induction false} OutstandingWasExecuted(log: seq<Effect>, g: nat, s: Step)
    requires Outstanding(log, g, s)
    ensures exists e :: e in log && e.generation == g
    decreases |log|
  {
    var last := log[|log| - 1];
    assert last in log;
    if !(last.generation == g && last.step == s) {
      OutstandingWasExecuted(log[..|log| - 1], g, s);
      var e :| e in log[..|log| - 1] && e.generation == g;
      assert e in log;
    }
  }

  // ---------------------------------------------------------------------------
  // Job transitions
  // ---------------------------------------------------------------------------

  lemma StepInPrefix(job: Job, k: nat)
    requires job.completedSteps <= STEPS && k < |job.completedSteps|
    ensures STEPS[k] in job.completedSteps
  {
    assert job.completedSteps[k] == STEPS[k];
  }

  lemma PrefixKeepsMembers(a: seq<Step>, b: seq<Step>, s: Step)
    requires a <= b && s in a
    ensures s in b
  {
    var i :| 0 <= i < |a| && a[i] == s;
    assert b[i] == s;
  }

  /** A transition within the activation keeps every effect covered, except the one that
      it marks compensated. */
  lemma TransitionKeepsCover(job: Job, ev: JobEvent, s: Step)
    requires JobOk(job) && Apply(job, ev).Ok? && Covers(job, s)
    requires Apply(job, ev).value.activationGeneration == job.activationGeneration
    requires ev.StepCompensated? ==> ev.compensated != s
    ensures Covers(Apply(job, ev).value, s)
  {
    var next := Apply(job, ev).value;
    ApplyEvolves(job, ev);
    ApplyKeepsJobOk(job, ev);
    if next.operation != Provisioning { CompensatedAfter(job, ev); }
    assert job.completedSteps <= next.completedSteps;
    assert Evolves(job, next.(version := job.version + 1));
    hide Apply;
    if s in job.completedSteps {
      PrefixKeepsMembers(job.completedSteps, next.completedSteps, s);
    } else {
      var k := |job.completedSteps|;
      if |next.completedSteps| > k { StepInPrefix(next, k); }
    }
    hide JobOk, InFlight, NextProvisioningStep;
  }

  /** What a transition does to the compensated steps of a job that is, or becomes, a
      compensation. */
  lemma CompensatedAfter(job: Job, ev: JobEvent)
    requires JobOk(job) && Apply(job, ev).Ok? && Apply(job, ev).value.operation != Provisioning
    ensures var next := Apply(job, ev).value;
            && next.activationGeneration == job.activationGeneration
            && (forall s :: s in next.compensatedSteps ==>
                  || (job.operation != Provisioning && s in job.compensatedSteps)
                  || (ev.StepCompensated? && ev.compensated == s))
            && (job.operation == Provisioning ==> next.compensatedSteps == [])
  {
    hide LastOutside, ObservedPrefix;
    match ev
    case CompensationBegun(steps, op) =>
    case StepCompensated(step) =>
    case _ =>
  }

  // ---------------------------------------------------------------------------
  // One move
  // ---------------------------------------------------------------------------

  /** A worker with a checked compensation is never older, within one activation, than the
      lease holder's provisioning version. */
  lemma HolderIsNotBehind(cfg: Config, w: World, q: nat, h: nat)
    requires Core(cfg, w) && q in w.procs && h in w.procs && q != h
    requires w.procs[q].Worker? && Checked(w.procs[q].pc) && w.procs[q].pc.Undo?
    requires Holds(w.shard, w.procs[h]) && w.procs[h].pc.Steps?
    ensures w.procs[q].pc.job.activationGeneration != w.procs[h].pc.job.activationGeneration
    ensures w.procs[q].pc.job.version < |w.history| - 1 || w.shard.job == Some(w.procs[h].pc.job)
  {
    var p, r := w.procs[h], w.procs[q];
    assert ProcessOk(cfg, w, p) && ProcessOk(cfg, w, r);
    assert InOrder(r, p);
    var j, k := r.pc.job, p.pc.job;
    assert j.version <= k.version;
    HistoryEvolves(w.history, j.version, k.version);
  }

  lemma LastEvolves(cfg: Config, w: World, job: Job)
    requires HistoryOk(cfg, w) && IsVersion(w.history, job)
    ensures w.shard.job.Some? && JobOk(job) && JobOk(w.shard.job.value) && Evolves(job, w.shard.job.value)
  {
    HistoryEvolves(w.history, job.version, |w.history| - 1);
  }

  /** An effect executed by the lease holder is covered by the stored job. */
  lemma ExecutedIsCovered(cfg: Config, w: World, pid: nat)
    requires Core(cfg, w) && pid in w.procs && w.procs[pid].pc.Steps? && Holds(w.shard, w.procs[pid])
    requires MayExecute(w, w.procs[pid])
    requires w.shard.job.Some? && w.shard.job.value.activationGeneration == w.procs[pid].pc.job.activationGeneration
    ensures Covers(w.shard.job.value, StepOf(w.procs[pid].pc.job))
  {
    var p := w.procs[pid];
    assert ProcessOk(cfg, w, p);
    var j, last := p.pc.job, w.shard.job.value;
    LastEvolves(cfg, w, j);
    var k := |j.completedSteps|;
    if |last.completedSteps| > k { StepInPrefix(last, k); }
  }

  lemma ExecuteKeepsEffects(cfg: Config, w: World, pid: nat, m: Move, w': World)
    requires Core(cfg, w) && EffectsOk(w) && pid in w.procs
    requires Flow(w.shard, w.procs[pid], m) && m.op.Execute?
    requires w' == ApplyOp(w, TokenOfProcess(w.procs[pid]), m.op).(procs := WithProcess(w.procs, pid, Advance(w.procs[pid], m.next)))
    ensures LogOk(w') && UndoesAreOrdered(w') && CoverageOk(w') && AllUndoingOk(w')
  {
    var p := w.procs[pid];
    var j, s := p.pc.job, StepOf(p.pc.job);
    var e := Executed(j.activationGeneration, s, TokenOfProcess(p), j.version);
    assert ProcessOk(cfg, w, p);
    if pid in w'.procs { SuccessorShape(p, m, w'.procs[pid]); }
    hide CounterOk, HandlerOk, HistoryOk, JobPut, EntryFacts, OrderFlow;
    assert w'.log == w.log + [e];
    forall x, q | x in w'.log && q in w'.procs ensures ReadAfter(x, w'.procs[q]) {
      if x != e {
        assert ReadAfter(x, p);
        if q != pid { assert ReadAfter(x, w.procs[q]); }
      }
    }
    assert CoverageOk(w') by {
      if w.shard.job.Some? {
        var last := w.shard.job.value;
        forall t | Outstanding(w'.log, last.activationGeneration, t) ensures Covers(last, t) {
          OutstandingSnoc(w.log, e, last.activationGeneration, t);
          if e.generation == last.activationGeneration && t == s {
            assert MayExecute(w, p);
            ExecutedIsCovered(cfg, w, pid);
          }
        }
      }
    }
    forall q | q in w'.procs ensures UndoingOk(w', w'.procs[q]) {
      if q != pid && Undoing(w.procs[q].pc) {
        assert UndoingOk(w, w.procs[q]);
        assert ProcessOk(cfg, w, w.procs[q]) && w.procs[q].Worker?;
        HolderIsNotBehind(cfg, w, q, pid);
        OutstandingSnoc(w.log, e, w.procs[q].pc.job.activationGeneration, UndoStepOf(w.procs[q].pc.job));
      }
    }
  }

  lemma CompensateKeepsEffects(cfg: Config, w: World, pid: nat, m: Move, w': World)
    requires Core(cfg, w) && EffectsOk(w) && pid in w.procs
    requires Flow(w.shard, w.procs[pid], m) && m.op.Compensate?
    requires w' == ApplyOp(w, TokenOfProcess(w.procs[pid]), m.op).(procs := WithProcess(w.procs, pid, Advance(w.procs[pid], m.next)))
    ensures LogOk(w') && UndoesAreOrdered(w') && CoverageOk(w') && AllUndoingOk(w')
  {
    var p := w.procs[pid];
    var j, s := p.pc.job, UndoStepOf(p.pc.job);
    var e := Undone(j.activationGeneration, s, TokenOfProcess(p), j.version);
    assert ProcessOk(cfg, w, p);
    if pid in w'.procs { SuccessorShape(p, m, w'.procs[pid]); }
    hide HandlerOk, HistoryOk, JobPut, EntryFacts, OrderFlow;
    assert w'.log == w.log + [e];
    forall x, q | x in w'.log && q in w'.procs ensures ReadAfter(x, w'.procs[q]) {
      if q != pid && w.procs[q].Worker? { assert ProcessOk(cfg, w, w.procs[q]); }
      if x != e {
        assert ReadAfter(x, p);
        if q != pid { assert ReadAfter(x, w.procs[q]); }
      }
    }
    hide CounterOk;
    if w.shard.job.Some? {
      forall t ensures Outstanding(w'.log, w.shard.job.value.activationGeneration, t)
                       ==> Outstanding(w.log, w.shard.job.value.activationGeneration, t) {
        OutstandingSnoc(w.log, e, w.shard.job.value.activationGeneration, t);
      }
    }
    forall q | q in w'.procs ensures UndoingOk(w', w'.procs[q]) {
      if q == pid {
        OutstandingSnoc(w.log, e, e.generation, s);
      } else if Undoing(w.procs[q].pc) {
        assert UndoingOk(w, w.procs[q]);
        OutstandingSnoc(w.log, e, w.procs[q].pc.job.activationGeneration, UndoStepOf(w.procs[q].pc.job));
      }
    }
  }

  /** A job write after which the world is otherwise the same. */
  ghost predicate Put(cfg: Config, w: World, pid: nat, m: Move, w': World) {
    && pid in w.procs && m.op.SetJob?
    && Flow(w.shard, w.procs[pid], m)
    && w' == ApplyOp(w, TokenOfProcess(w.procs[pid]), m.op)
             .(procs := WithProcess(w.procs, pid, Advance(w.procs[pid], m.next)))
  }

  /** The version that a write replaces, and how the new one comes from it. */
  lemma PutShape(cfg: Config, w: World, pid: nat, m: Move, w': World)
    requires Core(cfg, w) && Put(cfg, w, pid, m, w')
    ensures w'.history == w.history + [m.op.job] && w'.shard.job == Some(m.op.job)
    ensures w'.log == w.log && w'.shard.lease == w.shard.lease
    ensures m.op.job.version == |w.history|
    ensures w.shard.job.None? <==> w.history == []
    ensures w.shard.job.Some? ==>
              var p, last := w.procs[pid], w.shard.job.value;
              && last == w.history[|w.history| - 1] && JobOk(last)
              && EventOf(p).Some? && SnapshotOf(p.pc) == Some(last)
              && Apply(last, EventOf(p).value).Ok?
              && m.op.job == Apply(last, EventOf(p).value).value.(version := |w.history|)
  {
    var p := w.procs[pid];
    assert ProcessOk(cfg, w, p);
    PutIsWrite(cfg, w, p, m.op.job);
    HistoryAfterPut(cfg, w, p, m.op.job, ApplyOp(w, TokenOfProcess(p), m.op));
    OpTouches(w, TokenOfProcess(p), m.op);
    if w.history != [] {
      var n := |w.history| - 1;
      HistoryEvolves(w.history, n, n);
      assert w.history[n].version == n;
    }
    hide ApplyOp, JobOk, LoopFlow, EntryFacts, CallFlow, OrderFlow, ProcessOk, Apply, CreateProvisioningJob, JobWrite, IsNewJob;
  }

  lemma NoEffectBeforeFirst(cfg: Config, w: World, g: nat, s: Step)
    requires HistoryOk(cfg, w) && LogOk(w)
    requires w.shard.job.Some? ==> w.shard.job.value.activationGeneration < g
    ensures !Outstanding(w.log, g, s)
  {
    if Outstanding(w.log, g, s) {
      OutstandingWasExecuted(w.log, g, s);
      var e :| e in w.log && e.generation == g;
      assert EntryOk(w, e);
      assert w.history[e.version].version == e.version;
      LastEvolves(cfg, w, w.history[e.version]);
    }
  }

  /** A worker at its compensation checkpoint knows that its effect is gone. */
  lemma CheckpointIsUndone(w: World, p: Process)
    requires UndoingOk(w, p) && EventOf(p).Some? && EventOf(p).value.StepCompensated?
    ensures p.pc.Undo? && SnapshotOf(p.pc) == Some(p.pc.job)
    ensures !Outstanding(w.log, p.pc.job.activationGeneration, EventOf(p).value.compensated)
    ensures HasUndone(w.log, p.pc.job.activationGeneration, EventOf(p).value.compensated)
  {
  }

  lemma GenerationAfter(job: Job, ev: JobEvent)
    requires Apply(job, ev).Ok?
    ensures Apply(job, ev).value.activationGeneration
            == if ev.Resumed? then job.activationGeneration + 1 else job.activationGeneration
  {
  }

  lemma PutKeepsCoverage(cfg: Config, w: World, pid: nat, m: Move, w': World)
    requires Core(cfg, w) && EffectsOk(w) && Put(cfg, w, pid, m, w')
    ensures CoverageOk(w')
  {
    PutShape(cfg, w, pid, m, w');
    assert UndoingOk(w, w.procs[pid]);
    hide Flow, ApplyOp, Core, JobOk, UndoingOk;
    var stored := m.op.job;
    forall t | Outstanding(w.log, stored.activationGeneration, t) ensures Covers(stored, t) {
      if w.shard.job.None? {
        NoEffectBeforeFirst(cfg, w, stored.activationGeneration, t) by { CoreHistory(cfg, w); }
      } else {
        PutCovers(cfg, w, pid, m, t) by { CoreHistory(cfg, w); }
      }
    }
  }

  lemma CoreHistory(cfg: Config, w: World)
    requires Core(cfg, w)
    ensures HistoryOk(cfg, w)
  {
  }

  lemma PutCovers(cfg: Config, w: World, pid: nat, m: Move, t: Step)
    requires HistoryOk(cfg, w) && EffectsOk(w) && pid in w.procs && m.op.SetJob? && w.shard.job.Some?
    requires var p, last := w.procs[pid], w.shard.job.value;
             && JobOk(last) && EventOf(p).Some? && SnapshotOf(p.pc) == Some(last)
             && Apply(last, EventOf(p).value).Ok?
             && m.op.job == Apply(last, EventOf(p).value).value.(version := |w.history|)
    requires Outstanding(w.log, m.op.job.activationGeneration, t)
    ensures Covers(m.op.job, t)
  {
    var p, last := w.procs[pid], w.shard.job.value;
    var ev := EventOf(p).value;
    GenerationAfter(last, ev);
    assert UndoingOk(w, p);
    if ev.StepCompensated? { CheckpointIsUndone(w, p); }
    if ev.Resumed? {
      NoEffectBeforeFirst(cfg, w, m.op.job.activationGeneration, t);
    } else {
      hide Apply, HistoryOk, EventOf, UndoingOk;
      TransitionKeepsCover(last, ev, t);
    }
  }

  lemma PutKeepsUndone(cfg: Config, w: World, pid: nat, m: Move, w': World)
    requires Core(cfg, w) && EffectsOk(w) && Put(cfg, w, pid, m, w')
    ensures CompensatedWereUndone(w')
  {
    PutShape(cfg, w, pid, m, w');
    var p := w.procs[pid];
    assert UndoingOk(w, p);
    hide Flow, ApplyOp, Core, JobOk, UndoingOk;
    if w.shard.job.Some? && m.op.job.operation != Provisioning {
      var last, ev := w.shard.job.value, EventOf(p).value;
      CompensatedAfter(last, ev);
      if ev.StepCompensated? { CheckpointIsUndone(w, p); }
    }
  }

  /** Another worker's write leaves the lease holder free to execute. */
  lemma OthersWriteKeepsMayExecute(cfg: Config, w: World, pid: nat, m: Move, q: nat, last: Job, ev: JobEvent)
    requires Core(cfg, w) && pid in w.procs && q in w.procs && q != pid
    requires MayExecute(w, w.procs[q]) && Holds(w.shard, w.procs[q]) && w.procs[q].pc.Steps?
    requires w.shard.job == Some(last) && JobOk(last) && EventOf(w.procs[pid]) == Some(ev)
    requires SnapshotOf(w.procs[pid].pc) == Some(last) && last.version == |w.history| - 1
    requires Apply(last, ev).Ok? && Apply(last, ev).value.operation != Provisioning
    requires Apply(last, ev).value.activationGeneration == w.procs[q].pc.job.activationGeneration
    ensures StepOf(w.procs[q].pc.job) !in Apply(last, ev).value.compensatedSteps
  {
    CompensatedAfter(last, ev);
    assert ProcessOk(cfg, w, w.procs[pid]) && ProcessOk(cfg, w, w.procs[q]);
    hide JobOk, Apply;
    if ev.StepCompensated? {
      HolderIsNotBehind(cfg, w, pid, q);
    }
  }

  lemma PutKeepsMayExecute(cfg: Config, w: World, pid: nat, m: Move, w': World, q: nat)
    requires Core(cfg, w) && EffectsOk(w) && Put(cfg, w, pid, m, w') && q in w'.procs
    ensures MayExecute(w', w'.procs[q])
  {
    PutShape(cfg, w, pid, m, w');
    var p, r, stored := w.procs[pid], w'.procs[q], m.op.job;
    if q == pid {
      SuccessorShape(p, m, r);
      hide Core, EffectsOk, JobPut, EntryFacts, OrderFlow, CallFlow, SnapshotIsFresh, ApplyOp, JobOk, Apply;
    } else {
      assert MayExecute(w, r);
      hide EffectsOk, Flow, ApplyOp, JobOk, Apply;
      if Holds(w.shard, r) && r.pc.Steps? && stored.operation != Provisioning && w.shard.job.Some? {
        assert w.shard.job.value.version == |w.history| - 1;
        if stored.activationGeneration == r.pc.job.activationGeneration {
          OthersWriteKeepsMayExecute(cfg, w, pid, m, q, w.shard.job.value, EventOf(p).value);
        }
      }
    }
  }

  lemma PutKeepsLog(cfg: Config, w: World, pid: nat, m: Move, w': World)
    requires Core(cfg, w) && EffectsOk(w) && Put(cfg, w, pid, m, w')
    ensures LogOk(w') && UndoesAreOrdered(w')
  {
    PutShape(cfg, w, pid, m, w');
    var p := w.procs[pid];
    if pid in w'.procs { SuccessorShape(p, m, w'.procs[pid]); }
    hide Core, HandlerOk, JobPut, EntryFacts, OrderFlow, ApplyOp, JobOk, Apply, CoverageOk, CompensatedWereUndone,
      HolderMayExecute, AllUndoingOk, LoopFlow, CallFlow;
    forall e | e in w'.log ensures EntryOk(w', e) { assert EntryOk(w, e); }
    forall e, q | e in w'.log && q in w'.procs ensures ReadAfter(e, w'.procs[q]) {
      assert EntryOk(w, e);
      if q != pid { assert ReadAfter(e, w.procs[q]); }
    }
  }

  lemma PutKeepsEffects(cfg: Config, w: World, pid: nat, m: Move, w': World)
    requires Core(cfg, w) && EffectsOk(w) && Put(cfg, w, pid, m, w')
    ensures EffectsOk(w')
  {
    PutShape(cfg, w, pid, m, w');
    PutKeepsCoverage(cfg, w, pid, m, w');
    PutKeepsUndone(cfg, w, pid, m, w');
    PutKeepsLog(cfg, w, pid, m, w');
    forall q | q in w'.procs ensures MayExecute(w', w'.procs[q]) { PutKeepsMayExecute(cfg, w, pid, m, w', q); }
    var p := w.procs[pid];
    if pid in w'.procs { SuccessorShape(p, m, w'.procs[pid]); }
    hide Core, HandlerOk, JobPut, EntryFacts, OrderFlow, ApplyOp, JobOk, Apply, CoverageOk, CompensatedWereUndone, MayExecute,
      LogOk, UndoesAreOrdered, SnapshotIsFresh, CallFlow;
    forall q | q in w'.procs ensures UndoingOk(w', w'.procs[q]) {
      if q != pid { assert UndoingOk(w, w.procs[q]); }
    }
  }

  lemma CoreJobVersion(cfg: Config, w: World)
    requires Core(cfg, w)
    ensures w.shard.job.Some? ==> w.shard.job.value.version == |w.history| - 1
  {
    if w.history != [] { assert w.history[|w.history| - 1].version == |w.history| - 1; }
  }

  lemma MovedReadsAfter(w: World, e: Effect, p: Process, m: Move, p': Process)
    requires ReadAfter(e, p) && EntryOk(w, e) && Flow(w.shard, p, m) && Successor(p, m, p') && !m.op.SetJob?
    requires w.shard.job.Some? ==> w.shard.job.value.version == |w.history| - 1
    ensures ReadAfter(e, p')
  {
    SuccessorShape(p, m, p');
    hide Advance, EntryFacts, OrderFlow, CallFlow, LoopFlow, JobPut;
  }

  /** A move that leaves jobs and provider effects alone. */
  predicate Quiet(w: World, pid: nat, m: Move, w': World) {
    && pid in w.procs && Flow(w.shard, w.procs[pid], m)
    && !m.op.SetJob? && !m.op.Execute? && !m.op.Compensate?
    && w' == ApplyOp(w, TokenOfProcess(w.procs[pid]), m.op)
             .(procs := WithProcess(w.procs, pid, Advance(w.procs[pid], m.next)))
  }

  lemma QuietKeepsLog(cfg: Config, w: World, pid: nat, m: Move, w': World)
    requires Core(cfg, w) && EffectsOk(w) && Quiet(w, pid, m, w')
    ensures LogOk(w') && UndoesAreOrdered(w')
  {
    var p := w.procs[pid];
    OpTouches(w, TokenOfProcess(p), m.op);
    MoveKeepsToken(w.shard, w, p, m);
    CoreJobVersion(cfg, w);
    if pid in w'.procs { SuccessorShape(p, m, w'.procs[pid]); }
    hide Core, Flow, ApplyOp, Advance, CoverageOk, CompensatedWereUndone, HolderMayExecute, AllUndoingOk;
    forall e | e in w'.log ensures EntryOk(w', e) { assert EntryOk(w, e); }
    forall e, q | e in w'.log && q in w'.procs ensures ReadAfter(e, w'.procs[q]) {
      assert EntryOk(w, e) && ReadAfter(e, p);
      if q == pid { MovedReadsAfter(w, e, p, m, w'.procs[q]); }
      else { assert ReadAfter(e, w.procs[q]); }
    }
  }

  lemma QuietKeepsEffects(cfg: Config, w: World, pid: nat, m: Move, w': World)
    requires Core(cfg, w) && EffectsOk(w) && Quiet(w, pid, m, w')
    ensures EffectsOk(w')
  {
    var p := w.procs[pid];
    QuietKeepsLog(cfg, w, pid, m, w');
    OpTouches(w, TokenOfProcess(p), m.op);
    MoveKeepsToken(w.shard, w, p, m);
    assert ProcessOk(cfg, w, p);
    if SnapshotOf(p.pc).Some? { LastIsNewest(cfg, w, p); }
    if pid in w'.procs { SuccessorShape(p, m, w'.procs[pid]); }
    assert p.Worker? ==> p.lease.fencingToken <= TokenOf(w.shard.lease);
    hide Core, HandlerOk, CounterOk, EntryFacts, OrderFlow, ApplyOp, JobOk, Advance, LogOk, UndoesAreOrdered;
    assert UndoingOk(w, p) && MayExecute(w, p);
    forall q | q in w'.procs ensures UndoingOk(w', w'.procs[q]) {
      if q != pid { assert UndoingOk(w, w.procs[q]); }
    }
    forall q | q in w'.procs ensures MayExecute(w', w'.procs[q]) {
      if q != pid { assert MayExecute(w, w.procs[q]); }
    }
  }

  lemma CallKeepsUndone(w: World, e: Effect, w': World)
    requires CompensatedWereUndone(w) && w'.log == w.log + [e] && w'.shard.job == w.shard.job
    ensures CompensatedWereUndone(w')
  {
    if w.shard.job.Some? {
      var last := w.shard.job.value;
      forall s | s in last.compensatedSteps ensures HasUndone(w.log, last.activationGeneration, s)
                                                    ==> HasUndone(w'.log, last.activationGeneration, s) {
        OutstandingSnoc(w.log, e, last.activationGeneration, s);
      }
    }
  }

  lemma CallKeepsEffects(cfg: Config, w: World, pid: nat, m: Move, w': World)
    requires Core(cfg, w) && EffectsOk(w) && pid in w.procs && Flow(w.shard, w.procs[pid], m)
    requires m.op.Execute? || m.op.Compensate?
    requires w' == ApplyOp(w, TokenOfProcess(w.procs[pid]), m.op)
                   .(procs := WithProcess(w.procs, pid, Advance(w.procs[pid], m.next)))
    ensures EffectsOk(w')
  {
    var p := w.procs[pid];
    OpTouches(w, TokenOfProcess(p), m.op);
    assert ProcessOk(cfg, w, p) && MayExecute(w, p);
    CallKeepsUndone(w, w'.log[|w.log|], w');
    hide ApplyOp;
    if m.op.Execute? {
      ExecuteKeepsEffects(cfg, w, pid, m, w');
    } else {
      CompensateKeepsEffects(cfg, w, pid, m, w');
    }
    if pid in w'.procs { SuccessorShape(p, m, w'.procs[pid]); }
    hide Core, HandlerOk, CounterOk, EntryFacts, OrderFlow, ApplyOp, Advance, SnapshotIsFresh, CoverageOk, LogOk,
      UndoesAreOrdered, AllUndoingOk, CompensatedWereUndone;
    forall q | q in w'.procs ensures MayExecute(w', w'.procs[q]) {
      if q != pid { assert MayExecute(w, w.procs[q]); }
    }
  }

  lemma MoveKeepsEffects(cfg: Config, w: World, pid: nat, c: Choice, m: Move, w': World)
    requires Core(cfg, w) && EffectsOk(w) && Moves(cfg, w, pid, c, m, w')
    ensures EffectsOk(w')
  {
    hide Plan;
    MoveKeepsHistory(cfg, w, pid, c, m, w');
    hide Core, EffectsOk, Flow, ApplyOp, Advance, HistoryOk;
    if m.op.SetJob? {
      PutKeepsEffects(cfg, w, pid, m, w');
    } else if m.op.Execute? || m.op.Compensate? {
      CallKeepsEffects(cfg, w, pid, m, w');
    } else {
      QuietKeepsEffects(cfg, w, pid, m, w');
    }
  }

  /** Starting, delivering and crashing change no job and no provider effect, and bring no
      process that has read a job. */
  ghost predicate NothingDone(w: World, w': World) {
    && w'.log == w.log && w'.history == w.history && w'.shard.job == w.shard.job
    && TokenOf(w'.shard.lease) >= TokenOf(w.shard.lease)
    && forall q :: q in w'.procs && (q !in w.procs || w'.procs[q] != w.procs[q]) ==>
         SnapshotOf(w'.procs[q].pc).None? && !w'.procs[q].pc.Steps? && !w'.procs[q].pc.Undo?
  }

  lemma OtherDoesNothing(cfg: Config, w: World, a: Action, w': World)
    requires Core(cfg, w) && !a.Continue? && Perform(cfg, w, a) == Some(w')
    ensures NothingDone(w, w')
  {
    if a.StartRun? { NewLeaseIsNewest(cfg, w, a, w'); }
    hide Core;
  }

  lemma OtherKeepsEffects(cfg: Config, w: World, a: Action, w': World)
    requires Core(cfg, w) && EffectsOk(w) && !a.Continue? && Perform(cfg, w, a) == Some(w')
    ensures EffectsOk(w')
  {
    OtherDoesNothing(cfg, w, a, w');
    hide Perform;
    forall q | q in w.procs ensures ProcessOk(cfg, w, w.procs[q]) {}
    hide Core;
    forall e | e in w'.log ensures EntryOk(w', e) { assert EntryOk(w, e); }
    hide EntryOk;
    forall e, q | e in w'.log && q in w'.procs ensures ReadAfter(e, w'.procs[q]) {
      if q in w.procs { assert ReadAfter(e, w.procs[q]); }
    }
    hide ReadAfter;
    forall q | q in w'.procs ensures UndoingOk(w', w'.procs[q]) {
      if q in w.procs { assert UndoingOk(w, w.procs[q]); }
    }
    forall q | q in w'.procs ensures MayExecute(w', w'.procs[q]) {
      if q in w.procs {
        assert MayExecute(w, w.procs[q]) && ProcessOk(cfg, w, w.procs[q]);
      }
    }
  }

  lemma StepKeepsEffects(cfg: Config, w: World, a: Action, w': World)
    requires Core(cfg, w) && EffectsOk(w) && Perform(cfg, w, a) == Some(w')
    ensures EffectsOk(w')
  {
    hide Plan, Core, EffectsOk;
    if a.Continue? {
      MoveKeepsEffects(cfg, w, a.pid, a.choice, Plan(cfg, w.shard, w.secrets, w.procs[a.pid], a.choice).value, w');
    } else {
      OtherKeepsEffects(cfg, w, a, w');
    }
  }

  lemma {:induction false} RunIsSafe(cfg: Config, actions: seq<Action>)
    requires Run(cfg, actions).Some?
    ensures Core(cfg, Run(cfg, actions).value) && EffectsOk(Run(cfg, actions).value)
  {
    if actions != [] {
      var n := |actions| - 1;
      RunIsSafe(cfg, actions[..n]);
      hide Core, EffectsOk, Perform;
      StepKeepsCore(cfg, Run(cfg, actions[..n]).value, actions[n], Run(cfg, actions).value);
      StepKeepsEffects(cfg, Run(cfg, actions[..n]).value, actions[n], Run(cfg, actions).value);
    }
  }

  // ---------------------------------------------------------------------------
  // Theorems
  // ---------------------------------------------------------------------------

  /** Under every interleaving of handlers and workers, with crashes and takeovers at any
      point: an effect of the stored job's activation that was not undone since is a
      completed step, or the next step of a running or failed provisioning job; once
      compensation has begun it is completed and not yet compensated. */
  lemma EveryEffectIsCovered(cfg: Config, actions: seq<Action>, step: Step)
    requires Run(cfg, actions).Some? && Run(cfg, actions).value.shard.job.Some?
    requires var w := Run(cfg, actions).value;
             Outstanding(w.log, w.shard.job.value.activationGeneration, step)
    ensures Covers(Run(cfg, actions).value.shard.job.value, step)
  {
    RunIsSafe(cfg, actions);
  }

  /** A disabled job leaves no effect of its activation uncompensated. */
  lemma DisabledLeavesNoEffect(cfg: Config, actions: seq<Action>, step: Step)
    requires Run(cfg, actions).Some? && Run(cfg, actions).value.shard.job.Some?
    requires Run(cfg, actions).value.shard.job.value.state == Disabled
    ensures var w := Run(cfg, actions).value;
            !Outstanding(w.log, w.shard.job.value.activationGeneration, step)
  {
    RunIsSafe(cfg, actions);
    var w := Run(cfg, actions).value;
    HistoryEvolves(w.history, |w.history| - 1, |w.history| - 1);
  }

  /** Every stored version of a job comes from the one before it by a job transition, is
      valid, and evolves from every earlier one. */
  lemma StoredJobsAreTransitions(cfg: Config, actions: seq<Action>, i: nat, j: nat)
    requires Run(cfg, actions).Some? && i <= j < |Run(cfg, actions).value.history|
    ensures var h := Run(cfg, actions).value.history;
            && JobHistory(h) && Run(cfg, actions).value.shard.job == Some(h[|h| - 1])
            && JobOk(h[i]) && JobOk(h[j]) && Evolves(h[i], h[j])
  {
    RunIsSafe(cfg, actions);
    HistoryEvolves(Run(cfg, actions).value.history, i, j);
  }
}
