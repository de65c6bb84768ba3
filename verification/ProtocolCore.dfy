/** The invariant of every reachable world on which the safety theorems rest: the stored
    job runs through the job transitions, snapshots are versions of it, tokens are unique,
    and checked snapshots follow the order of the tokens. */
module ProtocolCore {
  import opened Domain
  import opened Billing
  import opened Jobs
  import opened Store
  import opened Protocol
  import opened ProtocolSteps

  function LastOf(h: seq<Job>): Option<Job> {
    if h == [] then None else Some(h[|h| - 1])
  }

  predicate IsVersion(h: seq<Job>, j: Job) {
    j.version < |h| && h[j.version] == j
  }

  /** The stored job is the last of its history, which is made of job transitions. */
  ghost predicate HistoryOk(cfg: Config, w: World) {
    && JobHistory(w.history)
    && w.shard.job == LastOf(w.history)
    && forall j :: j in w.history ==> j.subscriptionId == cfg.sub
  }

  predicate HandlerOk(cfg: Config, p: Process) {
    p.Handler? ==>
      && Deliverable(p.event, cfg.sub)
      && (p.pc.Handling? && (p.pc.h.GetJob? || p.pc.h.Create?) ==> p.pc.h.order.subscriptionId == cfg.sub)
      && (p.pc.Handling? && p.pc.h.PutOrder? ==> p.pc.h.reduced.subscriptionId == cfg.sub)
  }

  predicate ProcessOk(cfg: Config, w: World, p: Process) {
    && CounterOk(p) && HandlerOk(cfg, p)
    && (SnapshotOf(p.pc).Some? ==> IsVersion(w.history, SnapshotOf(p.pc).value))
    && (p.Worker? ==> 0 < p.lease.fencingToken <= TokenOf(w.shard.lease))
  }

  ghost predicate ProcessesOk(cfg: Config, w: World) {
    forall pid :: pid in w.procs ==> ProcessOk(cfg, w, w.procs[pid])
  }

  ghost predicate TokensDiffer(w: World) {
    forall a, b :: a in w.procs && b in w.procs && a != b && w.procs[a].Worker? && w.procs[b].Worker? ==>
      w.procs[a].lease.fencingToken != w.procs[b].lease.fencingToken
  }

  /** A checked snapshot of an older token is no newer than any snapshot of a newer one. */
  predicate InOrder(older: Process, newer: Process) {
    older.Worker? && newer.Worker? && older.lease.fencingToken < newer.lease.fencingToken
    && Checked(older.pc) && SnapshotOf(newer.pc).Some?
    ==> older.pc.job.version <= SnapshotOf(newer.pc).value.version
  }

  ghost predicate SnapshotsInOrder(w: World) {
    forall a, b :: a in w.procs && b in w.procs ==> InOrder(w.procs[a], w.procs[b])
  }

  ghost predicate OrderSubOk(cfg: Config, w: World) {
    w.shard.order.Some? ==> w.shard.order.value.subscriptionId == cfg.sub
  }

  ghost predicate Core(cfg: Config, w: World) {
    && HistoryOk(cfg, w) && ProcessesOk(cfg, w) && TokensDiffer(w) && SnapshotsInOrder(w)
    && OrderSubOk(cfg, w)
  }

  // ---------------------------------------------------------------------------
  // One move
  // ---------------------------------------------------------------------------

  /** A move that `Plan` allows, the world before it and the world after it. */
  ghost predicate Moves(cfg: Config, w: World, pid: nat, c: Choice, m: Move, w': World) {
    && pid in w.procs
    && Plan(cfg, w.shard, w.secrets, w.procs[pid], c) == Some(m)
    && w' == ApplyOp(w, TokenOfProcess(w.procs[pid]), m.op)
             .(procs := WithProcess(w.procs, pid, Advance(w.procs[pid], m.next)))
  }

  /** A job transition at its counter always changes the job. */
  lemma EventChanges(p: Process)
    requires CounterOk(p) && SnapshotOf(p.pc).Some? && EventOf(p).Some?
    requires JobOk(SnapshotOf(p.pc).value) && Apply(SnapshotOf(p.pc).value, EventOf(p).value).Ok?
    ensures Apply(SnapshotOf(p.pc).value, EventOf(p).value).value != SnapshotOf(p.pc).value
  {
    var j := SnapshotOf(p.pc).value;
    match p.pc
    case Steps(job, at) =>
      PrefixIsTake(job.completedSteps);
      PrefixElements(|job.completedSteps|, 0);
      assert StepIndex(STEPS[|job.completedSteps|]) == |job.completedSteps|;
    case Undo(job, at) => CompensationTakesLargest(job);
    case Handling(at) => hide JobOk;
    case Transition(at, op, _, _) => hide JobOk, TransitionTarget;
    case Outside(at) => hide JobOk, TransitionTarget;
  }

  lemma PutIsWrite(cfg: Config, w: World, p: Process, stored: Job)
    requires HistoryOk(cfg, w) && ProcessOk(cfg, w, p) && JobPut(w.shard, p, stored)
    ensures if w.history == [] then IsNewJob(stored) && stored.subscriptionId == cfg.sub && Creates(p)
            else JobWrite(w.history[|w.history| - 1], stored) && stored.subscriptionId == cfg.sub
                 && !Creates(p) && SnapshotOf(p.pc) == Some(w.history[|w.history| - 1])
  {
    hide JobOk, Apply;
    if !Creates(p) {
      var n := |w.history| - 1;
      assert w.history[n].version == n;
      var read := SnapshotOf(p.pc).value;
      assert read == w.history[n];
      HistoryEvolves(w.history, n, n);
      EventChanges(p);
      assert JobWrite(read, stored);
      WriteEvolves(read, stored);
    }
  }

  /** Which part of the world each shared operation touches. */
  lemma OpTouches(w: World, token: nat, op: SharedOp)
    ensures var v := ApplyOp(w, token, op);
            && v.history == (if op.SetJob? then w.history + [op.job] else w.history)
            && v.shard.job == (if op.SetJob? then Some(op.job) else w.shard.job)
            && v.shard.order == (if op.SetOrder? then Some(op.order) else w.shard.order)
            && v.committed == (if op.SetOrder? then w.committed + [op.event] else w.committed)
            && v.shard.lease == (if op.SetLease? then op.lease else w.shard.lease)
            && v.shard.handoffs == (if op.SetPointer? then w.shard.handoffs[op.pointer.handoffId := op.pointer] else w.shard.handoffs)
            && v.secrets == (if op.CreateSecret? then w.secrets + {op.secret} else w.secrets)
            && v.procs == w.procs
            && (if op.Execute? then v.log == w.log + [Executed(op.onBehalf.activationGeneration, op.step, token, op.onBehalf.version)]
                else if op.Compensate? then v.log == w.log + [Undone(op.onBehalf.activationGeneration, op.step, token, op.onBehalf.version)]
                else v.log == w.log)
  {
  }

  lemma HistoryAfterPut(cfg: Config, w: World, p: Process, stored: Job, v: World)
    requires HistoryOk(cfg, w) && ProcessOk(cfg, w, p) && JobPut(w.shard, p, stored)
    requires v.history == w.history + [stored] && v.shard.job == Some(stored)
    ensures HistoryOk(cfg, v)
  {
    PutIsWrite(cfg, w, p, stored);
    HistoryGrows(w.history, stored);
    hide JobHistory, ProcessOk, JobPut, JobWrite;
  }

  lemma MoveKeepsHistory(cfg: Config, w: World, pid: nat, c: Choice, m: Move, w': World)
    requires Core(cfg, w) && Moves(cfg, w, pid, c, m, w')
    ensures HistoryOk(cfg, w')
    ensures Flow(w.shard, w.procs[pid], m)
    ensures w.history <= w'.history
    ensures w'.history == if m.op.SetJob? then w.history + [m.op.job] else w.history
  {
    hide Plan;
    var p := w.procs[pid];
    assert ProcessOk(cfg, w, p);
    PlanFlow(cfg, w.shard, w.secrets, p, c, m);
    OpTouches(w, TokenOfProcess(p), m.op);
    hide CounterOk, JobHistory, ApplyOp, ProcessOk, JobPut, LoopFlow, EntryFacts, CallFlow, SnapshotIsFresh, OrderFlow;
    if m.op.SetJob? {
      HistoryAfterPut(cfg, w, p, m.op.job, w');
    }
  }

  /** The process that moved, if it goes on. */
  predicate Successor(p: Process, m: Move, p': Process) {
    && Advance(p, m.next) == Some(p')
  }

  lemma SuccessorShape(p: Process, m: Move, p': Process)
    requires Successor(p, m, p')
    ensures p'.Worker? == p.Worker?
    ensures p.Worker? ==> p'.lease == p.lease && p'.now == p.now
    ensures p.Handler? ==> p'.event == p.event && p'.policy == p.policy
    ensures if m.next.Goto? then p'.pc == m.next.pc else p.Worker? && p'.pc.Outside? && SnapshotOf(p'.pc).None?
    ensures !m.next.Goto? ==> !p'.pc.r.RunStart?
  {
  }

  lemma MovedCounterOk(w: World, p: Process, m: Move, p': Process)
    requires CounterOk(p) && Flow(w.shard, p, m) && Successor(p, m, p')
    ensures CounterOk(p')
  {
    SuccessorShape(p, m, p');
    hide Advance, IsStepJob, IsUndoJob, TransitionTarget, StartProvisioningAttempt, JobPut, CallFlow, OrderFlow,
      ReduceBillingEvent;
  }

  lemma ReductionKeepsSub(cfg: Config, w: World, e: Event)
    requires OrderSubOk(cfg, w) && Deliverable(e, cfg.sub) && ReduceBillingEvent(w.shard.order, e).Ok?
    requires ReduceBillingEvent(w.shard.order, e).value.order.Some?
    ensures ReduceBillingEvent(w.shard.order, e).value.order.value.subscriptionId == cfg.sub
  {
  }

  lemma MovedHandlerOk(cfg: Config, w: World, p: Process, m: Move, p': Process)
    requires OrderSubOk(cfg, w) && HandlerOk(cfg, p) && Flow(w.shard, p, m) && Successor(p, m, p')
    ensures HandlerOk(cfg, p')
  {
    SuccessorShape(p, m, p');
    hide Advance, Deliverable, IsStepJob, IsUndoJob, TransitionTarget, StartProvisioningAttempt, JobPut, CallFlow, LoopFlow;
    if p.Handler? && m.next.Goto? && m.next.pc.Handling? && m.next.pc.h.PutOrder? {
      ReductionKeepsSub(cfg, w, p.event);
    }
    hide ReduceBillingEvent;
  }

  lemma MovedSnapshotStored(cfg: Config, w: World, pid: nat, c: Choice, m: Move, w': World, p': Process)
    requires Core(cfg, w) && Moves(cfg, w, pid, c, m, w') && Successor(w.procs[pid], m, p')
    ensures SnapshotOf(p'.pc).Some? ==> IsVersion(w'.history, SnapshotOf(p'.pc).value)
  {
    hide Plan;
    MoveKeepsHistory(cfg, w, pid, c, m, w');
    SuccessorShape(w.procs[pid], m, p');
    var n := |w'.history| - 1;
    if n >= 0 { assert w'.history[n].version == n; }
    if |w.history| > 0 { assert w.history[|w.history| - 1].version == |w.history| - 1; }
    hide JobHistory, Advance, Deliverable, CounterOk, JobPut, LoopFlow, CallFlow, OrderFlow, EntryFacts;
  }

  lemma MoveKeepsToken(sh: Shard, w: World, p: Process, m: Move)
    requires Flow(w.shard, p, m)
    ensures TokenOf(ApplyOp(w, TokenOfProcess(p), m.op).shard.lease) == TokenOf(w.shard.lease)
  {
  }

  lemma MovedProcessOk(cfg: Config, w: World, pid: nat, c: Choice, m: Move, w': World, p': Process)
    requires Core(cfg, w) && Moves(cfg, w, pid, c, m, w') && Successor(w.procs[pid], m, p')
    ensures ProcessOk(cfg, w', p')
  {
    hide Plan;
    var p := w.procs[pid];
    MoveKeepsHistory(cfg, w, pid, c, m, w');
    SuccessorShape(p, m, p');
    MovedCounterOk(w, p, m, p');
    MovedHandlerOk(cfg, w, p, m, p');
    MovedSnapshotStored(cfg, w, pid, c, m, w', p');
    MoveKeepsToken(w.shard, w, p, m);
    hide Advance, CounterOk, HandlerOk, Flow, HistoryOk, IsVersion, ApplyOp;
  }

  lemma MoveKeepsProcesses(cfg: Config, w: World, pid: nat, c: Choice, m: Move, w': World)
    requires Core(cfg, w) && Moves(cfg, w, pid, c, m, w')
    ensures ProcessesOk(cfg, w') && TokensDiffer(w')
  {
    hide Plan;
    MoveKeepsHistory(cfg, w, pid, c, m, w');
    MoveKeepsToken(w.shard, w, w.procs[pid], m);
    forall q | q in w'.procs ensures ProcessOk(cfg, w', w'.procs[q]) {
      if q == pid {
        MovedProcessOk(cfg, w, pid, c, m, w', w'.procs[q]);
      } else {
        OtherProcessOk(cfg, w, w', w.procs[q]);
      }
    }
    if pid in w'.procs { SuccessorShape(w.procs[pid], m, w'.procs[pid]); }
    hide Advance, Flow, HistoryOk, ApplyOp, ProcessOk;
  }

  lemma OtherProcessOk(cfg: Config, w: World, w': World, q: Process)
    requires ProcessOk(cfg, w, q) && w.history <= w'.history
    requires TokenOf(w.shard.lease) <= TokenOf(w'.shard.lease)
    ensures ProcessOk(cfg, w', q)
  {
    hide CounterOk, HandlerOk;
  }

  /** The newest version is newer than anything a process has read. */
  lemma LastIsNewest(cfg: Config, w: World, p: Process)
    requires HistoryOk(cfg, w) && ProcessOk(cfg, w, p) && SnapshotOf(p.pc).Some?
    ensures w.shard.job.Some? && SnapshotOf(p.pc).value.version <= w.shard.job.value.version
    ensures w.shard.job.value.version == |w.history| - 1
  {
    hide CounterOk, HandlerOk;
    assert w.history[|w.history| - 1].version == |w.history| - 1;
  }

  lemma MovedIsOlder(cfg: Config, w: World, pid: nat, c: Choice, m: Move, w': World, p': Process, q: Process)
    requires Core(cfg, w) && Moves(cfg, w, pid, c, m, w') && Successor(w.procs[pid], m, p')
    requires ProcessOk(cfg, w, q) && InOrder(w.procs[pid], q)
    ensures InOrder(p', q)
  {
    hide Plan;
    MoveKeepsHistory(cfg, w, pid, c, m, w');
    SuccessorShape(w.procs[pid], m, p');
    hide Advance, CounterOk, HandlerOk, HistoryOk, JobPut, EntryFacts, OrderFlow, CallFlow, SnapshotIsFresh;
  }

  lemma MovedIsNewer(cfg: Config, w: World, pid: nat, c: Choice, m: Move, w': World, p': Process, q: Process)
    requires Core(cfg, w) && Moves(cfg, w, pid, c, m, w') && Successor(w.procs[pid], m, p')
    requires ProcessOk(cfg, w, q) && InOrder(q, w.procs[pid])
    ensures InOrder(q, p')
  {
    hide Plan;
    MoveKeepsHistory(cfg, w, pid, c, m, w');
    SuccessorShape(w.procs[pid], m, p');
    if Checked(q.pc) { LastIsNewest(cfg, w, q); }
    if m.op.SetJob? {
      assert w'.history[|w.history|] == m.op.job && m.op.job.version == |w.history|;
    }
    hide Advance, CounterOk, HandlerOk, HistoryOk, JobPut, EntryFacts, OrderFlow, CallFlow, LoopFlow;
  }

  lemma MoveKeepsOrder(cfg: Config, w: World, pid: nat, c: Choice, m: Move, w': World)
    requires Core(cfg, w) && Moves(cfg, w, pid, c, m, w')
    ensures SnapshotsInOrder(w')
  {
    hide Plan;
    forall a, b | a in w'.procs && b in w'.procs ensures InOrder(w'.procs[a], w'.procs[b]) {
      if a == b {
      } else if a == pid {
        assert InOrder(w.procs[a], w.procs[b]);
        MovedIsOlder(cfg, w, pid, c, m, w', w'.procs[a], w.procs[b]);
      } else if b == pid {
        assert InOrder(w.procs[a], w.procs[b]);
        MovedIsNewer(cfg, w, pid, c, m, w', w'.procs[b], w.procs[a]);
      } else {
        assert InOrder(w.procs[a], w.procs[b]);
      }
    }
  }

  lemma OrderFlowKeepsSub(cfg: Config, sh: Shard, p: Process, m: Move)
    requires OrderFlow(sh, p, m) && HandlerOk(cfg, p) && m.op.SetOrder?
    ensures m.op.order.subscriptionId == cfg.sub
  {
  }

  lemma MoveKeepsOrderSub(cfg: Config, w: World, pid: nat, c: Choice, m: Move, w': World)
    requires Core(cfg, w) && Moves(cfg, w, pid, c, m, w')
    ensures OrderSubOk(cfg, w')
  {
    hide Plan;
    MoveKeepsHistory(cfg, w, pid, c, m, w');
    OpTouches(w, TokenOfProcess(w.procs[pid]), m.op);
    assert ProcessOk(cfg, w, w.procs[pid]);
    hide CounterOk, HistoryOk, JobPut, EntryFacts, CallFlow, LoopFlow, SnapshotIsFresh, ApplyOp, OrderFlow, HandlerOk;
    if m.op.SetOrder? { OrderFlowKeepsSub(cfg, w.shard, w.procs[pid], m); }
  }

  lemma MoveKeepsCore(cfg: Config, w: World, pid: nat, c: Choice, m: Move, w': World)
    requires Core(cfg, w) && Moves(cfg, w, pid, c, m, w')
    ensures Core(cfg, w')
  {
    hide Plan;
    MoveKeepsHistory(cfg, w, pid, c, m, w');
    MoveKeepsProcesses(cfg, w, pid, c, m, w');
    MoveKeepsOrder(cfg, w, pid, c, m, w');
    MoveKeepsOrderSub(cfg, w, pid, c, m, w');
  }

  // ---------------------------------------------------------------------------
  // The other actions
  // ---------------------------------------------------------------------------

  lemma DeliverKeepsCore(cfg: Config, w: World, a: Action, w': World)
    requires Core(cfg, w) && a.Deliver? && Perform(cfg, w, a) == Some(w')
    ensures Core(cfg, w')
  {
    hide HistoryOk, Deliverable;
    forall q | q in w'.procs ensures ProcessOk(cfg, w', w'.procs[q]) {
      if q != a.pid { assert ProcessOk(cfg, w, w.procs[q]); OtherProcessOk(cfg, w, w', w.procs[q]); }
    }
    HistoryIsFramed(cfg, w, w');
    hide ProcessOk, Perform;
    forall x, y | x in w'.procs && y in w'.procs ensures InOrder(w'.procs[x], w'.procs[y]) {
      if x != a.pid && y != a.pid { assert InOrder(w.procs[x], w.procs[y]); }
    }
  }

  lemma HistoryIsFramed(cfg: Config, w: World, w': World)
    requires HistoryOk(cfg, w) && w'.history == w.history && w'.shard.job == w.shard.job
    ensures HistoryOk(cfg, w')
  {
  }

  lemma NewLeaseIsNewest(cfg: Config, w: World, a: Action, w': World)
    requires ProcessesOk(cfg, w) && a.StartRun? && Perform(cfg, w, a) == Some(w')
    ensures a.pid !in w.procs && a.pid in w'.procs && w'.procs == w.procs[a.pid := w'.procs[a.pid]]
    ensures TokenOf(w'.shard.lease) == TokenOf(w.shard.lease) + 1
    ensures var p := w'.procs[a.pid];
            && p.Worker? && p.pc == Outside(RunOwned)
            && p.lease.fencingToken == TokenOf(w'.shard.lease)
            && ProcessOk(cfg, w', p)
    ensures w'.shard.job == w.shard.job && w'.shard.order == w.shard.order
    ensures w'.history == w.history && w'.log == w.log && w'.shard.handoffs == w.shard.handoffs
    ensures w'.secrets == w.secrets && w'.committed == w.committed
    ensures forall q :: q in w.procs && w.procs[q].Worker? ==>
              w.procs[q].lease.fencingToken < w'.procs[a.pid].lease.fencingToken
  {
    forall q | q in w.procs && w.procs[q].Worker?
      ensures w.procs[q].lease.fencingToken < w'.procs[a.pid].lease.fencingToken
    {
      assert ProcessOk(cfg, w, w.procs[q]);
    }
  }

  lemma StartRunKeepsCore(cfg: Config, w: World, a: Action, w': World)
    requires Core(cfg, w) && a.StartRun? && Perform(cfg, w, a) == Some(w')
    ensures Core(cfg, w')
  {
    hide HistoryOk, Perform;
    NewLeaseIsNewest(cfg, w, a, w');
    HistoryIsFramed(cfg, w, w');
    forall q | q in w'.procs ensures ProcessOk(cfg, w', w'.procs[q]) {
      if q != a.pid { assert ProcessOk(cfg, w, w.procs[q]); OtherProcessOk(cfg, w, w', w.procs[q]); }
    }
    hide ProcessOk;
    forall x, y | x in w'.procs && y in w'.procs ensures InOrder(w'.procs[x], w'.procs[y]) {
      if x != a.pid && y != a.pid { assert InOrder(w.procs[x], w.procs[y]); }
    }
  }

  lemma CrashKeepsCore(cfg: Config, w: World, a: Action, w': World)
    requires Core(cfg, w) && a.Crash? && Perform(cfg, w, a) == Some(w')
    ensures Core(cfg, w')
  {
    hide JobHistory, CounterOk, HandlerOk, InOrder;
  }

  lemma StepKeepsCore(cfg: Config, w: World, a: Action, w': World)
    requires Core(cfg, w) && Perform(cfg, w, a) == Some(w')
    ensures Core(cfg, w')
  {
    match a
    case Deliver(_, _, _) => DeliverKeepsCore(cfg, w, a, w');
    case StartRun(_, _, _, _, _, _, _) => StartRunKeepsCore(cfg, w, a, w');
    case Crash(_) => CrashKeepsCore(cfg, w, a, w');
    case Continue(pid, c) =>
      hide Plan, Core;
      var m := Plan(cfg, w.shard, w.secrets, w.procs[pid], c).value;
      MoveKeepsCore(cfg, w, pid, c, m, w');
  }
}
