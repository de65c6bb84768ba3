/** The queue of billing events and its deliveries (infra/provisioning/src/handlers/worker.ts:
    84-111). A delivery handles the event and then runs the job, whatever the handler
    reported; it acknowledges the message only if there is no job or the run ends ready or
    disabled. Otherwise, and after a crash, the message is delivered again. The queue hides a
    message while it is delivered, longer than a delivery can last (infra/provisioning/
    template.yaml:99 and 244), so a message has one delivery at a time; deliveries of
    different messages interleave freely. */
module Deliveries {
  import opened Domain
  import opened Billing
  import opened Jobs
  import opened Store
  import opened Protocol
  import opened ProtocolSteps
  import opened ProtocolCore
  import opened ProtocolEffects
  import opened Wakeups

  /** A job with which a run ends well. */
  predicate IsSettled(job: Job) {
    job.state == Ready || job.state == Disabled
  }

  /** Whether a run ended ready or disabled; unread while the job has still to be read, after
      the lease was lost or the last conflict. */
  datatype Verdict = Settled | Unsettled | Unread

  /** Where the delivery of a message stands; one that is held found the lease taken. */
  datatype Stage =
    | Waiting
    | InHandler(pid: nat)
    | Handled
    | Held
    | InRun(pid: nat)
    | Closing(pid: nat, verdict: Verdict)

  datatype Message = Message(event: Event, stage: Stage)

  /** The system and its unacknowledged messages. */
  datatype Service = Service(world: World, queue: map<nat, Message>)

  const NEW_SERVICE := Service(EMPTY_WORLD, map[])

  datatype Act =
    | Send(id: nat, event: Event)
    | Receive(id: nat, pid: nat)
    | Work(id: nat, choice: Choice)
    | BeginRun(id: nat, pid: nat, ownerId: string, at: int, durationMs: int,
               mode: DeploymentMode, hasHandoff: bool, now: int)
    | ReadResult(id: nat)
    | Drop(id: nat)

  function VerdictOn(job: Option<Job>): Verdict {
    if job.Some? && IsSettled(job.value) then Settled else Unsettled
  }

  /** The outcome of a run, once a step leads to the release of its lease. */
  function RunVerdict(sh: Shard, p: Process, c: Choice, m: Move): Option<Verdict> {
    if p.Handler? then None
    else if m.next.Recover? then if p.conflictsLeft == 0 then Some(Unread) else None
    else if m.next != Goto(Outside(Releasing)) then None
    else if c.Threw? then Some(Unsettled)
    else if m.op.SetJob? then Some(VerdictOn(Some(m.op.job)))
    else
      match p.pc
      case Outside(RunGetJob(_)) => Some(VerdictOn(sh.job))
      case Transition(ListRecords(job), _, _, _) => Some(VerdictOn(Some(job)))
      case Outside(RunOwned) => Some(Unread)
      case Steps(_, _) => Some(Unread)
      case Undo(_, _) => Some(Unread)
      case _ => Some(Unsettled)
  }

  /** The stage after a step of the delivery's process; None when the message is
      acknowledged. */
  function AfterWork(sh: Shard, p: Process, c: Choice, m: Move, stage: Stage): Option<Stage> {
    if Advance(p, m.next).None? then
      match stage
      case InHandler(_) =>
        var r := ResultOf(sh, p, c, m);
        if r.Raised? then Some(Waiting) else if r.job.None? then None else Some(Handled)
      case Closing(_, Settled) => None
      case _ => Some(Waiting)
    else
      match stage
      case InRun(pid) =>
        var v := RunVerdict(sh, p, c, m);
        Some(if v.Some? then Closing(pid, v.value) else stage)
      case _ => Some(stage)
  }

  function PidOf(stage: Stage): Option<nat> {
    match stage
    case InHandler(pid) => Some(pid)
    case InRun(pid) => Some(pid)
    case Closing(pid, _) => Some(pid)
    case _ => None
  }

  function Restaged(queue: map<nat, Message>, id: nat, stage: Option<Stage>): map<nat, Message>
    requires id in queue
  {
    if stage.None? then queue - {id} else queue[id := queue[id].(stage := stage.value)]
  }

  /** One step of the service; None when it is not possible. */
  function Serve(cfg: Config, s: Service, a: Act): Option<Service> {
    match a
    case Send(id, event) =>
      if id in s.queue || !Deliverable(event, cfg.sub) then None
      else Some(s.(queue := s.queue[id := Message(event, Waiting)]))
    case Receive(id, pid) =>
      if id !in s.queue || s.queue[id].stage != Waiting then None
      else
        var w := Perform(cfg, s.world, Deliver(pid, s.queue[id].event, DEFAULT_RETRY_POLICY));
        if w.None? then None else Some(Service(w.value, Restaged(s.queue, id, Some(InHandler(pid)))))
    case Work(id, choice) =>
      if id !in s.queue || PidOf(s.queue[id].stage).None? then None
      else
        var stage := s.queue[id].stage;
        var pid := PidOf(stage).value;
        if pid !in s.world.procs || stage == Closing(pid, Unread) then None
        else
          var p := s.world.procs[pid];
          var m := Plan(cfg, s.world.shard, s.world.secrets, p, choice);
          var w := Perform(cfg, s.world, Continue(pid, choice));
          if m.None? || w.None? then None
          else Some(Service(w.value, Restaged(s.queue, id, AfterWork(s.world.shard, p, choice, m.value, stage))))
    case BeginRun(id, pid, ownerId, at, durationMs, mode, hasHandoff, now) =>
      if id !in s.queue || s.queue[id].stage != Handled then None
      else
        var r := DecideAcquire(s.world.shard.lease, cfg.sub, ownerId, at, durationMs);
        if r.Err? then Some(s.(queue := Restaged(s.queue, id, Some(Waiting))))
        else if r.value.None? then Some(s.(queue := Restaged(s.queue, id, Some(Held))))
        else
          var w := Perform(cfg, s.world, StartRun(pid, ownerId, at, durationMs, mode, hasHandoff, now));
          if w.None? then None else Some(Service(w.value, Restaged(s.queue, id, Some(InRun(pid)))))
    case ReadResult(id) =>
      if id !in s.queue then None
      else
        var verdict := VerdictOn(s.world.shard.job);
        (match s.queue[id].stage
         case Held => Some(s.(queue := Restaged(s.queue, id, if verdict == Settled then None else Some(Waiting))))
         case Closing(pid, Unread) => Some(s.(queue := Restaged(s.queue, id, Some(Closing(pid, verdict)))))
         case _ => None)
    case Drop(id) =>
      if id !in s.queue || s.queue[id].stage == Waiting then None
      else
        var dropped := Restaged(s.queue, id, Some(Waiting));
        var pid := PidOf(s.queue[id].stage);
        if pid.None? then Some(s.(queue := dropped))
        else
          var w := Perform(cfg, s.world, Crash(pid.value));
          if w.None? then None else Some(Service(w.value, dropped))
  }

  function Served(cfg: Config, acts: seq<Act>): Option<Service> {
    if acts == [] then Some(NEW_SERVICE)
    else
      var before := Served(cfg, acts[..|acts| - 1]);
      if before.None? then None else Serve(cfg, before.value, acts[|acts| - 1])
  }

  // ---------------------------------------------------------------------------
  // The service is a run of the protocol
  // ---------------------------------------------------------------------------

  /** The step of the protocol that a step of the service makes, if any. */
  function ActionOf(s: Service, a: Act): Option<Action> {
    match a
    case Receive(id, pid) => if id in s.queue then Some(Deliver(pid, s.queue[id].event, DEFAULT_RETRY_POLICY)) else None
    case Work(id, choice) =>
      if id in s.queue && PidOf(s.queue[id].stage).Some? then Some(Continue(PidOf(s.queue[id].stage).value, choice)) else None
    case BeginRun(_, pid, ownerId, at, durationMs, mode, hasHandoff, now) =>
      Some(StartRun(pid, ownerId, at, durationMs, mode, hasHandoff, now))
    case Drop(id) =>
      if id in s.queue && PidOf(s.queue[id].stage).Some? then Some(Crash(PidOf(s.queue[id].stage).value)) else None
    case _ => None
  }

  lemma ServesByActions(cfg: Config, s: Service, a: Act, s': Service)
    requires Serve(cfg, s, a) == Some(s')
    ensures s'.world == s.world || (ActionOf(s, a).Some? && Perform(cfg, s.world, ActionOf(s, a).value) == Some(s'.world))
  {
    hide Perform, Plan, AfterWork;
  }

  lemma {:induction false} ServedIsRun(cfg: Config, acts: seq<Act>) returns (actions: seq<Action>)
    requires Served(cfg, acts).Some?
    ensures Run(cfg, actions) == Some(Served(cfg, acts).value.world)
  {
    if acts == [] {
      actions := [];
    } else {
      var before := ServedIsRun(cfg, acts[..|acts| - 1]);
      var s, a, s' := Served(cfg, acts[..|acts| - 1]).value, acts[|acts| - 1], Served(cfg, acts).value;
      hide Served, Serve, Perform;
      ServesByActions(cfg, s, a, s');
      if s'.world == s.world {
        actions := before;
      } else {
        actions := before + [ActionOf(s, a).value];
        assert actions[..|actions| - 1] == before;
      }
    }
  }

  lemma ServedIsSafe(cfg: Config, acts: seq<Act>)
    requires Served(cfg, acts).Some?
    ensures Core(cfg, Served(cfg, acts).value.world)
  {
    var actions := ServedIsRun(cfg, acts);
    RunIsSafe(cfg, actions);
  }

  // ---------------------------------------------------------------------------
  // Deliveries and their processes
  // ---------------------------------------------------------------------------

  /** A stage names a process that is there, of the right kind; a closing one is about to
      release its lease. */
  predicate StageOk(w: World, stage: Stage) {
    PidOf(stage).Some? ==>
      && PidOf(stage).value in w.procs
      && (stage.InHandler? <==> w.procs[PidOf(stage).value].Handler?)
      && (stage.Closing? ==> w.procs[stage.pid].pc == Outside(Releasing))
  }

  predicate OwnProcesses(queue: map<nat, Message>, a: nat, b: nat)
    requires a in queue && b in queue
  {
    PidOf(queue[a].stage).Some? && PidOf(queue[b].stage).Some? ==> PidOf(queue[a].stage) != PidOf(queue[b].stage)
  }

  ghost predicate StagesOk(s: Service) {
    && (forall id :: id in s.queue ==> StageOk(s.world, s.queue[id].stage))
    && (forall a, b :: a in s.queue && b in s.queue && a != b ==> OwnProcesses(s.queue, a, b))
  }

  /** What a step does to processes. */
  ghost predicate ProcsAfter(procs: map<nat, Process>, pid: nat, procs': map<nat, Process>) {
    forall q :: q != pid ==> (q in procs' <==> q in procs) && (q in procs ==> procs'[q] == procs[q])
  }

  /** A delivery that changes its own process and stage leaves the others right. */
  lemma OthersStayOk(s: Service, id: nat, pid: nat, s': Service)
    requires StagesOk(s) && id in s.queue && ProcsAfter(s.world.procs, pid, s'.world.procs)
    requires forall x :: x in s'.queue && x != id ==> x in s.queue && s'.queue[x] == s.queue[x]
    requires PidOf(s.queue[id].stage) == Some(pid) || pid !in s.world.procs
    requires id in s'.queue ==>
               StageOk(s'.world, s'.queue[id].stage) && (PidOf(s'.queue[id].stage).Some? ==> PidOf(s'.queue[id].stage) == Some(pid))
    ensures StagesOk(s')
  {
    forall x | x in s'.queue ensures StageOk(s'.world, s'.queue[x].stage) {
      if x != id {
        assert StageOk(s.world, s.queue[x].stage) && OwnProcesses(s.queue, x, id);
      }
    }
    forall a, b | a in s'.queue && b in s'.queue && a != b ensures OwnProcesses(s'.queue, a, b) {
      if a != id && b != id {
        assert OwnProcesses(s.queue, a, b);
      } else {
        var other := if a == id then b else a;
        assert StageOk(s.world, s.queue[other].stage) && OwnProcesses(s.queue, other, id);
      }
    }
  }

  /** What a delivery's work is: a move of its process, and its new stage. */
  lemma Worked(cfg: Config, s: Service, id: nat, c: Choice, s': Service) returns (pid: nat, m: Move)
    requires Serve(cfg, s, Work(id, c)) == Some(s')
    ensures id in s.queue && PidOf(s.queue[id].stage) == Some(pid) && s.queue[id].stage != Closing(pid, Unread)
    ensures pid in s.world.procs
    ensures Moves(cfg, s.world, pid, c, m, s'.world)
    ensures s'.world.procs == WithProcess(s.world.procs, pid, Advance(s.world.procs[pid], m.next))
    ensures s'.queue == Restaged(s.queue, id, AfterWork(s.world.shard, s.world.procs[pid], c, m, s.queue[id].stage))
    ensures ProcsAfter(s.world.procs, pid, s'.world.procs)
  {
    hide Plan, AfterWork, ApplyOp;
    pid := PidOf(s.queue[id].stage).value;
    m := Plan(cfg, s.world.shard, s.world.secrets, s.world.procs[pid], c).value;
  }

  lemma WorkedStageOk(cfg: Config, s: Service, id: nat, c: Choice, s': Service)
    requires StagesOk(s) && Serve(cfg, s, Work(id, c)) == Some(s')
    ensures StagesOk(s')
  {
    hide Serve, Plan, StagesOk, ResultOf, VerdictOn, ProcsAfter;
    var pid, m := Worked(cfg, s, id, c, s');
    StagesAreOk(s, id);
    if s.queue[id].stage.Closing? { ReleasingEnds(cfg, s.world.shard, s.world.secrets, s.world.procs[pid], c, m); }
    OthersStayOk(s, id, pid, s');
  }

  lemma ReleasingEnds(cfg: Config, sh: Shard, secrets: set<Publication>, p: Process, c: Choice, m: Move)
    requires p.Worker? && p.pc == Outside(Releasing) && Plan(cfg, sh, secrets, p, c) == Some(m)
    ensures m.next == Finish && !m.op.SetJob?
  {
  }

  lemma SendKeepsStages(cfg: Config, s: Service, a: Act, s': Service)
    requires StagesOk(s) && a.Send? && Serve(cfg, s, a) == Some(s')
    ensures StagesOk(s')
  {
    assert forall x :: x in s.queue ==> StageOk(s'.world, s'.queue[x].stage);
    assert forall x, y :: x in s.queue && y in s.queue && x != y ==> OwnProcesses(s.queue, x, y);
  }

  lemma ServeKeepsStages(cfg: Config, s: Service, a: Act, s': Service)
    requires StagesOk(s) && Serve(cfg, s, a) == Some(s')
    ensures StagesOk(s')
  {
    hide StagesOk, Plan, AfterWork, Deliverable, DecideAcquire;
    match a
    case Work(id, c) => WorkedStageOk(cfg, s, id, c, s');
    case Receive(id, pid) => OthersStayOk(s, id, pid, s');
    case BeginRun(id, pid, _, _, _, _, _, _) =>
      if s'.world.procs == s.world.procs { QueueOnly(s, id, s'); } else { OthersStayOk(s, id, pid, s'); }
    case ReadResult(id) =>
      assert StageOk(s.world, s.queue[id].stage) by { StagesAreOk(s, id); }
      QueueOnly(s, id, s');
    case Drop(id) =>
      if PidOf(s.queue[id].stage).Some? { OthersStayOk(s, id, PidOf(s.queue[id].stage).value, s'); } else { QueueOnly(s, id, s'); }
    case Send(id, event) => SendKeepsStages(cfg, s, a, s');
  }

  lemma StagesAreOk(s: Service, id: nat)
    requires StagesOk(s) && id in s.queue
    ensures StageOk(s.world, s.queue[id].stage)
  {
  }

  /** A stage that changes without any process changing. */
  lemma QueueOnly(s: Service, id: nat, s': Service)
    requires StagesOk(s) && id in s.queue && s'.world.procs == s.world.procs
    requires forall x :: x in s'.queue && x != id ==> x in s.queue && s'.queue[x] == s.queue[x]
    requires id in s'.queue ==>
               && (PidOf(s'.queue[id].stage).Some? ==> PidOf(s'.queue[id].stage) == PidOf(s.queue[id].stage))
               && StageOk(s'.world, s'.queue[id].stage)
    ensures StagesOk(s')
  {
    forall x | x in s'.queue ensures StageOk(s'.world, s'.queue[x].stage) {
      if x != id { assert StageOk(s.world, s.queue[x].stage); }
    }
    forall a, b | a in s'.queue && b in s'.queue && a != b ensures OwnProcesses(s'.queue, a, b) {
      assert a in s.queue && b in s.queue && OwnProcesses(s.queue, a, b);
    }
  }

  // ---------------------------------------------------------------------------
  // Pending work is owed by a message
  // ---------------------------------------------------------------------------

  /** From this version on the job has not been settled. */
  predicate Unfinished(h: seq<Job>, since: nat) {
    since < |h| && forall v :: since <= v < |h| ==> !IsSettled(h[v])
  }

  /** The message's delivery is not about to acknowledge it, and knows nothing older than
      the given version of the job. */
  predicate Owes(s: Service, id: nat, since: nat) {
    && id in s.queue
    && match s.queue[id].stage
       case Closing(_, verdict) => verdict != Settled
       case InHandler(pid) => pid in s.world.procs ==> KnowsSince(s.world.procs[pid], since)
       case InRun(pid) => pid in s.world.procs ==> KnowsSince(s.world.procs[pid], since)
       case _ => true
  }

  predicate KnowsSince(p: Process, since: nat) {
    SnapshotOf(p.pc).Some? ==> since <= SnapshotOf(p.pc).value.version
  }

  ghost predicate IsOwed(s: Service) {
    exists id, since :: Owes(s, id, since) && Unfinished(s.world.history, since)
  }

  /** Unless the last version is settled, some message owes the work since the job was
      settled last. */
  ghost predicate WorkIsOwed(s: Service) {
    s.world.history != [] && !IsSettled(s.world.history[|s.world.history| - 1]) ==> IsOwed(s)
  }

  /** Without a job, and only so, a handler's message may be acknowledged at once. */
  lemma AnsweredWithoutJob(cfg: Config, sh: Shard, secrets: set<Publication>, p: Process, c: Choice, m: Move)
    requires p.Handler? && Plan(cfg, sh, secrets, p, c) == Some(m)
    requires ResultOf(sh, p, c, m).Answered? && ResultOf(sh, p, c, m).job.None?
    ensures sh.job.None? && m.op == Nothing
  {
    hide ReduceBillingEvent, TransitionTarget, IsProvisionableOrder;
  }

  /** A run that is found settled has seen a settled job. */
  lemma SettledWasSeen(cfg: Config, sh: Shard, secrets: set<Publication>, p: Process, c: Choice, m: Move)
    requires p.Worker? && Plan(cfg, sh, secrets, p, c) == Some(m) && RunVerdict(sh, p, c, m) == Some(Settled)
    ensures if m.op.SetJob? then IsSettled(m.op.job)
            else || (sh.job.Some? && IsSettled(sh.job.value))
                 || (SnapshotOf(p.pc).Some? && IsSettled(SnapshotOf(p.pc).value))
  {
    hide Plan;
  }

  /** After its step, a process knows nothing older than it knew, or than what is stored. */
  lemma StillKnows(cfg: Config, w: World, pid: nat, c: Choice, m: Move, w': World, since: nat)
    requires Core(cfg, w) && Moves(cfg, w, pid, c, m, w') && since < |w'.history| && Advance(w.procs[pid], m.next).Some?
    requires |w.history| > since ==> KnowsSince(w.procs[pid], since)
    requires |w.history| <= since ==> w'.history != w.history
    ensures KnowsSince(Advance(w.procs[pid], m.next).value, since)
  {
    MoveKeepsHistory(cfg, w, pid, c, m, w');
    StoredIsLast(cfg, w);
    StoredIsLast(cfg, w') by { MoveKeepsCore(cfg, w, pid, c, m, w'); }
    SuccessorShape(w.procs[pid], m, Advance(w.procs[pid], m.next).value);
    hide Plan, Core, LoopFlow, CallFlow, EntryFacts, OrderFlow, JobPut, Advance;
  }

  /** No run ends well while the job is unfinished. */
  lemma NotSettledYet(cfg: Config, w: World, pid: nat, c: Choice, m: Move, w': World, since: nat)
    requires Core(cfg, w) && Moves(cfg, w, pid, c, m, w') && Unfinished(w'.history, since)
    requires w.procs[pid].Worker? && (|w.history| > since ==> KnowsSince(w.procs[pid], since))
    requires |w.history| <= since ==> w'.history != w.history
    ensures RunVerdict(w.shard, w.procs[pid], c, m) != Some(Settled)
  {
    var p := w.procs[pid];
    MoveKeepsHistory(cfg, w, pid, c, m, w');
    StoredIsLast(cfg, w);
    if SnapshotOf(p.pc).Some? { SnapshotIsVersion(cfg, w, pid); }
    if RunVerdict(w.shard, p, c, m) == Some(Settled) {
      SettledWasSeen(cfg, w.shard, w.secrets, p, c, m);
      hide Plan, Core, RunVerdict, Flow, ApplyOp, Advance;
    }
  }

  /** The delivery that works goes on to owe what it owed, and owes what it makes unfinished. */
  lemma WorkerOwes(cfg: Config, s: Service, id: nat, c: Choice, s': Service, since: nat)
    requires Core(cfg, s.world) && StagesOk(s) && Serve(cfg, s, Work(id, c)) == Some(s')
    requires Unfinished(s'.world.history, since)
    requires |s.world.history| > since ==> Owes(s, id, since)
    requires |s.world.history| <= since ==> s'.world.history != s.world.history
    ensures Owes(s', id, since)
  {
    hide Serve, Plan, Core, StagesOk, ResultOf, RunVerdict, Flow, Unfinished, ApplyOp, KnowsSince;
    var pid, m := Worked(cfg, s, id, c, s');
    var w, w', stage := s.world, s'.world, s.queue[id].stage;
    var p := w.procs[pid];
    StagesAreOk(s, id);
    UnfinishedIsThere(w'.history, since);
    hide Moves;
    if stage.Closing? {
      ReleasingEnds(cfg, w.shard, w.secrets, p, c, m) by { PlanOf(cfg, w, pid, c, m, w'); }
      MoveKeepsHistory(cfg, w, pid, c, m, w');
    } else {
      if Advance(p, m.next).Some? { StillKnows(cfg, w, pid, c, m, w', since); }
      if stage.InRun? {
        NotSettledYet(cfg, w, pid, c, m, w', since);
      } else if ResultOf(w.shard, p, c, m).Answered? && ResultOf(w.shard, p, c, m).job.None? {
        PlanOf(cfg, w, pid, c, m, w');
        AnsweredWithoutJob(cfg, w.shard, w.secrets, p, c, m);
        MoveKeepsHistory(cfg, w, pid, c, m, w');
        StoredIsLast(cfg, w);
      }
    }
    hide Advance;
  }

  lemma PlanOf(cfg: Config, w: World, pid: nat, c: Choice, m: Move, w': World)
    requires Moves(cfg, w, pid, c, m, w')
    ensures Plan(cfg, w.shard, w.secrets, w.procs[pid], c) == Some(m)
  {
  }

  lemma UnfinishedIsThere(h: seq<Job>, since: nat)
    requires Unfinished(h, since)
    ensures since < |h|
  {
  }

  lemma StoredIsLast(cfg: Config, w: World)
    requires Core(cfg, w)
    ensures w.shard.job == LastOf(w.history)
    ensures w.history != [] ==> w.history[|w.history| - 1].version == |w.history| - 1
  {
  }

  lemma SnapshotIsVersion(cfg: Config, w: World, pid: nat)
    requires Core(cfg, w) && pid in w.procs && SnapshotOf(w.procs[pid].pc).Some?
    ensures IsVersion(w.history, SnapshotOf(w.procs[pid].pc).value)
  {
    assert ProcessOk(cfg, w, w.procs[pid]);
  }

  /** Other messages go on owing. */
  lemma OthersOwe(s: Service, id: nat, pid: nat, s': Service, x: nat, since: nat)
    requires StagesOk(s) && Owes(s, x, since) && x != id && id in s.queue
    requires x in s'.queue && s'.queue[x] == s.queue[x]
    requires ProcsAfter(s.world.procs, pid, s'.world.procs) && PidOf(s.queue[id].stage) == Some(pid)
    ensures Owes(s', x, since)
  {
    assert StageOk(s.world, s.queue[x].stage) && OwnProcesses(s.queue, x, id);
  }

  lemma WorkIsStillOwed(cfg: Config, s: Service, id: nat, c: Choice, s': Service)
    requires Core(cfg, s.world) && StagesOk(s) && WorkIsOwed(s) && Serve(cfg, s, Work(id, c)) == Some(s')
    ensures WorkIsOwed(s')
  {
    hide Plan, Core, Flow, Serve, Owes, StagesOk, AfterWork, ApplyOp, ProcsAfter;
    var h, h' := s.world.history, s'.world.history;
    var pid, m := Worked(cfg, s, id, c, s');
    MoveKeepsHistory(cfg, s.world, pid, c, m, s'.world);
    hide Moves;
    if h' != [] && !IsSettled(h'[|h'| - 1]) {
      if h != [] && !IsSettled(h[|h| - 1]) {
        var x, since :| Owes(s, x, since) && Unfinished(h, since);
        assert Unfinished(h', since);
        OwesIsQueued(s, x, since);
        if x == id { WorkerOwes(cfg, s, id, c, s', since); } else { OthersOwe(s, id, pid, s', x, since); }
        assert Owes(s', x, since);
      } else {
        assert Unfinished(h', |h|);
        WorkerOwes(cfg, s, id, c, s', |h|);
        assert Owes(s', id, |h|);
      }
    }
  }

  lemma OwesIsQueued(s: Service, x: nat, since: nat)
    requires Owes(s, x, since)
    ensures x in s.queue
  {
  }

  /** Every other step leaves the job as it is, and can only send, begin or drop; a read
      acknowledges nothing while the job is unfinished. */
  lemma RestIsStillOwed(cfg: Config, s: Service, a: Act, s': Service)
    requires Core(cfg, s.world) && StagesOk(s) && WorkIsOwed(s) && !a.Work? && Serve(cfg, s, a) == Some(s')
    ensures WorkIsOwed(s')
  {
    var h := s.world.history;
    StoredIsLast(cfg, s.world);
    RestKeepsHistory(cfg, s, a, s');
    if h != [] && !IsSettled(h[|h| - 1]) {
      var x, since :| Owes(s, x, since) && Unfinished(h, since);
      RestOwes(cfg, s, a, s', x, since);
    }
  }

  lemma RestKeepsHistory(cfg: Config, s: Service, a: Act, s': Service)
    requires !a.Work? && Serve(cfg, s, a) == Some(s')
    ensures s'.world.history == s.world.history && s'.world.shard.job == s.world.shard.job
  {
    hide Plan, DecideAcquire;
  }

  lemma RestOwes(cfg: Config, s: Service, a: Act, s': Service, x: nat, since: nat)
    requires StagesOk(s) && !a.Work? && Serve(cfg, s, a) == Some(s') && Owes(s, x, since)
    requires s.world.shard.job.Some? && !IsSettled(s.world.shard.job.value)
    ensures Owes(s', x, since)
  {
    hide Plan, DecideAcquire, Deliverable;
    assert StageOk(s.world, s.queue[x].stage);
    match a
    case Drop(id) => if id != x { assert OwnProcesses(s.queue, x, id); }
    case _ =>
  }

  lemma {:induction false} ServedIsOwed(cfg: Config, acts: seq<Act>)
    requires Served(cfg, acts).Some?
    ensures StagesOk(Served(cfg, acts).value) && WorkIsOwed(Served(cfg, acts).value)
  {
    if acts != [] {
      var before := acts[..|acts| - 1];
      ServedIsOwed(cfg, before);
      ServedIsSafe(cfg, before);
      var s, a, s' := Served(cfg, before).value, acts[|acts| - 1], Served(cfg, acts).value;
      hide Served, Serve, Core, StagesOk, WorkIsOwed;
      ServeKeepsStages(cfg, s, a, s');
      if a.Work? { WorkIsStillOwed(cfg, s, a.id, a.choice, s'); } else { RestIsStillOwed(cfg, s, a, s'); }
    }
  }

  /** Pending work always has a message: whatever crashes, conflicts and takeovers occur and
      however deliveries interleave, while the job is neither ready nor disabled the queue
      holds a message that is not about to be acknowledged. The reports' own wake-up
      messages have no part in this. */
  lemma PendingWorkHasMessage(cfg: Config, acts: seq<Act>)
    requires Served(cfg, acts).Some?
    ensures var s := Served(cfg, acts).value;
            s.world.shard.job.Some? && !IsSettled(s.world.shard.job.value) ==>
              exists id :: id in s.queue && !(s.queue[id].stage.Closing? && s.queue[id].stage.verdict == Settled)
  {
    ServedIsOwed(cfg, acts);
    ServedIsSafe(cfg, acts);
    var s := Served(cfg, acts).value;
    StoredIsLast(cfg, s.world);
    hide Served, Core, StagesOk;
    if s.world.shard.job.Some? && !IsSettled(s.world.shard.job.value) {
      var id, since :| Owes(s, id, since) && Unfinished(s.world.history, since);
      assert id in s.queue;
    }
  }

  // ---------------------------------------------------------------------------
  // One delivery at a time
  // ---------------------------------------------------------------------------

  /** All messages of a subscription are one group of a first-in-first-out queue
      (infra/provisioning/src/aws/provisioning-queue.ts:40-47), which delivers one message
      of a group at a time. */
  ghost predicate OneAtATime(s: Service) {
    forall a, b :: a in s.queue && b in s.queue && s.queue[a].stage != Waiting && s.queue[b].stage != Waiting ==> a == b
  }

  ghost predicate Serial(cfg: Config, acts: seq<Act>)
    requires Served(cfg, acts).Some?
    decreases |acts|
  {
    OneAtATime(Served(cfg, acts).value) && (acts != [] ==> Serial(cfg, acts[..|acts| - 1]))
  }

  /** Nothing is left to do: an ended order has no job, or one that its operation disabled;
      a provisionable one has a ready job. */
  predicate Agrees(sh: Shard) {
    sh.order.Some? ==>
      && (EndsService(sh.order.value) && sh.job.Some? ==>
            sh.job.value.state == Disabled && sh.job.value.operation == OperationFor(sh.order.value))
      && (IsProvisionableOrder(sh.order.value) ==>
            sh.job.Some? && sh.job.value.state == Ready && sh.job.value.operation == Provisioning)
  }

  /** The job's operation is the one that the order asks for. */
  predicate Aligned(sh: Shard) {
    && sh.order.Some? && sh.job.Some?
    && (EndsService(sh.order.value) ==> sh.job.value.operation == OperationFor(sh.order.value))
    && (IsProvisionableOrder(sh.order.value) ==> sh.job.value.operation == Provisioning)
  }

  lemma SettledAgrees(sh: Shard)
    requires Aligned(sh) && IsSettled(sh.job.value) && JobOk(sh.job.value)
    ensures Agrees(sh)
  {
    hide HasProvisioningIdentity;
  }

  /** A job is compensated for good only for an order that ended for good. */
  predicate CompensationIsFinal(sh: Shard) {
    sh.job.Some? && sh.job.value.operation == Compensation ==>
      sh.order.Some? && IsTerminalState(sh.order.value.billingState)
  }

  predicate EndsBy(sh: Shard, op: Operation) {
    sh.order.Some? && EndsService(sh.order.value) && op == OperationFor(sh.order.value)
  }

  /** What a process holds is what is stored, as nobody else writes. */
  predicate HoldsStored(sh: Shard, p: Process) {
    && (SnapshotOf(p.pc).Some? ==> SnapshotOf(p.pc) == sh.job)
    && match p.pc
       case Handling(GetJob(order)) => sh.order == Some(order)
       case Handling(Resume(_)) => sh.order.Some? && IsProvisionableOrder(sh.order.value)
       case Handling(Create(order)) => sh.order == Some(order) && IsProvisionableOrder(order) && sh.job.None?
       case Transition(_, op, _, cont) =>
         && EndsBy(sh, op) && sh.job.Some?
         && if p.Worker? then cont.ForWorker? && sh.order == Some(cont.order) else cont.ForHandler?
       case Outside(RunGetJob(order)) => sh.order == Some(order)
       case Outside(RunStart(order, _)) => sh.order == Some(order)
       case _ => true
  }

  predicate StageAligned(w: World, stage: Stage) {
    match stage
    case Waiting => true
    case InHandler(pid) => pid in w.procs ==> HoldsStored(w.shard, w.procs[pid])
    case InRun(pid) =>
      Aligned(w.shard) && (pid in w.procs ==> HoldsStored(w.shard, w.procs[pid]) && Holds(w.shard, w.procs[pid]))
    case Closing(_, verdict) => Aligned(w.shard) && (verdict == Settled ==> IsSettled(w.shard.job.value))
    case _ => Aligned(w.shard)
  }

  ghost predicate SerialOk(s: Service) {
    && CompensationIsFinal(s.world.shard)
    && (forall id :: id in s.queue ==> StageAligned(s.world, s.queue[id].stage))
    && (s.queue == map[] ==> Agrees(s.world.shard))
  }

  // What a step of a handler, and of a run, does to the records.

  /** The records that concern us, after an operation. */
  predicate Records(sh: Shard, op: SharedOp, sh': Shard) {
    && sh'.job == (if op.SetJob? then Some(op.job) else sh.job)
    && sh'.order == (if op.SetOrder? then Some(op.order) else sh.order)
    && sh'.lease == (if op.SetLease? then op.lease else sh.lease)
  }

  lemma HandlingStep(cfg: Config, sh: Shard, secrets: set<Publication>, p: Process, c: Choice, m: Move, sh': Shard)
    requires p.Handler? && p.pc.Handling? && Plan(cfg, sh, secrets, p, c) == Some(m)
    requires HoldsStored(sh, p) && CompensationIsFinal(sh) && Records(sh, m.op, sh')
    ensures CompensationIsFinal(sh')
    ensures Advance(p, m.next).Some? ==> HoldsStored(sh', Advance(p, m.next).value)
    ensures Advance(p, m.next).None? && ResultOf(sh, p, c, m).Answered? ==>
              if ResultOf(sh, p, c, m).job.Some? then Aligned(sh') else Agrees(sh')
  {
    hide ReduceBillingEvent, HasProvisioningIdentity;
  }

  lemma TransitionStep(
    sh: Shard, p: Process, at: TransitionPc, op: Operation, tries: nat, cont: Continuation, c: Choice, m: Move, sh': Shard)
    requires p.Handler? && p.pc == Transition(at, op, tries, cont) && PlanTransition(sh, p, at, op, tries, cont, c) == Some(m)
    requires HoldsStored(sh, p) && CompensationIsFinal(sh) && Records(sh, m.op, sh') && !c.Threw?
    ensures CompensationIsFinal(sh')
    ensures Advance(p, m.next).Some? ==> HoldsStored(sh', Advance(p, m.next).value)
    ensures Advance(p, m.next).None? && ResultOf(sh, p, c, m).Answered? ==>
              ResultOf(sh, p, c, m).job.Some? && Aligned(sh')
  {
    match at
    case ListRecords(job) => TargetOperation(job, StepsOf(if c.Listing? then c.listed else []), op);
    case PutJob(job, steps) => TargetOperation(job, steps, op);
    case GetJobAgain =>
    hide TransitionTarget, HasProvisioningIdentity, Proceed, EndsService;
    ProvisionableGoesOn(sh);
  }

  lemma ProvisionableGoesOn(sh: Shard)
    requires sh.order.Some? && EndsService(sh.order.value)
    ensures !IsProvisionableOrder(sh.order.value)
    ensures OperationFor(sh.order.value) == Compensation <==> IsTerminalState(sh.order.value.billingState)
  {
  }

  /** Which orders a run's next counter carries. */
  predicate CarriesOrder(sh: Shard, p: Process, pc: Pc) {
    match pc
    case Handling(_) => false
    case Transition(_, op, _, cont) => EndsBy(sh, op) && sh.job.Some? && cont.ForWorker? && sh.order == Some(cont.order)
    case Outside(RunGetJob(order)) => sh.order == Some(order)
    case Outside(RunStart(order, _)) => sh.order == Some(order)
    case _ => true
  }

  lemma ProceedCarries(sh: Shard, p: Process, order: Order, job: Job)
    requires p.Worker? && sh.order == Some(order)
    ensures Proceed(p, order, job).Goto? && CarriesOrder(sh, p, Proceed(p, order, job).pc)
  {
    hide StartProvisioningAttempt, IsStepJob, IsUndoJob, HasProvisioningIdentity, IsProvisionableOrder, EndsBy;
  }

  /** A counter of the loops, or outside of them one that carries no order. */
  predicate CarriesNone(pc: Pc) {
    pc.Steps? || pc.Undo? || (pc.Outside? && (pc.r.SaveFailure? || pc.r.Releasing?))
  }

  lemma LoopCarries(cfg: Config, sh: Shard, secrets: set<Publication>, p: Process, c: Choice, m: Move)
    requires p.Worker? && (p.pc.Steps? || p.pc.Undo?) && Plan(cfg, sh, secrets, p, c) == Some(m) && m.next.Goto?
    ensures CarriesNone(m.next.pc) && !m.op.SetOrder?
  {
    match p.pc
    case Steps(job, at) => if !c.Threw? { StepsCarry(cfg, sh, secrets, p, job, at, c, m); }
    case Undo(job, at) => if !c.Threw? { UndoCarries(sh, p, job, at, c, m); }
    case _ =>
    hide PlanHandoff, PlanSteps, PlanUndo;
  }

  lemma StepsCarry(cfg: Config, sh: Shard, secrets: set<Publication>, p: Process, job: Job, at: StepPc, c: Choice, m: Move)
    requires p.Worker? && m.next.Goto?
    requires if IsHandoffPc(at) then PlanHandoff(sh, secrets, p, job, at, c) == Some(m) else PlanSteps(cfg, sh, p, job, at, c) == Some(m)
    ensures CarriesNone(m.next.pc) && !m.op.SetOrder?
  {
    hide CompleteProvisioningStep, NextProvisioningStep, NeedsHandoff, StepOf, IsStepJob, DecideBegin, DecideBind, DecidePublish,
      NewPointer, Receipt, DecidePutResource;
  }

  lemma UndoCarries(sh: Shard, p: Process, job: Job, at: UndoPc, c: Choice, m: Move)
    requires p.Worker? && m.next.Goto? && PlanUndo(sh, p, job, at, c) == Some(m)
    ensures CarriesNone(m.next.pc) && !m.op.SetOrder?
  {
    hide CompleteCompensationStep, NextCompensationStep, IsUndoJob, DecideRevoke, Disposed, DispositionsWellFormed,
      RecordsOfStep, DecidePutResource;
  }

  lemma RunCarries(cfg: Config, sh: Shard, secrets: set<Publication>, p: Process, c: Choice, m: Move)
    requires p.Worker? && Plan(cfg, sh, secrets, p, c) == Some(m) && HoldsStored(sh, p) && m.next.Goto?
    ensures CarriesOrder(sh, p, m.next.pc) && !m.op.SetOrder?
  {
    match p.pc
    case Handling(_) =>
    case Steps(_, _) => LoopCarries(cfg, sh, secrets, p, c, m);
    case Undo(_, _) => LoopCarries(cfg, sh, secrets, p, c, m);
    case Transition(at, op, tries, cont) => TurnCarries(sh, p, at, op, tries, cont, c, m);
    case Outside(at) => OutsideCarries(sh, p, at, c, m);
    hide PlanTransition, PlanRun, PlanSteps, PlanHandoff, PlanUndo;
  }

  lemma TurnCarries(sh: Shard, p: Process, at: TransitionPc, op: Operation, tries: nat, cont: Continuation, c: Choice, m: Move)
    requires p.Worker? && p.pc == Transition(at, op, tries, cont) && HoldsStored(sh, p) && m.next.Goto?
    requires (c.Threw? && m == Move(Nothing, Goto(Outside(Releasing)))) || PlanTransition(sh, p, at, op, tries, cont, c) == Some(m)
    ensures CarriesOrder(sh, p, m.next.pc) && !m.op.SetOrder?
  {
    match at
    case ListRecords(job) => ProceedCarries(sh, p, cont.order, job);
    case PutJob(_, _) => if m.op.SetJob? { ProceedCarries(sh, p, cont.order, m.op.job); }
    case _ =>
    hide TransitionTarget, Proceed, EndsService, OperationFor;
  }

  lemma OutsideCarries(sh: Shard, p: Process, at: RunPc, c: Choice, m: Move)
    requires p.Worker? && p.pc == Outside(at) && HoldsStored(sh, p) && m.next.Goto?
    requires (c.Threw? && m == Move(Nothing, Goto(Outside(Releasing)))) || PlanRun(sh, p, at, c) == Some(m)
    ensures CarriesOrder(sh, p, m.next.pc) && !m.op.SetOrder?
  {
    if at.RunGetJob? && sh.job.Some? { ProceedCarries(sh, p, at.order, sh.job.value); }
    hide StartProvisioningAttempt, FailProvisioningAttempt, Proceed, IsStepJob, IsUndoJob, HasProvisioningIdentity,
      IsProvisionableOrder, EndsService;
  }

  lemma RunSetsNoOrder(sh: Shard, p: Process, m: Move)
    requires p.Worker? && Flow(sh, p, m)
    ensures !m.op.SetOrder?
  {
    hide LoopFlow, CallFlow, EntryFacts, JobPut, SnapshotIsFresh;
  }

  /** A run's writes keep the operation, or turn it into the one that the order asks for. */
  lemma RunWriteAligns(sh: Shard, p: Process, stored: Job)
    requires p.Worker? && CounterOk(p) && HoldsStored(sh, p) && Aligned(sh) && JobPut(sh, p, stored)
    ensures Aligned(sh.(job := Some(stored)))
    ensures stored.operation == sh.job.value.operation || EndsBy(sh, stored.operation)
  {
    match p.pc
    case Transition(PutJob(job, steps), op, _, _) => TargetOperation(job, steps, op);
    case _ =>
    hide TransitionTarget, HasProvisioningIdentity, NextProvisioningStep, NextCompensationStep, RetryDelayMs, IsProvisionableOrder, EndsService;
  }

  lemma RunStep(cfg: Config, sh: Shard, secrets: set<Publication>, p: Process, c: Choice, m: Move, sh': Shard)
    requires p.Worker? && Plan(cfg, sh, secrets, p, c) == Some(m) && HoldsStored(sh, p) && CompensationIsFinal(sh)
    requires Aligned(sh) && CounterOk(p) && Flow(sh, p, m) && Records(sh, m.op, sh') && Holds(sh, p)
    ensures CompensationIsFinal(sh') && Aligned(sh')
    ensures Advance(p, m.next).Some? ==>
              HoldsStored(sh', Advance(p, m.next).value) && Holds(sh', Advance(p, m.next).value)
    ensures RunVerdict(sh, p, c, m) == Some(Settled) ==> IsSettled(sh'.job.value)
  {
    RunSetsNoOrder(sh, p, m);
    if m.op.SetJob? { RunWriteAligns(sh, p, m.op.job); }
    if RunVerdict(sh, p, c, m) == Some(Settled) { SettledWasSeen(cfg, sh, secrets, p, c, m); }
    if m.next.Goto? { RunCarries(cfg, sh, secrets, p, c, m); }
    hide Plan, RunVerdict, JobPut, LoopFlow, EntryFacts, OrderFlow, IsProvisionableOrder, EndsService, CounterOk;
    AlignedIsFinal(sh, sh');
  }

  lemma AlignedIsFinal(sh: Shard, sh': Shard)
    requires Aligned(sh) && Aligned(sh') && sh'.order == sh.order && CompensationIsFinal(sh)
    requires sh'.job.value.operation == sh.job.value.operation || EndsBy(sh, sh'.job.value.operation)
    ensures CompensationIsFinal(sh')
  {
  }

  // ---------------------------------------------------------------------------
  // Acknowledged means agreed
  // ---------------------------------------------------------------------------

  lemma StoredIsOk(cfg: Config, w: World)
    requires Core(cfg, w) && w.shard.job.Some?
    ensures JobOk(w.shard.job.value)
  {
    HistoryEvolves(w.history, |w.history| - 1, |w.history| - 1);
  }

  /** What the working process may rely on. */
  lemma FlowOf(cfg: Config, w: World, pid: nat, c: Choice, m: Move, w': World)
    requires Core(cfg, w) && Moves(cfg, w, pid, c, m, w')
    ensures CounterOk(w.procs[pid]) && Flow(w.shard, w.procs[pid], m) && Records(w.shard, m.op, w'.shard)
  {
    MoveKeepsHistory(cfg, w, pid, c, m, w');
    assert ProcessOk(cfg, w, w.procs[pid]);
    OpTouches(w, TokenOfProcess(w.procs[pid]), m.op);
    hide Plan, Flow, CounterOk;
  }

  lemma WorkedAligned(cfg: Config, s: Service, id: nat, c: Choice, s': Service)
    requires Core(cfg, s.world) && Core(cfg, s'.world) && StagesOk(s) && SerialOk(s) && Serve(cfg, s, Work(id, c)) == Some(s')
    ensures CompensationIsFinal(s'.world.shard)
    ensures id in s'.queue ==> StageAligned(s'.world, s'.queue[id].stage)
    ensures id !in s'.queue ==> Agrees(s'.world.shard)
  {
    hide Serve, Plan, Core, StagesOk, ResultOf, RunVerdict, Flow, CounterOk, HoldsStored, Aligned, Agrees,
      CompensationIsFinal, ApplyOp, Advance, Moves, Records;
    var pid, m := Worked(cfg, s, id, c, s');
    var w, w', stage := s.world, s'.world, s.queue[id].stage;
    var p := w.procs[pid];
    StagesAreOk(s, id);
    PlanOf(cfg, w, pid, c, m, w');
    FlowOf(cfg, w, pid, c, m, w');
    assert StageAligned(w, stage);
    match stage
    case InHandler(_) => HandlerStep(cfg, w.shard, w.secrets, p, c, m, w'.shard);
    case InRun(_) => RunStep(cfg, w.shard, w.secrets, p, c, m, w'.shard);
    case Closing(_, verdict) => ClosingStep(cfg, w.shard, w.secrets, p, c, m, w'.shard, verdict);
      if verdict == Settled { SettledStoredAgrees(cfg, w'); }
  }

  lemma HandlerStep(cfg: Config, sh: Shard, secrets: set<Publication>, p: Process, c: Choice, m: Move, sh': Shard)
    requires p.Handler? && Plan(cfg, sh, secrets, p, c) == Some(m) && CounterOk(p)
    requires HoldsStored(sh, p) && CompensationIsFinal(sh) && Records(sh, m.op, sh')
    ensures CompensationIsFinal(sh')
    ensures Advance(p, m.next).Some? ==> HoldsStored(sh', Advance(p, m.next).value)
    ensures Advance(p, m.next).None? && ResultOf(sh, p, c, m).Answered? ==>
              if ResultOf(sh, p, c, m).job.Some? then Aligned(sh') else Agrees(sh')
  {
    hide HoldsStored, CompensationIsFinal, Records, Advance, ResultOf, Aligned, Agrees, PlanHandler, PlanTransition;
    match p.pc
    case Handling(_) => HandlingStep(cfg, sh, secrets, p, c, m, sh');
    case Transition(at, op, tries, cont) =>
      if c.Threw? { FailedStep(sh, p, c, m, sh'); } else { TransitionStep(sh, p, at, op, tries, cont, c, m, sh'); }
    case _ =>
  }

  lemma FailedStep(sh: Shard, p: Process, c: Choice, m: Move, sh': Shard)
    requires p.Handler? && c.Threw? && m == Move(Nothing, Finish) && CompensationIsFinal(sh) && Records(sh, m.op, sh')
    ensures CompensationIsFinal(sh') && Advance(p, m.next).None? && !ResultOf(sh, p, c, m).Answered?
  {
  }

  lemma ClosingStep(
    cfg: Config, sh: Shard, secrets: set<Publication>, p: Process, c: Choice, m: Move, sh': Shard, verdict: Verdict)
    requires p.Worker? && p.pc == Outside(Releasing) && Plan(cfg, sh, secrets, p, c) == Some(m) && Records(sh, m.op, sh')
    requires Aligned(sh) && CompensationIsFinal(sh) && (verdict == Settled ==> IsSettled(sh.job.value))
    ensures m.next == Finish && Advance(p, m.next).None?
    ensures Aligned(sh') && CompensationIsFinal(sh') && (verdict == Settled ==> IsSettled(sh'.job.value))
  {
    hide IsProvisionableOrder, EndsService;
  }

  lemma SettledStoredAgrees(cfg: Config, w: World)
    requires Core(cfg, w) && Aligned(w.shard) && IsSettled(w.shard.job.value)
    ensures Agrees(w.shard)
  {
    StoredIsOk(cfg, w) by { hide Core; AlignedHasJob(w.shard); }
    SettledAgrees(w.shard);
  }

  lemma AlignedHasJob(sh: Shard)
    requires Aligned(sh)
    ensures sh.job.Some?
  {
  }

  /** The message that a step is about, if the step is no work. */
  lemma ActedAligned(cfg: Config, s: Service, a: Act, s': Service)
    requires Core(cfg, s.world) && SerialOk(s) && !a.Work? && Serve(cfg, s, a) == Some(s')
    ensures s'.world.shard.job == s.world.shard.job && s'.world.shard.order == s.world.shard.order
    ensures a.id in s'.queue ==> StageAligned(s'.world, s'.queue[a.id].stage)
    ensures a.id !in s'.queue ==> Agrees(s'.world.shard)
  {
    hide Plan, DecideAcquire, Deliverable, Core, Agrees, EndsService, IsProvisionableOrder;
    if a.id in s.queue { assert StageAligned(s.world, s.queue[a.id].stage); }
    if a.ReadResult? && a.id !in s'.queue { SettledStoredAgrees(cfg, s.world); }
  }

  /** The other messages wait, or nothing happened to their processes. */
  lemma OthersWait(cfg: Config, s: Service, a: Act, s': Service, x: nat)
    requires OneAtATime(s) && OneAtATime(s') && Serve(cfg, s, a) == Some(s') && x in s'.queue && x != a.id
    ensures x in s.queue && s'.queue[x] == s.queue[x]
    ensures s'.queue[x].stage == Waiting || (a.Send? && s'.world == s.world)
  {
    hide Plan, DecideAcquire, Deliverable, AfterWork, Perform;
    if a.Send? {
    } else if a.Receive? {
      assert s'.queue[a.id].stage != Waiting;
    } else {
      assert s.queue[a.id].stage != Waiting;
    }
  }

  lemma ServeKeepsSerial(cfg: Config, s: Service, a: Act, s': Service)
    requires Core(cfg, s.world) && Core(cfg, s'.world) && StagesOk(s) && SerialOk(s)
    requires OneAtATime(s) && OneAtATime(s') && Serve(cfg, s, a) == Some(s')
    ensures SerialOk(s') && (a.id in s.queue && a.id !in s'.queue ==> Agrees(s'.world.shard))
  {
    hide Core, StagesOk, Serve, OneAtATime, StageAligned, Agrees;
    if a.Work? {
      WorkedAligned(cfg, s, a.id, a.choice, s');
    } else {
      ActedAligned(cfg, s, a, s');
    }
    forall x | x in s'.queue ensures StageAligned(s'.world, s'.queue[x].stage) {
      if x != a.id {
        OthersWait(cfg, s, a, s', x);
        if s'.queue[x].stage == Waiting { WaitingIsAligned(s'.world); } else { assert StageAligned(s.world, s.queue[x].stage); }
      }
    }
  }

  lemma WaitingIsAligned(w: World)
    ensures StageAligned(w, Waiting)
  {
  }

  lemma {:induction false} ServedIsSerial(cfg: Config, acts: seq<Act>)
    requires Served(cfg, acts).Some? && Serial(cfg, acts)
    ensures SerialOk(Served(cfg, acts).value)
  {
    if acts != [] {
      var before := acts[..|acts| - 1];
      ServedIsSerial(cfg, before);
      ServedIsOwed(cfg, before);
      ServedIsSafe(cfg, before);
      ServedIsSafe(cfg, acts);
      var s, a, s' := Served(cfg, before).value, acts[|acts| - 1], Served(cfg, acts).value;
      assert OneAtATime(s) && OneAtATime(s');
      hide Served, Serve, Core, StagesOk, SerialOk, OneAtATime;
      ServeKeepsSerial(cfg, s, a, s');
    }
  }

  /** Delivered one at a time, whatever crashes and failures occur and in whatever order:
      whenever a message is acknowledged, order and job agree. */
  lemma AcknowledgedMeansAgreed(cfg: Config, acts: seq<Act>, a: Act)
    requires Served(cfg, acts).Some? && Serial(cfg, acts) && Serve(cfg, Served(cfg, acts).value, a).Some?
    requires OneAtATime(Serve(cfg, Served(cfg, acts).value, a).value)
    requires a.id in Served(cfg, acts).value.queue && a.id !in Serve(cfg, Served(cfg, acts).value, a).value.queue
    ensures Agrees(Serve(cfg, Served(cfg, acts).value, a).value.world.shard)
  {
    var s := Served(cfg, acts).value;
    var s' := Serve(cfg, s, a).value;
    ServedIsSerial(cfg, acts);
    ServedIsOwed(cfg, acts);
    ServedIsSafe(cfg, acts);
    assert (acts + [a])[..|acts|] == acts;
    ServedIsSafe(cfg, acts + [a]);
    hide Served, Serve, Core, StagesOk, SerialOk, OneAtATime, Agrees;
    ServeKeepsSerial(cfg, s, a, s');
  }

  /** So once all messages are acknowledged, a canceled, refunded or past-due order has no job
      or a disabled one, and a paid one is ready. */
  lemma DrainedMeansAgreed(cfg: Config, acts: seq<Act>)
    requires Served(cfg, acts).Some? && Serial(cfg, acts) && Served(cfg, acts).value.queue == map[]
    ensures Agrees(Served(cfg, acts).value.world.shard)
  {
    ServedIsSerial(cfg, acts);
  }
}