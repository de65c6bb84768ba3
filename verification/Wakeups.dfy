/** What an event handler reports (infra/provisioning/src/orchestrator.ts:180-239), and when
    its wake-up message is right: present exactly if the handler made work pending. */
module Wakeups {
  import opened Domain
  import opened Billing
  import opened Jobs
  import opened Store
  import opened Protocol
  import opened ProtocolSteps
  import opened ProtocolCore
  import opened ProtocolEffects
  import opened Scenarios

  /** Work that somebody has to be woken for. */
  predicate IsPending(job: Job) {
    job.state == Queued || job.state == Compensating
  }

  /** The job newly entered the pending state it is in. */
  predicate NewlyPending(before: Option<Job>, after: Job) {
    IsPending(after) && (before.None? || before.value.state != after.state)
  }

  /** The program's own test after `transitionToCompensation`: it looks at the job that was
      read first. */
  predicate WakesFor(first: Job, result: Job) {
    result.state == Compensating && first.state != Compensating
  }

  // ---------------------------------------------------------------------------
  // When the test is right
  // ---------------------------------------------------------------------------

  /** Whether `beginCompensation` leaves a job compensating. */
  predicate LeavesUndoing(job: Job, steps: seq<Step>, op: Operation) {
    var observed := steps + InFlightSteps(job);
    if job.operation == op && AllIn(observed, job.completedSteps) then job.state == Compensating
    else job.completedSteps + observed != []
  }

  lemma NothingObserved(job: Job, observed: seq<Step>)
    requires job.completedSteps <= STEPS
    ensures ObservedPrefix(job, observed) == [] <==> job.completedSteps + observed == []
    ensures AllIn(ObservedPrefix(job, observed), job.completedSteps) <==> AllIn(observed, job.completedSteps)
  {
    ObservedPrefixCovers(job, observed);
    if observed != [] { assert observed[0] in observed; }
    hide ObservedPrefix;
  }

  lemma LeavesUndoingIs(job: Job, steps: seq<Step>, op: Operation)
    requires JobOk(job) && op != Provisioning
    ensures TransitionTarget(job, steps, op).state == Compensating <==> LeavesUndoing(job, steps, op)
    ensures TransitionTarget(job, steps, op).state != Queued
  {
    var observed := steps + InFlightSteps(job);
    NothingObserved(job, observed);
    ObservedPrefixCovers(job, observed);
    if job.operation == op { SameOperationNeverDisables(job, observed); }
    hide ObservedPrefix;
  }

  /** The message is right exactly if the transition does not leave the job compensating,
      or the job read first and the one replaced agree on whether it was compensating
      before. Without a conflict they are the same. */
  lemma WakeupIsRightIff(first: Job, replaced: Job, steps: seq<Step>, op: Operation)
    requires JobOk(replaced) && op != Provisioning
    ensures var result := TransitionTarget(replaced, steps, op);
            (WakesFor(first, result) <==> NewlyPending(Some(replaced), result))
            <==> (LeavesUndoing(replaced, steps, op) ==>
                    (first.state == Compensating <==> replaced.state == Compensating))
  {
    LeavesUndoingIs(replaced, steps, op);
    hide TransitionTarget, LeavesUndoing, JobOk;
  }

  // ---------------------------------------------------------------------------
  // Handlers in runs
  // ---------------------------------------------------------------------------

  /** `EventProcessingResult`: the job that is reported and whether a message goes with it;
      or an error. */
  datatype HandlerResult = Answered(job: Option<Job>, woke: bool) | Raised

  /** What a handler ends with when its last step is `m`. */
  function ResultOf(sh: Shard, p: Process, c: Choice, m: Move): HandlerResult {
    if c.Threw? then Raised
    else
      match p.pc
      case Handling(GetJob(_)) => Answered(sh.job, false)
      case Handling(Resume(_)) => if m.op.SetJob? then Answered(Some(m.op.job), true) else Raised
      case Handling(Create(_)) =>
        if m.op.SetJob? then Answered(Some(m.op.job), true)
        else if p.Handler? && CreateProvisioningJob(p.pc.h.order, p.policy).Ok? && sh.job.Some? then Answered(sh.job, false)
        else Raised
      case Transition(ListRecords(job), _, _, ForHandler(first)) => Answered(Some(job), WakesFor(first, job))
      case Transition(PutJob(_, _), _, _, ForHandler(first)) =>
        if m.op.SetJob? then Answered(Some(m.op.job), WakesFor(first, m.op.job)) else Raised
      case _ => Raised
  }

  /** A handler takes its last step. */
  ghost predicate Ends(cfg: Config, w: World, pid: nat, c: Choice, m: Move) {
    && pid in w.procs && w.procs[pid].Handler?
    && Plan(cfg, w.shard, w.secrets, w.procs[pid], c) == Some(m) && m.next == Finish
  }

  /** The transition that a handler ends with: the job it found or replaces, and the
      records it has seen. */
  function Replaces(p: Process, c: Choice): Option<(Job, seq<Step>)> {
    match p.pc
    case Transition(ListRecords(job), _, _, _) => if c.Listing? then Some((job, StepsOf(c.listed))) else None
    case Transition(PutJob(job, steps), _, _, _) => Some((job, steps))
    case _ => None
  }

  /** The job that a handler's result replaces, if any. */
  function Before(sh: Shard, p: Process, c: Choice): Option<Job> {
    if Replaces(p, c).Some? then Some(Replaces(p, c).value.0) else sh.job
  }

  /** On its first try a transition works on the job that the handler read first. */
  predicate FirstTry(p: Process) {
    match p.pc
    case Transition(ListRecords(job), _, tries, cont) => p.Handler? ==> cont.ForHandler? && (tries == 0 ==> job == cont.first)
    case Transition(PutJob(job, _), _, tries, cont) => p.Handler? ==> cont.ForHandler? && (tries == 0 ==> job == cont.first)
    case Transition(GetJobAgain, _, tries, cont) => p.Handler? ==> cont.ForHandler? && tries > 0
    case _ => true
  }

  lemma MoveKeepsFirstTry(cfg: Config, sh: Shard, secrets: set<Publication>, p: Process, c: Choice, m: Move)
    requires Plan(cfg, sh, secrets, p, c) == Some(m) && p.Handler? && FirstTry(p) && m.next.Goto?
    ensures FirstTry(At(p, m.next.pc))
  {
    hide ReduceBillingEvent, TransitionTarget, IsProvisionableOrder;
  }

  ghost predicate FirstTries(w: World) {
    forall pid :: pid in w.procs && w.procs[pid].Handler? ==> FirstTry(w.procs[pid])
  }

  lemma {:induction false} RunKeepsFirstTry(cfg: Config, actions: seq<Action>)
    requires Run(cfg, actions).Some?
    ensures FirstTries(Run(cfg, actions).value)
  {
    if actions != [] {
      RunKeepsFirstTry(cfg, actions[..|actions| - 1]);
      var w, a, w' := Run(cfg, actions[..|actions| - 1]).value, actions[|actions| - 1], Run(cfg, actions).value;
      hide Run, Plan, FirstTry;
      if a.Continue? {
        var m := Plan(cfg, w.shard, w.secrets, w.procs[a.pid], a.choice).value;
        if w.procs[a.pid].Handler? && m.next.Goto? {
          MoveKeepsFirstTry(cfg, w.shard, w.secrets, w.procs[a.pid], a.choice, m);
        }
      } else if a.Deliver? {
        assert FirstTry(w'.procs[a.pid]) by { NewHandlerTries(a.event, a.policy); }
      }
    }
  }

  lemma NewHandlerTries(event: Event, policy: RetryPolicy)
    ensures FirstTry(Handler(event, policy, Handling(GetOrder(0))))
  {
  }

  /** The job version that a handler's last step works on is valid, and it is the stored one
      if the step writes. */
  lemma EndsOnVersion(cfg: Config, actions: seq<Action>, pid: nat, c: Choice, m: Move)
    requires Run(cfg, actions).Some? && Ends(cfg, Run(cfg, actions).value, pid, c, m)
    ensures var w := Run(cfg, actions).value; var p := w.procs[pid];
            && CounterOk(p) && FirstTry(p)
            && (SnapshotOf(p.pc).Some? ==> JobOk(SnapshotOf(p.pc).value))
            && (m.op.SetJob? ==> JobPut(w.shard, p, m.op.job))
            && (m.op.SetJob? && !Creates(p) ==> SnapshotOf(p.pc) == w.shard.job)
            && (p.pc.Transition? ==> p.pc.operation != Provisioning)
  {
    RunIsSafe(cfg, actions);
    RunKeepsFirstTry(cfg, actions);
    var w := Run(cfg, actions).value;
    var p := w.procs[pid];
    hide Run, Plan, EffectsOk, FirstTry;
    assert ProcessOk(cfg, w, p);
    PlanFlow(cfg, w.shard, w.secrets, p, c, m);
    if SnapshotOf(p.pc).Some? { LastEvolves(cfg, w, SnapshotOf(p.pc).value); }
    if m.op.SetJob? && !Creates(p) {
      var last := w.history[|w.history| - 1];
      assert last.version == |w.history| - 1;
    }
    hide JobOk, HandlerOk, Evolves;
  }

  /** What a handler answers, by where it ends. */
  lemma AnswerIs(sh: Shard, p: Process, c: Choice, m: Move, cfg: Config, secrets: set<Publication>)
    requires p.Handler? && Plan(cfg, sh, secrets, p, c) == Some(m) && m.next == Finish && FirstTry(p)
    requires ResultOf(sh, p, c, m).Answered? && ResultOf(sh, p, c, m).job.Some?
    requires m.op.SetJob? ==> JobPut(sh, p, m.op.job)
    ensures var r := ResultOf(sh, p, c, m);
            if p.pc.Transition? then
              && Replaces(p, c).Some? && p.pc.cont.ForHandler?
              && var (job, steps) := Replaces(p, c).value;
                 && SnapshotOf(p.pc) == Some(job)
                 && r.job.value.state == TransitionTarget(job, steps, p.pc.operation).state
                 && r.woke == WakesFor(p.pc.cont.first, r.job.value)
                 && (p.pc.tries == 0 ==> p.pc.cont.first == job)
            else
              && Replaces(p, c).None?
              && (if m.op.SetJob? then r == Answered(Some(m.op.job), true) && (Creates(p) || EventOf(p) == Some(Resumed))
                  else r == Answered(sh.job, false))
  {
    hide ReduceBillingEvent, TransitionTarget, IsProvisionableOrder, CreateProvisioningJob, ResumeProvisioningJob;
  }

  lemma ResumedOrNewIsQueued(sh: Shard, p: Process, stored: Job)
    requires JobPut(sh, p, stored) && (Creates(p) || EventOf(p) == Some(Resumed))
    requires !Creates(p) ==> sh.job == SnapshotOf(p.pc) && JobOk(sh.job.value)
    ensures NewlyPending(sh.job, stored)
  {
    hide IsProvisionableOrder, IsRetryPolicy;
  }

  /** Over every run, whatever interferes: a handler that ends without a transition to
      compensation sends a message exactly if it made work pending. With one, the message
      is right exactly if the job is not left compensating, or the job that was read first
      and the one replaced agree on whether compensation was under way; and so it is right
      whenever no conflict occurred. */
  lemma HandlerWakesIff(cfg: Config, actions: seq<Action>, pid: nat, c: Choice, m: Move)
    requires Run(cfg, actions).Some? && Ends(cfg, Run(cfg, actions).value, pid, c, m)
    requires var w := Run(cfg, actions).value;
             ResultOf(w.shard, w.procs[pid], c, m).Answered? && ResultOf(w.shard, w.procs[pid], c, m).job.Some?
    ensures var w := Run(cfg, actions).value;
            var p, r := w.procs[pid], ResultOf(w.shard, w.procs[pid], c, m);
            var right := r.woke <==> NewlyPending(Before(w.shard, p, c), r.job.value);
            && (m.op.SetJob? ==> Before(w.shard, p, c) == w.shard.job)
            && (!p.pc.Transition? ==> right)
            && (p.pc.Transition? ==>
                  && Replaces(p, c).Some? && p.pc.cont.ForHandler?
                  && var (replaced, steps) := Replaces(p, c).value;
                     && (right <==> (LeavesUndoing(replaced, steps, p.pc.operation) ==>
                                       (p.pc.cont.first.state == Compensating <==> replaced.state == Compensating)))
                     && (p.pc.tries == 0 ==> right))
  {
    var w := Run(cfg, actions).value;
    var p := w.procs[pid];
    EndsOnVersion(cfg, actions, pid, c, m);
    AnswerIs(w.shard, p, c, m, cfg, w.secrets);
    hide Run, Plan, ResultOf, FirstTry, JobOk, LeavesUndoing, CounterOk, JobPut;
    if p.pc.Transition? {
      var (replaced, steps) := Replaces(p, c).value;
      WakeupIsRightIff(p.pc.cont.first, replaced, steps, p.pc.operation);
      hide TransitionTarget;
    } else if m.op.SetJob? {
      ResumedOrNewIsQueued(w.shard, p, m.op.job);
    }
  }

  // ---------------------------------------------------------------------------
  // Two runs with a conflict
  // ---------------------------------------------------------------------------

  /** A message is lost: the handler of a cancellation reads a job whose suspension is under
      way; the suspension fails; the handler makes the job compensating again, and sends
      nothing. */
  lemma ConflictLosesWakeup() returns (w: World, m: Move, job: Job)
    ensures Reachable(CFG, w) && Ends(CFG, w, 4, Go, m) && m.op == SetJob(job)
    ensures ResultOf(w.shard, w.procs[4], Go, m) == Answered(Some(job), false)
    ensures Before(w.shard, w.procs[4], Go) == w.shard.job && NewlyPending(w.shard.job, job)
  {
    hide Reachable, TransitionTarget;
    w := AboutToLose();
    job := ToUndo(5, Compensation, 0);
    m := Move(SetJob(job), Finish);
    FirstStepIsUndone(SUSPENSION_FAILED, Compensation);
  }

  /** A message is superfluous: the handler reads a running job; another handler makes it
      compensating and sends its message; the first one finds nothing to do, and sends a
      message too. */
  lemma ConflictRepeatsWakeup() returns (w: World, m: Move, job: Job)
    ensures Reachable(CFG, w) && Ends(CFG, w, 2, Listing([]), m) && m.op == Nothing && w.shard.job == Some(job)
    ensures ResultOf(w.shard, w.procs[2], Listing([]), m) == Answered(Some(job), true)
    ensures Before(w.shard, w.procs[2], Listing([])) == w.shard.job && !NewlyPending(w.shard.job, job)
  {
    hide Reachable, TransitionTarget;
    w := AboutToRepeat();
    job := UNDOING;
    m := Move(Nothing, Finish);
    NothingMoreToUndo(UNDOING);
    NoRecords(w.shard);
    assert StepsOf([]) == [];
  }
}
