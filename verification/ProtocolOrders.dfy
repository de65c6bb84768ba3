/** The stored order, under every interleaving of handlers, is the sequential replay of the
    events in the order in which they were committed; so it describes their set. */
module ProtocolOrders {
  import opened Domain
  import opened Billing
  import opened Jobs
  import opened Store
  import opened Protocol
  import opened ProtocolSteps
  import opened ProtocolCore
  import opened ProtocolEffects

  /** The order that the first `n` commits left. */
  function OrderAfter(cfg: Config, committed: seq<Event>, n: nat): Option<Order>
    requires n <= |committed| && AllDeliverable(committed, cfg.sub)
  {
    assert forall e :: e in committed[..n] ==> e in committed;
    Replay(committed[..n], cfg.sub)
  }

  predicate StoredIsReplay(cfg: Config, w: World) {
    AllDeliverable(w.committed, cfg.sub) && w.shard.order == Replay(w.committed, cfg.sub)
  }

  /** A handler about to write has reduced its event over an order that was once stored. */
  predicate ReducedFromStored(cfg: Config, committed: seq<Event>, p: Process)
    requires AllDeliverable(committed, cfg.sub)
  {
    p.Handler? && p.pc.Handling? && p.pc.h.PutOrder? ==>
      && ReduceBillingEvent(p.pc.h.read, p.event).Ok?
      && ReduceBillingEvent(p.pc.h.read, p.event).value.order == Some(p.pc.h.reduced)
      && (p.pc.h.read.Some? ==>
            && p.pc.h.read.value.version < |committed|
            && OrderAfter(cfg, committed, p.pc.h.read.value.version + 1) == p.pc.h.read)
  }

  ghost predicate OrdersOk(cfg: Config, w: World) {
    && StoredIsReplay(cfg, w)
    && forall pid :: pid in w.procs ==> ReducedFromStored(cfg, w.committed, w.procs[pid])
  }

  /** A compare-and-set that succeeds commits the event over the order that is stored. */
  lemma PutCommits(cfg: Config, w: World, p: Process, m: Move)
    requires StoredIsReplay(cfg, w) && ReducedFromStored(cfg, w.committed, p) && HandlerOk(cfg, p)
    requires OrderFlow(w.shard, p, m) && m.op.SetOrder?
    ensures m.op.order == Commit(w.shard.order, p.event)
    ensures AllDeliverable(w.committed + [p.event], cfg.sub)
    ensures Replay(w.committed + [p.event], cfg.sub) == Some(m.op.order)
  {
    var grown := w.committed + [p.event];
    assert grown[..|grown| - 1] == w.committed;
    assert w.committed[..|w.committed|] == w.committed;
    if w.shard.order.Some? { assert p.pc.h.read == w.shard.order; }
  }

  /** The store's guard on terminal orders never refuses what the reducer produced. */
  lemma TerminalGuardNeverFires(order: Order, e: Event)
    requires Deliverable(e, order.subscriptionId)
    ensures var reduced := ReduceBillingEvent(Some(order), e).value.order.value;
            DecidePutOrder(Some(order), reduced, Some(order.version)) == Ok(Commit(Some(order), e))
  {
  }

  lemma GrownKeepsReduced(cfg: Config, committed: seq<Event>, e: Event, p: Process)
    requires AllDeliverable(committed + [e], cfg.sub) && AllDeliverable(committed, cfg.sub)
    requires ReducedFromStored(cfg, committed, p)
    ensures ReducedFromStored(cfg, committed + [e], p)
  {
    if p.Handler? && p.pc.Handling? && p.pc.h.PutOrder? && p.pc.h.read.Some? {
      var n := p.pc.h.read.value.version + 1;
      assert (committed + [e])[..n] == committed[..n];
    }
    hide ReduceBillingEvent;
  }

  lemma MovedIsReduced(cfg: Config, w: World, p: Process, m: Move, p': Process)
    requires StoredIsReplay(cfg, w) && Flow(w.shard, p, m) && Successor(p, m, p')
    ensures ReducedFromStored(cfg, w.committed, p')
  {
    SuccessorShape(p, m, p');
    assert w.committed[..|w.committed|] == w.committed;
    hide ReduceBillingEvent, Advance, LoopFlow, CallFlow, JobPut, SnapshotIsFresh, OrderFlow, TransitionTarget,
      StartProvisioningAttempt;
  }

  lemma MoveKeepsOrders(cfg: Config, w: World, pid: nat, c: Choice, m: Move, w': World)
    requires Core(cfg, w) && OrdersOk(cfg, w) && Moves(cfg, w, pid, c, m, w')
    ensures OrdersOk(cfg, w')
  {
    hide Plan;
    var p := w.procs[pid];
    MoveKeepsHistory(cfg, w, pid, c, m, w');
    OpTouches(w, TokenOfProcess(p), m.op);
    assert ProcessOk(cfg, w, p) && ReducedFromStored(cfg, w.committed, p);
    if pid in w'.procs { MovedIsReduced(cfg, w, p, m, w'.procs[pid]); }
    if m.op.SetOrder? { PutCommits(cfg, w, p, m); }
    hide Core, Flow, ApplyOp, Advance, HandlerOk, CounterOk;
    forall q | q in w'.procs ensures ReducedFromStored(cfg, w'.committed, w'.procs[q]) {
      if q != pid { assert ReducedFromStored(cfg, w.committed, w.procs[q]); }
      if m.op.SetOrder? { GrownKeepsReduced(cfg, w.committed, m.op.event, w'.procs[q]); }
    }
  }

  lemma OtherKeepsOrders(cfg: Config, w: World, a: Action, w': World)
    requires OrdersOk(cfg, w) && !a.Continue? && Perform(cfg, w, a) == Some(w')
    ensures OrdersOk(cfg, w')
  {
    assert w'.committed == w.committed && w'.shard.order == w.shard.order;
    assert forall q :: q in w'.procs && (q !in w.procs || w'.procs[q] != w.procs[q]) ==>
             !(w'.procs[q].pc.Handling? && w'.procs[q].pc.h.PutOrder?);
    hide Perform;
    forall q | q in w'.procs ensures ReducedFromStored(cfg, w'.committed, w'.procs[q]) {
      if q in w.procs { assert ReducedFromStored(cfg, w.committed, w.procs[q]); }
    }
  }

  lemma {:induction false} OrderRunIsSafe(cfg: Config, actions: seq<Action>)
    requires Run(cfg, actions).Some?
    ensures OrdersOk(cfg, Run(cfg, actions).value)
  {
    if actions != [] {
      var n := |actions| - 1;
      RunIsSafe(cfg, actions[..n]);
      OrderRunIsSafe(cfg, actions[..n]);
      hide Core, EffectsOk, OrdersOk, Plan;
      var w, a, w' := Run(cfg, actions[..n]).value, actions[n], Run(cfg, actions).value;
      if a.Continue? {
        MoveKeepsOrders(cfg, w, a.pid, a.choice, Plan(cfg, w.shard, w.secrets, w.procs[a.pid], a.choice).value, w');
      } else {
        OtherKeepsOrders(cfg, w, a, w');
      }
    }
  }

  /** For any events, handlers, conflicts and redeliveries: the stored order describes
      exactly the set of the events that were committed. */
  lemma StoredOrderDescribesCommitted(cfg: Config, actions: seq<Action>)
    requires Run(cfg, actions).Some?
    ensures var w := Run(cfg, actions).value;
            && (w.shard.order.None? <==> w.committed == [])
            && (w.shard.order.Some? ==> Describes(Elements(w.committed), w.shard.order.value))
  {
    OrderRunIsSafe(cfg, actions);
    var w := Run(cfg, actions).value;
    if w.committed != [] { ReplayDescribes(w.committed, cfg.sub); }
  }

  /** Two systems that committed the same set of events, however they interleaved, agree
      on the billing state and on the latest event. */
  lemma InterleavingsConverge(cfg: Config, first: seq<Action>, second: seq<Action>)
    requires Run(cfg, first).Some? && Run(cfg, second).Some?
    requires Elements(Run(cfg, first).value.committed) == Elements(Run(cfg, second).value.committed)
    requires Run(cfg, first).value.shard.order.Some?
    ensures Run(cfg, second).value.shard.order.Some?
    ensures var a, b := Run(cfg, first).value.shard.order.value, Run(cfg, second).value.shard.order.value;
            && a.billingState == b.billingState
            && a.latestEventCreatedAt == b.latestEventCreatedAt && a.latestEventId == b.latestEventId
  {
    OrderRunIsSafe(cfg, first);
    OrderRunIsSafe(cfg, second);
    DeliveriesConverge(Run(cfg, first).value.committed, Run(cfg, second).value.committed, cfg.sub);
  }
}
