/** The billing-event reducer (infra/provisioning/src/state-machine.ts) and what it
    computes over whole delivery histories. */
module Billing {
  import opened Domain

  type NonRefundedState = s: BillingState | s != Refunded witness Pending

  datatype EventKind =
    | Ignored
    | CheckoutCompleted
    | InvoicePaid
    | InvoicePaymentFailed
    | SubscriptionCreated(status: NonRefundedState)
    | SubscriptionUpdated(status: NonRefundedState)
    | SubscriptionDeleted
    | ChargeRefunded

  datatype Event = Event(
    eventId: EventId,
    createdAt: int,
    payloadDigest: string,
    kind: EventKind,
    subscriptionId: string,
    customerId: Option<string>,
    ownerSubject: Option<string>,
    mode: Option<DeploymentMode>,
    plan: Option<PlanId>)

  datatype Disposition =
    | IgnoredEvent | Created | Applied | Stale | StaleMetadataFilled | TerminalPreserved

  datatype Reduction = Reduction(disposition: Disposition, order: Option<Order>)

  function Precedence(s: BillingState): int {
    match s
    case Pending => 1
    case Active => 2
    case PastDue => 3
    case Canceled => 4
    case Refunded => 5
  }

  function DesiredBillingState(e: Event): Option<BillingState> {
    match e.kind
    case Ignored => None
    case CheckoutCompleted => Some(Pending)
    case InvoicePaid => Some(Active)
    case InvoicePaymentFailed => Some(PastDue)
    case SubscriptionCreated(s) => Some(s)
    case SubscriptionUpdated(s) => Some(s)
    case SubscriptionDeleted => Some(Canceled)
    case ChargeRefunded => Some(Refunded)
  }

  predicate IsDigest(d: string) {
    |d| == 64 && forall c :: c in d ==> '0' <= c <= '9' || 'a' <= c <= 'f'
  }

  predicate ValidEvent(e: Event) {
    && e.eventId != 0
    && IsSafeInteger(e.createdAt) && 0 <= e.createdAt
    && IsDigest(e.payloadDigest)
    && (e.kind.Ignored? || e.subscriptionId != "")
  }

  /** Negative, zero or positive, as the source's comparator. */
  function CompareCursor(l: EventCursor, r: EventCursor): int {
    if l.createdAt != r.createdAt then l.createdAt - r.createdAt
    else if l.precedence != r.precedence then l.precedence - r.precedence
    else l.eventId - r.eventId
  }

  function CursorFor(e: Event, s: BillingState): EventCursor {
    EventCursor(e.createdAt, Precedence(s), e.eventId)
  }

  predicate IsLatestAcceptedEvent(current: Order, e: Event) {
    || e.createdAt > current.latestEventCreatedAt
    || (e.createdAt == current.latestEventCreatedAt && e.eventId > current.latestEventId)
  }

  predicate MetadataWasFilled(current: Order, next: Order) {
    || (current.customerId.None? && next.customerId.Some?)
    || (current.ownerSubject.None? && next.ownerSubject.Some?)
    || (current.mode.None? && next.mode.Some?)
    || (current.plan.None? && next.plan.Some?)
  }

  function ReduceBillingEvent(current: Option<Order>, event: Event): Result<Reduction> {
    if !ValidEvent(event) then Fatal(InvalidEvent)
    else
      var wanted := DesiredBillingState(event);
      if wanted.None? then Ok(Reduction(IgnoredEvent, current))
      else
        var desired := wanted.value;
        var cursor := CursorFor(event, desired);
        if current.None? then
          Ok(Reduction(Created, Some(Order(
            0, event.subscriptionId, event.customerId, event.ownerSubject, event.mode,
            event.plan, desired, event.createdAt, event.eventId, cursor))))
        else if current.value.subscriptionId != event.subscriptionId then Fatal(InvalidEvent)
        else Ok(ReduceKnown(current.value, event, desired))
  }

  /** The branch of the reducer for an order that already exists. */
  function ReduceKnown(cur: Order, event: Event, desired: BillingState): Reduction {
    var cursor := CursorFor(event, desired);
    var latest := IsLatestAcceptedEvent(cur, event);
    var mayReplacePlan :=
      latest && !IsTerminalState(cur.billingState) && !IsTerminalState(desired);
    var (state, stateCursor, preserved) :=
      if cur.billingState == Refunded then (cur.billingState, cur.stateCursor, desired != Refunded)
      else if desired == Refunded then (Refunded, cursor, false)
      else if cur.billingState == Canceled then (cur.billingState, cur.stateCursor, desired != Canceled)
      else if desired == Canceled then (Canceled, cursor, false)
      else if CompareCursor(cursor, cur.stateCursor) > 0 then (desired, cursor, false)
      else (cur.billingState, cur.stateCursor, false);
    var next := cur.(
      customerId := OrElse(cur.customerId, event.customerId),
      ownerSubject := OrElse(cur.ownerSubject, event.ownerSubject),
      mode := OrElse(cur.mode, event.mode),
      plan := if mayReplacePlan && event.plan.Some? then event.plan else OrElse(cur.plan, event.plan),
      billingState := state,
      stateCursor := stateCursor,
      latestEventCreatedAt := if latest then event.createdAt else cur.latestEventCreatedAt,
      latestEventId := if latest then event.eventId else cur.latestEventId);
    var disposition :=
      if preserved then TerminalPreserved
      else if !latest && MetadataWasFilled(cur, next) then StaleMetadataFilled
      else if !latest && CompareCursor(cursor, cur.stateCursor) <= 0 then Stale
      else Applied;
    Reduction(disposition, Some(next))
  }

  // ---------------------------------------------------------------------------
  // Delivery histories
  // ---------------------------------------------------------------------------

  /** An event that the reducer accepts for subscription `sub`. */
  predicate Deliverable(e: Event, sub: string) {
    ValidEvent(e) && !e.kind.Ignored? && e.subscriptionId == sub
  }

  function Desired(e: Event): BillingState
    requires !e.kind.Ignored?
  {
    DesiredBillingState(e).value
  }

  function CursorOf(e: Event): EventCursor
    requires !e.kind.Ignored?
  {
    CursorFor(e, Desired(e))
  }

  /** One committed reduction: the store keeps the reducer's order and counts versions. */
  function Commit(current: Option<Order>, e: Event): (o: Order)
    requires Deliverable(e, e.subscriptionId)
    requires current.Some? ==> current.value.subscriptionId == e.subscriptionId
    ensures o.subscriptionId == e.subscriptionId
  {
    var reduced := ReduceBillingEvent(current, e).value.order.value;
    if current.None? then reduced else reduced.(version := current.value.version + 1)
  }

  predicate AllDeliverable(events: seq<Event>, sub: string) {
    forall e :: e in events ==> Deliverable(e, sub)
  }

  /** The stored order after the events were committed in this order. */
  function Replay(events: seq<Event>, sub: string): (o: Option<Order>)
    requires AllDeliverable(events, sub)
    ensures o.Some? <==> events != []
    ensures o.Some? ==> o.value.subscriptionId == sub && o.value.version == |events| - 1
  {
    if events == [] then None
    else
      var last := events[|events| - 1];
      assert last in events;
      Some(Commit(Replay(events[..|events| - 1], sub), last))
  }

  function Elements(events: seq<Event>): set<Event> {
    set e | e in events
  }

  predicate HasDesired(all: set<Event>, s: BillingState) {
    exists e :: e in all && DesiredBillingState(e) == Some(s)
  }

  predicate AtMost(f: Event, at: int, id: EventId) {
    f.createdAt < at || (f.createdAt == at && f.eventId <= id)
  }

  predicate LatestIn(all: set<Event>, e: Event) {
    e in all && forall f :: f in all ==> AtMost(f, e.createdAt, e.eventId)
  }

  predicate MaximalCursorIn(all: set<Event>, e: Event) {
    && e in all && !e.kind.Ignored?
    && forall f :: f in all && !f.kind.Ignored? ==> CompareCursor(CursorOf(f), CursorOf(e)) <= 0
  }

  /** What an order must say about the SET of events that were committed to it. */
  ghost predicate Describes(all: set<Event>, o: Order) {
    && (o.billingState == Refunded <==> HasDesired(all, Refunded))
    && (o.billingState == Canceled <==> HasDesired(all, Canceled) && !HasDesired(all, Refunded))
    && (!IsTerminalState(o.billingState) ==>
          exists e :: MaximalCursorIn(all, e) && o.billingState == Desired(e) && o.stateCursor == CursorOf(e))
    && (exists e :: LatestIn(all, e) && o.latestEventCreatedAt == e.createdAt && o.latestEventId == e.eventId)
  }

  lemma ElementsSnoc(events: seq<Event>, last: Event)
    ensures Elements(events + [last]) == Elements(events) + {last}
  {
  }

  lemma HasDesiredSnoc(all: set<Event>, last: Event, s: BillingState)
    ensures HasDesired(all + {last}, s) <==> HasDesired(all, s) || DesiredBillingState(last) == Some(s)
  {
    if HasDesired(all + {last}, s) {
      var e :| e in all + {last} && DesiredBillingState(e) == Some(s);
      assert e in all || e == last;
    }
    if HasDesired(all, s) {
      var e :| e in all && DesiredBillingState(e) == Some(s);
      assert e in all + {last};
    }
    assert last in all + {last};
  }

  /** The state after a commit, from the state before it. */
  lemma CommitState(o: Order, e: Event)
    requires Deliverable(e, o.subscriptionId)
    ensures var next := Commit(Some(o), e).billingState;
            && (next == Refunded <==> o.billingState == Refunded || Desired(e) == Refunded)
            && (next == Canceled <==> next != Refunded && (o.billingState == Canceled || Desired(e) == Canceled))
  {
  }

  /** One commit keeps the description true of the grown set. */
  lemma CommitDescribes(all: set<Event>, o: Order, e: Event)
    requires forall f :: f in all ==> Deliverable(f, o.subscriptionId)
    requires Deliverable(e, o.subscriptionId)
    requires Describes(all, o)
    ensures Describes(all + {e}, Commit(Some(o), e))
  {
    HasDesiredSnoc(all, e, Refunded);
    HasDesiredSnoc(all, e, Canceled);
    CommitLatest(all, o, e);
    CommitState(o, e);
    if !IsTerminalState(Commit(Some(o), e).billingState) {
      var m :| MaximalCursorIn(all, m) && o.billingState == Desired(m) && o.stateCursor == CursorOf(m);
      CommitCursor(all, o, e, m);
    }
    hide Commit, LatestIn, MaximalCursorIn, HasDesired;
  }

  lemma CommitCursor(all: set<Event>, o: Order, e: Event, m: Event)
    requires Deliverable(e, o.subscriptionId)
    requires MaximalCursorIn(all, m) && o.billingState == Desired(m) && o.stateCursor == CursorOf(m)
    requires !IsTerminalState(o.billingState) && !IsTerminalState(Desired(e))
    ensures var next := Commit(Some(o), e);
            exists top :: MaximalCursorIn(all + {e}, top)
                          && next.billingState == Desired(top) && next.stateCursor == CursorOf(top)
  {
    var top := if CompareCursor(CursorOf(e), CursorOf(m)) > 0 then e else m;
    forall f | f in all + {e} && !f.kind.Ignored? ensures CompareCursor(CursorOf(f), CursorOf(top)) <= 0 {
      if f in all {
        assert CompareCursor(CursorOf(f), CursorOf(m)) <= 0;
        CompareTransitive(CursorOf(f), CursorOf(m), CursorOf(e));
      }
    }
    assert MaximalCursorIn(all + {e}, top);
  }

  lemma CompareTransitive(a: EventCursor, b: EventCursor, c: EventCursor)
    ensures CompareCursor(a, b) <= 0 && CompareCursor(b, c) <= 0 ==> CompareCursor(a, c) <= 0
    ensures CompareCursor(a, b) < 0 <==> CompareCursor(b, a) > 0
    ensures CompareCursor(b, c) < 0 <==> CompareCursor(c, b) > 0
  {
  }

  lemma CommitLatest(all: set<Event>, o: Order, e: Event)
    requires Deliverable(e, o.subscriptionId)
    requires exists m :: LatestIn(all, m) && o.latestEventCreatedAt == m.createdAt && o.latestEventId == m.eventId
    ensures var next := Commit(Some(o), e);
            exists m :: LatestIn(all + {e}, m)
                        && next.latestEventCreatedAt == m.createdAt && next.latestEventId == m.eventId
  {
    var m :| LatestIn(all, m) && o.latestEventCreatedAt == m.createdAt && o.latestEventId == m.eventId;
    assert LatestIn(all + {e}, if IsLatestAcceptedEvent(o, e) then e else m);
  }

  /** Whatever the delivery order and however often events are repeated, the stored
      order describes exactly the set of committed events. */
  lemma {:induction false} ReplayDescribes(events: seq<Event>, sub: string)
    requires AllDeliverable(events, sub) && events != []
    ensures Describes(Elements(events), Replay(events, sub).value)
  {
    var init, last := events[..|events| - 1], events[|events| - 1];
    assert events == init + [last];
    assert last in events;
    ElementsSnoc(init, last);
    if init == [] {
      var o := Replay(events, sub).value;
      assert Elements(events) == {last};
      assert LatestIn({last}, last) && MaximalCursorIn({last}, last);
      HasDesiredSnoc({}, last, Refunded);
      HasDesiredSnoc({}, last, Canceled);
      assert {} + {last} == {last};
    } else {
      ReplayDescribes(init, sub);
      CommitDescribes(Elements(init), Replay(init, sub).value, last);
    }
  }

  /** The description leaves no freedom in what it speaks of. */
  lemma DescriptionIsUnique(all: set<Event>, a: Order, b: Order)
    requires Describes(all, a) && Describes(all, b)
    ensures a.billingState == b.billingState
    ensures a.latestEventCreatedAt == b.latestEventCreatedAt && a.latestEventId == b.latestEventId
    ensures !IsTerminalState(a.billingState) ==> a.stateCursor == b.stateCursor
  {
    var x :| LatestIn(all, x) && a.latestEventCreatedAt == x.createdAt && a.latestEventId == x.eventId;
    var y :| LatestIn(all, y) && b.latestEventCreatedAt == y.createdAt && b.latestEventId == y.eventId;
    assert AtMost(x, y.createdAt, y.eventId) && AtMost(y, x.createdAt, x.eventId);
    if !IsTerminalState(a.billingState) {
      var p :| MaximalCursorIn(all, p) && a.billingState == Desired(p) && a.stateCursor == CursorOf(p);
      var q :| MaximalCursorIn(all, q) && b.billingState == Desired(q) && b.stateCursor == CursorOf(q);
      assert CompareCursor(CursorOf(p), CursorOf(q)) <= 0 && CompareCursor(CursorOf(q), CursorOf(p)) <= 0;
    }
  }

  /** Delivery permutations and redeliveries converge. */
  lemma DeliveriesConverge(xs: seq<Event>, ys: seq<Event>, sub: string)
    requires AllDeliverable(xs, sub) && AllDeliverable(ys, sub)
    requires Elements(xs) == Elements(ys) && xs != []
    ensures ys != []
    ensures var a, b := Replay(xs, sub).value, Replay(ys, sub).value;
            && a.billingState == b.billingState
            && a.latestEventCreatedAt == b.latestEventCreatedAt
            && a.latestEventId == b.latestEventId
            && (!IsTerminalState(a.billingState) ==> a.stateCursor == b.stateCursor)
  {
    assert xs[0] in Elements(xs);
    ReplayDescribes(xs, sub);
    ReplayDescribes(ys, sub);
    DescriptionIsUnique(Elements(xs), Replay(xs, sub).value, Replay(ys, sub).value);
  }

  /** A terminal subscription is never resurrected: later events keep it terminal, and
      only a refund can change it (from canceled to refunded). */
  lemma {:induction false} TerminalIsAbsorbing(before: seq<Event>, after: seq<Event>, sub: string)
    requires AllDeliverable(before + after, sub) && before != []
    requires AllDeliverable(before, sub)
    requires IsTerminalState(Replay(before, sub).value.billingState)
    ensures var now := Replay(before + after, sub).value.billingState;
            now == Refunded || (now == Canceled && Replay(before, sub).value.billingState == Canceled)
  {
    ReplayDescribes(before, sub);
    ReplayDescribes(before + after, sub);
    var s := Replay(before, sub).value.billingState;
    var e :| e in Elements(before) && DesiredBillingState(e) == Some(s);
    assert e in Elements(before + after);
  }

  // ---------------------------------------------------------------------------
  // Fields that do depend on delivery order, and exactly when they do not
  // ---------------------------------------------------------------------------

  /** The event ledger keeps one payload per id. */
  ghost predicate IdsIdentify(all: set<Event>) {
    forall e, f :: e in all && f in all && e.eventId == f.eventId ==> e == f
  }

  ghost predicate DeliveryOf(xs: seq<Event>, all: set<Event>) {
    Elements(xs) == all
  }

  lemma {:induction false} AnyDelivery(all: set<Event>) returns (xs: seq<Event>)
    ensures DeliveryOf(xs, all)
    decreases |all|
  {
    if all == {} {
      xs := [];
    } else {
      var e :| e in all;
      var rest := AnyDelivery(all - {e});
      xs := rest + [e];
      ElementsSnoc(rest, e);
      assert all == (all - {e}) + {e};
    }
  }

  lemma ElementsConcat(xs: seq<Event>, ys: seq<Event>)
    ensures Elements(xs + ys) == Elements(xs) + Elements(ys)
  {
  }

  /** No event of `all` may replace the order's plan any more. */
  ghost predicate PlanFrozen(all: set<Event>, o: Order) {
    || IsTerminalState(o.billingState)
    || forall f :: f in all ==> !IsLatestAcceptedEvent(o, f)
  }

  /** Once the plan is frozen and known, no delivery changes it. */
  lemma {:induction false} FrozenPlanStays(before: seq<Event>, after: seq<Event>, all: set<Event>, sub: string)
    requires AllDeliverable(before, sub) && before != []
    requires Elements(after) <= all && forall e :: e in all ==> Deliverable(e, sub)
    requires AllDeliverable(before + after, sub)
    requires PlanFrozen(all, Replay(before, sub).value) && Replay(before, sub).value.plan.Some?
    ensures PlanFrozen(all, Replay(before + after, sub).value)
    ensures Replay(before + after, sub).value.plan == Replay(before, sub).value.plan
    decreases |after|
  {
    if after == [] {
      assert before + after == before;
    } else {
      var init, last := after[..|after| - 1], after[|after| - 1];
      assert before + after == (before + init) + [last];
      assert (before + after)[..|before + after| - 1] == before + init;
      assert last in Elements(after);
      assert Elements(init) <= Elements(after);
      FrozenPlanStays(before, init, all, sub);
    }
  }

  /** Exactly when every delivery of a set of events ends with the same plan: no two
      of them name different plans, or none is terminal and the latest one names one. */
  ghost predicate PlanSettled(all: set<Event>) {
    || (forall e, f :: e in all && f in all && e.plan.Some? && f.plan.Some? ==> e.plan == f.plan)
    || (&& (forall e :: e in all ==> !HasTerminalDesire(e))
        && exists e :: LatestIn(all, e) && e.plan.Some?)
  }

  predicate HasTerminalDesire(e: Event) {
    var d := DesiredBillingState(e);
    d.Some? && IsTerminalState(d.value)
  }

  ghost predicate PlanConverges(all: set<Event>, sub: string)
    requires forall e :: e in all ==> Deliverable(e, sub)
  {
    forall xs, ys ::
      DeliveryOf(xs, all) && DeliveryOf(ys, all) ==> SamePlan(all, xs, ys, sub)
  }

  ghost predicate SamePlan(all: set<Event>, xs: seq<Event>, ys: seq<Event>, sub: string)
    requires forall e :: e in all ==> Deliverable(e, sub)
    requires DeliveryOf(xs, all) && DeliveryOf(ys, all)
  {
    DeliveryIsDeliverable(xs, all, sub);
    DeliveryIsDeliverable(ys, all, sub);
    xs != [] && ys != [] ==> Replay(xs, sub).value.plan == Replay(ys, sub).value.plan
  }

  lemma DeliveryIsDeliverable(xs: seq<Event>, all: set<Event>, sub: string)
    requires Elements(xs) <= all && forall e :: e in all ==> Deliverable(e, sub)
    ensures AllDeliverable(xs, sub)
  {
    forall e | e in xs ensures Deliverable(e, sub) { assert e in Elements(xs); }
  }

  /** With agreeing plans, the plan is the one any delivered event names. */
  lemma {:induction false} AgreedPlan(xs: seq<Event>, all: set<Event>, sub: string)
    requires AllDeliverable(xs, sub) && xs != [] && Elements(xs) <= all
    requires forall e, f :: e in all && f in all && e.plan.Some? && f.plan.Some? ==> e.plan == f.plan
    ensures Replay(xs, sub).value.plan.Some? <==> exists e :: e in xs && e.plan.Some?
    ensures forall e :: e in all && e.plan.Some? && Replay(xs, sub).value.plan.Some? ==>
              Replay(xs, sub).value.plan == e.plan
  {
    var init, last := xs[..|xs| - 1], xs[|xs| - 1];
    assert xs == init + [last] && last in xs && last in Elements(xs);
    if init != [] {
      assert Elements(init) <= Elements(xs);
      AgreedPlan(init, all, sub);
      assert forall e :: e in xs <==> e in init || e == last;
    }
  }

  /** One commit of the latest event, or after it, leaves the latest event's plan. */
  lemma CommitKeepsLatestPlan(seen: set<Event>, o: Order, e: Event, top: Event)
    requires Deliverable(e, o.subscriptionId)
    requires exists m :: LatestIn(seen, m) && o.latestEventCreatedAt == m.createdAt && o.latestEventId == m.eventId
    requires !IsTerminalState(o.billingState) && !HasTerminalDesire(e)
    requires LatestIn(seen + {e, top}, top) && IdsIdentify(seen + {e, top}) && top.plan.Some?
    requires top in seen ==> o.plan == top.plan
    ensures top in seen || e == top ==> Commit(Some(o), e).plan == top.plan
  {
    var m :| LatestIn(seen, m) && o.latestEventCreatedAt == m.createdAt && o.latestEventId == m.eventId;
    assert m in seen + {e, top} && e in seen + {e, top} && top in seen + {e, top};
    assert AtMost(e, top.createdAt, top.eventId) && AtMost(m, top.createdAt, top.eventId);
    if top in seen {
      assert AtMost(top, m.createdAt, m.eventId);
    }
  }

  /** Without terminal events an order is live, and its latest event is the latest of all. */
  lemma LiveReplay(xs: seq<Event>, all: set<Event>, sub: string)
    requires AllDeliverable(xs, sub) && xs != [] && Elements(xs) <= all
    requires forall e :: e in all ==> !HasTerminalDesire(e)
    ensures var o := Replay(xs, sub).value;
            && !IsTerminalState(o.billingState)
            && exists m :: LatestIn(Elements(xs), m) && o.latestEventCreatedAt == m.createdAt && o.latestEventId == m.eventId
  {
    ReplayDescribes(xs, sub);
    hide Replay, LatestIn, MaximalCursorIn;
  }

  /** The latest non-terminal event with a plan decides it. */
  lemma {:induction false} LatestPlanWins(xs: seq<Event>, all: set<Event>, top: Event, sub: string)
    requires AllDeliverable(xs, sub) && xs != [] && Elements(xs) <= all
    requires IdsIdentify(all) && LatestIn(all, top) && top.plan.Some?
    requires forall e :: e in all ==> !HasTerminalDesire(e)
    ensures top in xs ==> Replay(xs, sub).value.plan == top.plan
  {
    hide ReduceBillingEvent, MaximalCursorIn, DesiredBillingState;
    var init, last := xs[..|xs| - 1], xs[|xs| - 1];
    assert xs == init + [last] && last in xs && last in Elements(xs);
    if init != [] {
      assert Elements(init) <= Elements(xs);
      LatestPlanWins(init, all, top, sub);
      LiveReplay(init, all, sub);
      assert Elements(init) + {last, top} <= all;
      assert top in init <==> top in Elements(init);
      CommitKeepsLatestPlan(Elements(init), Replay(init, sub).value, last, top);
    } else {
      ReplayOne(last, sub);
      assert xs == [last];
    }
  }

  lemma PlanSettledConverges(all: set<Event>, sub: string)
    requires forall e :: e in all ==> Deliverable(e, sub)
    requires IdsIdentify(all) && PlanSettled(all)
    ensures PlanConverges(all, sub)
  {
    forall xs, ys | DeliveryOf(xs, all) && DeliveryOf(ys, all) ensures SamePlan(all, xs, ys, sub) {
      DeliveryIsDeliverable(xs, all, sub);
      DeliveryIsDeliverable(ys, all, sub);
      if xs != [] && ys != [] {
        if forall e, f :: e in all && f in all && e.plan.Some? && f.plan.Some? ==> e.plan == f.plan {
          AgreedPlan(xs, all, sub);
          AgreedPlan(ys, all, sub);
          assert forall e :: e in xs <==> e in Elements(xs);
          assert forall e :: e in ys <==> e in Elements(ys);
        } else {
          var top :| LatestIn(all, top) && top.plan.Some?;
          assert top in Elements(xs) && top in Elements(ys);
          LatestPlanWins(xs, all, top, sub);
          LatestPlanWins(ys, all, top, sub);
        }
      }
    }
  }

  /** Starting with `head`, every delivery that goes on through `all` keeps its plan. */
  lemma HeadDecidesPlan(head: seq<Event>, all: set<Event>, rest: seq<Event>, sub: string)
    requires forall e :: e in all ==> Deliverable(e, sub)
    requires head != [] && Elements(head) <= all && DeliveryOf(rest, all)
    requires AllDeliverable(head, sub)
    requires PlanFrozen(all, Replay(head, sub).value) && Replay(head, sub).value.plan.Some?
    ensures DeliveryOf(head + rest, all) && AllDeliverable(head + rest, sub)
    ensures Replay(head + rest, sub).value.plan == Replay(head, sub).value.plan
  {
    ElementsConcat(head, rest);
    DeliveryIsDeliverable(head + rest, all, sub);
    FrozenPlanStays(head, rest, all, sub);
  }

  /** An event after which nothing in `all` may replace the plan. */
  ghost predicate Freezes(all: set<Event>, z: Event) {
    z in all && (HasTerminalDesire(z) || LatestIn(all, z))
  }

  lemma ReplayOne(e: Event, sub: string)
    requires Deliverable(e, sub)
    ensures AllDeliverable([e], sub)
    ensures var o := Replay([e], sub).value;
            o.plan == e.plan && o.billingState == Desired(e) && o.stateCursor == CursorOf(e)
            && o.latestEventCreatedAt == e.createdAt && o.latestEventId == e.eventId
  {
    assert [e][..0] == [];
  }

  lemma ReplayTwo(d: Event, e: Event, sub: string)
    requires Deliverable(d, sub) && Deliverable(e, sub)
    ensures AllDeliverable([d], sub) && AllDeliverable([d, e], sub)
    ensures Replay([d, e], sub) == Some(Commit(Replay([d], sub), e))
  {
    assert [d, e][..1] == [d];
  }

  /** Delivering the freezing event first makes the next plan final. */
  lemma FreezeThenFill(all: set<Event>, z: Event, a: Event, sub: string)
    requires forall e :: e in all ==> Deliverable(e, sub)
    requires Freezes(all, z) && z.plan.None? && a in all && a.plan.Some?
    ensures AllDeliverable([z, a], sub)
    ensures PlanFrozen(all, Replay([z, a], sub).value) && Replay([z, a], sub).value.plan == a.plan
  {
    ReplayOne(z, sub);
    ReplayTwo(z, a, sub);
    var o := Replay([z], sub).value;
    if !IsTerminalState(o.billingState) {
      assert forall f :: f in all ==> AtMost(f, z.createdAt, z.eventId);
    }
  }

  lemma FreezerExists(all: set<Event>, sub: string) returns (z: Event)
    requires all != {} && forall e :: e in all ==> Deliverable(e, sub)
    ensures Freezes(all, z)
    ensures (exists t :: t in all && HasTerminalDesire(t)) ==> HasTerminalDesire(z)
  {
    if exists t :: t in all && HasTerminalDesire(t) {
      z :| z in all && HasTerminalDesire(z);
    } else {
      var any := AnyDelivery(all);
      DeliveryIsDeliverable(any, all, sub);
      ReplayDescribes(any, sub);
      z :| LatestIn(all, z);
    }
  }

  /** When the freezing event names no plan, whichever plan comes second stays. */
  lemma FillsDiverge(all: set<Event>, z: Event, a: Event, b: Event, rest: seq<Event>, sub: string)
    requires forall e :: e in all ==> Deliverable(e, sub)
    requires DeliveryOf(rest, all) && Freezes(all, z) && z.plan.None?
    requires a in all && b in all && a.plan.Some? && b.plan.Some? && a.plan != b.plan
    ensures DeliveryOf([z, a] + rest, all) && DeliveryOf([z, b] + rest, all)
    ensures !SamePlan(all, [z, a] + rest, [z, b] + rest, sub)
  {
    FreezeThenFill(all, z, a, sub);
    FreezeThenFill(all, z, b, sub);
    assert Elements([z, a]) <= all && Elements([z, b]) <= all;
    hide PlanFrozen;
    HeadDecidesPlan([z, a], all, rest, sub);
    HeadDecidesPlan([z, b], all, rest, sub);
  }

  /** When a terminal event names a plan, one delivered before it wins. */
  lemma TerminalPlanDiverges(all: set<Event>, z: Event, c: Event, rest: seq<Event>, sub: string)
    requires forall e :: e in all ==> Deliverable(e, sub)
    requires DeliveryOf(rest, all) && z in all && HasTerminalDesire(z)
    requires c in all && z.plan.Some? && c.plan.Some? && c.plan != z.plan
    ensures DeliveryOf([z] + rest, all) && DeliveryOf([c, z] + rest, all)
    ensures !SamePlan(all, [z] + rest, [c, z] + rest, sub)
  {
    ReplayOne(z, sub);
    ReplayOne(c, sub);
    ReplayTwo(c, z, sub);
    assert Elements([z]) <= all && Elements([c, z]) <= all;
    HeadDecidesPlan([z], all, rest, sub);
    HeadDecidesPlan([c, z], all, rest, sub);
  }

  /** Two deliveries of an unsettled set that end with different plans. */
  lemma UnsettledPlanDiverges(all: set<Event>, sub: string) returns (xs: seq<Event>, ys: seq<Event>)
    requires forall e :: e in all ==> Deliverable(e, sub)
    requires !PlanSettled(all)
    ensures DeliveryOf(xs, all) && DeliveryOf(ys, all)
    ensures !SamePlan(all, xs, ys, sub)
  {
    var rest := AnyDelivery(all);
    var a, b :| a in all && b in all && a.plan.Some? && b.plan.Some? && a.plan != b.plan;
    var z := FreezerExists(all, sub);
    if z.plan.None? {
      FillsDiverge(all, z, a, b, rest, sub);
      xs, ys := [z, a] + rest, [z, b] + rest;
    } else {
      var c := if a.plan != z.plan then a else b;
      TerminalPlanDiverges(all, z, c, rest, sub);
      xs, ys := [z] + rest, [c, z] + rest;
    }
  }

  /** `plan` is the one field whose convergence fails; this is exactly when it holds. */
  lemma PlanConvergesIffSettled(all: set<Event>, sub: string)
    requires forall e :: e in all ==> Deliverable(e, sub)
    requires IdsIdentify(all)
    ensures PlanConverges(all, sub) <==> PlanSettled(all)
  {
    if PlanSettled(all) {
      PlanSettledConverges(all, sub);
    } else {
      var xs, ys := UnsettledPlanDiverges(all, sub);
    }
  }

  /** Three concrete events on which the plan depends on the order: delivered latest
      first they leave Starter, in order of creation they leave Team. */
  lemma PlanCounterexample(sub: string) returns (late: Event, first: Event, second: Event)
    requires sub != ""
    ensures Deliverable(late, sub) && Deliverable(first, sub) && Deliverable(second, sub)
    ensures Replay([late, first, second], sub).value.plan == Some(Starter)
    ensures Replay([first, second, late], sub).value.plan == Some(Team)
  {
    var digest := seq(64, _ => '0');
    late := Event(3, 3, digest, InvoicePaid, sub, None, None, None, None);
    first := Event(1, 1, digest, InvoicePaid, sub, None, None, None, Some(Starter));
    second := Event(2, 2, digest, InvoicePaid, sub, None, None, None, Some(Team));
    ReplayTwo(late, first, sub);
    ReplayTwo(first, second, sub);
    ReplayOne(late, sub);
    ReplayOne(first, sub);
    assert [late, first, second][..2] == [late, first];
    assert [first, second, late][..2] == [first, second];
  }

  /** An event whose state decides the final state of a set with a terminal event. */
  predicate Decisive(all: set<Event>, e: Event) {
    && e in all
    && (|| DesiredBillingState(e) == Some(Refunded)
        || (DesiredBillingState(e) == Some(Canceled) && !HasDesired(all, Refunded)))
  }

  /** Exactly when the state cursor does not depend on the order: at most one event is
      decisive (two refunds, or two cancels without a refund, race). */
  ghost predicate CursorSettled(all: set<Event>) {
    forall e, f :: Decisive(all, e) && Decisive(all, f) ==> e == f
  }

  ghost predicate SameCursor(all: set<Event>, xs: seq<Event>, ys: seq<Event>, sub: string)
    requires forall e :: e in all ==> Deliverable(e, sub)
    requires DeliveryOf(xs, all) && DeliveryOf(ys, all)
  {
    DeliveryIsDeliverable(xs, all, sub);
    DeliveryIsDeliverable(ys, all, sub);
    xs != [] && ys != [] ==> Replay(xs, sub).value.stateCursor == Replay(ys, sub).value.stateCursor
  }

  ghost predicate CursorConverges(all: set<Event>, sub: string)
    requires forall e :: e in all ==> Deliverable(e, sub)
  {
    forall xs, ys ::
      DeliveryOf(xs, all) && DeliveryOf(ys, all) ==> SameCursor(all, xs, ys, sub)
  }

  /** A terminal order's cursor is that of a decisive event among those delivered. */
  lemma {:induction false} TerminalCursor(xs: seq<Event>, sub: string)
    requires AllDeliverable(xs, sub) && xs != []
    requires IsTerminalState(Replay(xs, sub).value.billingState)
    ensures exists e :: e in xs && Replay(xs, sub).value.stateCursor == CursorOf(e)
                        && Desired(e) == Replay(xs, sub).value.billingState
  {
    var init, last := xs[..|xs| - 1], xs[|xs| - 1];
    assert xs == init + [last] && last in xs;
    if init != [] && IsTerminalState(Replay(init, sub).value.billingState) {
      TerminalCursor(init, sub);
      var e :| e in init && Replay(init, sub).value.stateCursor == CursorOf(e)
               && Desired(e) == Replay(init, sub).value.billingState;
      assert e in xs;
    }
  }

  /** A decisive first event fixes the cursor. */
  lemma {:induction false} DecisiveFirst(z: Event, after: seq<Event>, all: set<Event>, sub: string)
    requires forall e :: e in all ==> Deliverable(e, sub)
    requires Decisive(all, z) && Elements(after) <= all
    ensures AllDeliverable([z] + after, sub)
    ensures Replay([z] + after, sub).value.stateCursor == CursorOf(z)
    ensures Replay([z] + after, sub).value.billingState == Desired(z)
    decreases |after|
  {
    ElementsConcat([z], after);
    DeliveryIsDeliverable([z] + after, all, sub);
    if after == [] {
      assert [z] + after == [z];
      ReplayOne(z, sub);
    } else {
      var init, last := after[..|after| - 1], after[|after| - 1];
      assert [z] + after == ([z] + init) + [last];
      assert last in Elements(after) && Elements(init) <= Elements(after);
      DecisiveFirst(z, init, all, sub);
      assert ([z] + after)[..|[z] + after| - 1] == [z] + init;
    }
  }

  lemma SettledCursorsAgree(all: set<Event>, xs: seq<Event>, ys: seq<Event>, sub: string)
    requires forall e :: e in all ==> Deliverable(e, sub)
    requires CursorSettled(all) && DeliveryOf(xs, all) && DeliveryOf(ys, all)
    ensures SameCursor(all, xs, ys, sub)
  {
    DeliveryIsDeliverable(xs, all, sub);
    DeliveryIsDeliverable(ys, all, sub);
    if xs != [] && ys != [] {
      DeliveriesConverge(xs, ys, sub);
      ReplayDescribes(xs, sub);
      var s := Replay(xs, sub).value.billingState;
      if IsTerminalState(s) {
        assert s == Canceled ==> !HasDesired(all, Refunded);
        TerminalCursor(xs, sub);
        TerminalCursor(ys, sub);
        hide Describes, Replay;
        var e :| e in xs && Replay(xs, sub).value.stateCursor == CursorOf(e) && Desired(e) == s;
        var f :| f in ys && Replay(ys, sub).value.stateCursor == CursorOf(f) && Desired(f) == s;
        assert e in Elements(xs) && f in Elements(ys);
        assert Decisive(all, e) && Decisive(all, f);
      }
    }
  }

  lemma CursorSettledConverges(all: set<Event>, sub: string)
    requires forall e :: e in all ==> Deliverable(e, sub)
    requires CursorSettled(all)
    ensures CursorConverges(all, sub)
  {
    forall xs, ys | DeliveryOf(xs, all) && DeliveryOf(ys, all) ensures SameCursor(all, xs, ys, sub) {
      SettledCursorsAgree(all, xs, ys, sub);
    }
  }

  lemma DecisiveCursorsDiverge(all: set<Event>, e: Event, f: Event, rest: seq<Event>, sub: string)
    requires forall e :: e in all ==> Deliverable(e, sub)
    requires IdsIdentify(all) && Decisive(all, e) && Decisive(all, f) && e != f && DeliveryOf(rest, all)
    ensures DeliveryOf([e] + rest, all) && DeliveryOf([f] + rest, all)
    ensures !SameCursor(all, [e] + rest, [f] + rest, sub)
  {
    DecisiveFirst(e, rest, all, sub);
    DecisiveFirst(f, rest, all, sub);
    ElementsConcat([e], rest);
    ElementsConcat([f], rest);
    assert CursorOf(e) != CursorOf(f);
  }

  /** The state cursor converges exactly when at most one event is decisive. */
  lemma CursorConvergesIffSettled(all: set<Event>, sub: string)
    requires forall e :: e in all ==> Deliverable(e, sub)
    requires IdsIdentify(all)
    ensures CursorConverges(all, sub) <==> CursorSettled(all)
  {
    if CursorSettled(all) {
      CursorSettledConverges(all, sub);
    } else {
      var e, f :| Decisive(all, e) && Decisive(all, f) && e != f;
      var rest := AnyDelivery(all);
      DecisiveCursorsDiverge(all, e, f, rest, sub);
    }
  }

  /** Subscription identity and deployment topology never change once known. */
  lemma {:induction false} IdentityIsImmutable(before: seq<Event>, after: seq<Event>, sub: string)
    requires AllDeliverable(before, sub) && AllDeliverable(before + after, sub) && before != []
    ensures var a, b := Replay(before, sub).value, Replay(before + after, sub).value;
            && (a.customerId.Some? ==> b.customerId == a.customerId)
            && (a.ownerSubject.Some? ==> b.ownerSubject == a.ownerSubject)
            && (a.mode.Some? ==> b.mode == a.mode)
            && (a.plan.Some? ==> b.plan.Some?)
    decreases |after|
  {
    if after == [] {
      assert before + after == before;
    } else {
      var init, last := after[..|after| - 1], after[|after| - 1];
      assert before + after == (before + init) + [last];
      assert (before + after)[..|before + after| - 1] == before + init;
      assert last in before + after;
      forall e | e in before + init ensures Deliverable(e, sub) { assert e in before + after; }
      IdentityIsImmutable(before, init, sub);
    }
  }

  // ---------------------------------------------------------------------------
  // Dispositions
  // ---------------------------------------------------------------------------

  /** The event's terminal state replaces the order's state, however old the event is. */
  predicate TakesOver(cur: Order, desired: BillingState) {
    || (desired == Refunded && cur.billingState != Refunded)
    || (desired == Canceled && !IsTerminalState(cur.billingState))
  }

  /** An event that is called stale leaves the order alone if and only if it does not bring
      a terminal state that takes over. */
  lemma StaleChangesNothingIff(cur: Order, e: Event)
    requires Deliverable(e, cur.subscriptionId)
    requires ReduceBillingEvent(Some(cur), e).value.disposition == Stale
    ensures ReduceBillingEvent(Some(cur), e).value.order == Some(cur) <==> !TakesOver(cur, Desired(e))
  {
  }

  /** A refund that is older than the latest event is called stale and still refunds. */
  lemma LateRefundIsCalledStale(sub: string) returns (paid: Event, refund: Event)
    requires sub != ""
    ensures Deliverable(paid, sub) && Deliverable(refund, sub)
    ensures var r := ReduceBillingEvent(Replay([paid], sub), refund).value;
            r.disposition == Stale && r.order.value.billingState == Refunded
    ensures Replay([paid], sub).value.billingState == Active
  {
    var digest := seq(64, _ => '0');
    paid := Event(2, 2, digest, InvoicePaid, sub, None, None, None, None);
    refund := Event(1, 1, digest, ChargeRefunded, sub, None, None, None, None);
    ReplayOne(paid, sub);
  }

  /** "Terminal preserved" is reported exactly when a terminal order met another wish that
      does not take over, and then state and cursor stay. */
  lemma TerminalPreservedIff(cur: Order, e: Event)
    requires Deliverable(e, cur.subscriptionId)
    ensures var r := ReduceBillingEvent(Some(cur), e).value;
            && (r.disposition == TerminalPreserved <==>
                  IsTerminalState(cur.billingState) && Desired(e) != cur.billingState && !TakesOver(cur, Desired(e)))
            && (r.disposition == TerminalPreserved ==>
                  r.order.value.billingState == cur.billingState && r.order.value.stateCursor == cur.stateCursor)
  {
  }
}
