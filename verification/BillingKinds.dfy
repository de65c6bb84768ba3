/** What a replay means in terms of the events themselves: which kinds of event, at which
    times, put an order into its state (infra/provisioning/src/state-machine.ts:30-61 and
    135-217). */
module BillingKinds {
  import opened Domain
  import opened Billing

  /** A subscription event that reports a state. */
  predicate Reports(e: Event, s: BillingState) {
    (e.kind.SubscriptionCreated? || e.kind.SubscriptionUpdated?) && e.kind.status == s
  }

  /** What an event says by its kind. */
  predicate Says(e: Event, s: BillingState) {
    match s
    case Pending => e.kind.CheckoutCompleted? || Reports(e, Pending)
    case Active => e.kind.InvoicePaid? || Reports(e, Active)
    case PastDue => e.kind.InvoicePaymentFailed? || Reports(e, PastDue)
    case Canceled => e.kind.SubscriptionDeleted? || Reports(e, Canceled)
    case Refunded => e.kind.ChargeRefunded?
  }

  ghost predicate Said(all: set<Event>, s: BillingState) {
    exists e :: e in all && Says(e, s)
  }

  predicate Newest(all: set<Event>, e: Event) {
    e in all && forall f :: f in all ==> f.createdAt <= e.createdAt
  }

  /** Some event of the newest second says so. */
  ghost predicate NewlySaid(all: set<Event>, s: BillingState) {
    exists e :: Newest(all, e) && Says(e, s)
  }

  ghost predicate Ended(all: set<Event>) {
    Said(all, Canceled) || Said(all, Refunded)
  }

  lemma DesiredIsSaid(e: Event, s: BillingState)
    ensures DesiredBillingState(e) == Some(s) <==> Says(e, s)
  {
  }

  lemma HasDesiredIsSaid(all: set<Event>, s: BillingState)
    ensures HasDesired(all, s) <==> Said(all, s)
  {
    forall e ensures DesiredBillingState(e) == Some(s) <==> Says(e, s) { DesiredIsSaid(e, s); }
  }

  /** The event that decides a live order's state is of the newest second, and of those that
      are, none says anything that counts for more: a failed payment before a payment
      before a checkout. */
  lemma DeciderSays(all: set<Event>, e: Event, f: Event)
    requires MaximalCursorIn(all, e) && f in all && !f.kind.Ignored?
    ensures f.createdAt <= e.createdAt
    ensures f.createdAt == e.createdAt && Says(f, PastDue) ==> !Says(e, Active) && !Says(e, Pending)
    ensures f.createdAt == e.createdAt && Says(f, Active) ==> !Says(e, Pending)
    ensures f.createdAt == e.createdAt && Says(e, PastDue) && Says(f, PastDue) ==> f.eventId <= e.eventId
    ensures f.createdAt == e.createdAt && Says(e, Active) && Says(f, Active) ==> f.eventId <= e.eventId
    ensures f.createdAt == e.createdAt && Says(e, Pending) && Says(f, Pending) ==> f.eventId <= e.eventId
  {
    assert CompareCursor(CursorOf(f), CursorOf(e)) <= 0;
  }

  /** The state of an order, from the events that were delivered in whatever order: refunded
      by a refund, else canceled by a cancellation, else what the newest second says, where a
      failed payment counts for more than a payment, and a payment for more than a checkout. */
  lemma StateIsSaid(events: seq<Event>, sub: string)
    requires AllDeliverable(events, sub) && events != []
    ensures var s, all := Replay(events, sub).value.billingState, Elements(events);
            && (s == Refunded <==> Said(all, Refunded))
            && (s == Canceled <==> Said(all, Canceled) && !Said(all, Refunded))
            && (s == PastDue <==> !Ended(all) && NewlySaid(all, PastDue))
            && (s == Active <==> !Ended(all) && NewlySaid(all, Active) && !NewlySaid(all, PastDue))
            && (s == Pending <==> !Ended(all) && !NewlySaid(all, Active) && !NewlySaid(all, PastDue))
  {
    ReplayDescribes(events, sub);
    var o, all := Replay(events, sub).value, Elements(events);
    HasDesiredIsSaid(all, Refunded);
    HasDesiredIsSaid(all, Canceled);
    hide Replay, Says;
    if !IsTerminalState(o.billingState) {
      var e :| MaximalCursorIn(all, e) && o.billingState == Desired(e) && o.stateCursor == CursorOf(e);
      assert Says(e, o.billingState) by { DesiredIsSaid(e, o.billingState); }
      NewestDecides(all, e, o.billingState);
    }
  }

  lemma NewestDecides(all: set<Event>, e: Event, s: BillingState)
    requires MaximalCursorIn(all, e) && Says(e, s) && !IsTerminalState(s)
    requires forall f :: f in all ==> !f.kind.Ignored?
    ensures Newest(all, e) && NewlySaid(all, s)
    ensures s != PastDue ==> !NewlySaid(all, PastDue)
    ensures s == Pending ==> !NewlySaid(all, Active)
  {
    forall f | f in all
      ensures f.createdAt <= e.createdAt
      ensures f.createdAt == e.createdAt && Says(f, PastDue) ==> s == PastDue
      ensures f.createdAt == e.createdAt && Says(f, Active) ==> s != Pending
    {
      DeciderSays(all, e, f);
    }
    hide Says, MaximalCursorIn;
    assert Newest(all, e);
    assert forall f :: Newest(all, f) ==> f.createdAt == e.createdAt;
  }

  /** So an order is active only if somebody paid, past due only after a failed payment, and
      so on: an order never gets into a state that no event spoke of. */
  lemma StateWasSaid(events: seq<Event>, sub: string)
    requires AllDeliverable(events, sub) && events != []
    ensures exists e :: e in events && Says(e, Replay(events, sub).value.billingState)
  {
    ReplayDescribes(events, sub);
    var o, all := Replay(events, sub).value, Elements(events);
    var e: Event;
    if IsTerminalState(o.billingState) {
      e :| e in all && DesiredBillingState(e) == Some(o.billingState);
    } else {
      e :| MaximalCursorIn(all, e) && o.billingState == Desired(e) && o.stateCursor == CursorOf(e);
    }
    DesiredIsSaid(e, o.billingState);
    hide Replay;
  }

  function Rank(s: BillingState): int {
    match s
    case Pending => 1
    case Active => 2
    case PastDue => 3
    case Canceled => 4
    case Refunded => 5
  }

  /** The cursor names an event that says what the state is; that of a live order names the
      one with the greatest id among those of the newest second that say so. */
  lemma CursorNamesItsEvent(events: seq<Event>, sub: string)
    requires AllDeliverable(events, sub) && events != []
    ensures var o, all := Replay(events, sub).value, Elements(events);
            exists e ::
              && e in all && Says(e, o.billingState)
              && o.stateCursor == EventCursor(e.createdAt, Rank(o.billingState), e.eventId)
              && (!IsTerminalState(o.billingState) ==>
                    Newest(all, e) && forall f :: Newest(all, f) && Says(f, o.billingState) ==> f.eventId <= e.eventId)
  {
    hide Replay, Says, Describes, IsDigest;
    ReplayDescribes(events, sub);
    var o, all := Replay(events, sub).value, Elements(events);
    if IsTerminalState(o.billingState) {
      TerminalCursor(events, sub);
      var e :| e in events && o.stateCursor == CursorOf(e) && Desired(e) == o.billingState;
      DesiredIsSaid(e, o.billingState);
      assert e in all;
    } else {
      LiveCursor(all, o);
    }
  }

  lemma LiveCursor(all: set<Event>, o: Order)
    requires Describes(all, o) && !IsTerminalState(o.billingState) && forall f :: f in all ==> !f.kind.Ignored?
    ensures exists e ::
              && e in all && Says(e, o.billingState)
              && o.stateCursor == EventCursor(e.createdAt, Rank(o.billingState), e.eventId)
              && Newest(all, e) && forall f :: Newest(all, f) && Says(f, o.billingState) ==> f.eventId <= e.eventId
  {
    var e :| MaximalCursorIn(all, e) && o.billingState == Desired(e) && o.stateCursor == CursorOf(e);
    DesiredIsSaid(e, o.billingState);
    hide Describes;
    NewestDecides(all, e, o.billingState);
    forall f | Newest(all, f) && Says(f, o.billingState) ensures f.eventId <= e.eventId { DeciderSays(all, e, f); }
    hide Says;
  }

  // ---------------------------------------------------------------------------
  // Identity
  // ---------------------------------------------------------------------------

  /** What the first event that knows a field says of it. */
  function FirstKnown<T>(events: seq<Event>, field: Event -> Option<T>): Option<T> {
    if events == [] then None
    else if field(events[0]).Some? then field(events[0])
    else FirstKnown(events[1..], field)
  }

  lemma {:induction false} FirstKnownSnoc<T>(events: seq<Event>, last: Event, field: Event -> Option<T>)
    ensures FirstKnown(events + [last], field)
            == if FirstKnown(events, field).Some? then FirstKnown(events, field) else field(last)
  {
    if events == [] {
      assert events + [last] == [last] && [last][1..] == [];
    } else {
      assert (events + [last])[0] == events[0] && (events + [last])[1..] == events[1..] + [last];
      FirstKnownSnoc(events[1..], last, field);
    }
  }

  /** Customer, owner and mode are what the first event that knew them said. */
  lemma {:induction false} IdentityIsTheFirst(events: seq<Event>, sub: string)
    requires AllDeliverable(events, sub) && events != []
    ensures var o := Replay(events, sub).value;
            && o.customerId == FirstKnown(events, (e: Event) => e.customerId)
            && o.ownerSubject == FirstKnown(events, (e: Event) => e.ownerSubject)
            && o.mode == FirstKnown(events, (e: Event) => e.mode)
  {
    var init, last := events[..|events| - 1], events[|events| - 1];
    assert events == init + [last] && last in events;
    FirstKnownSnoc(init, last, (e: Event) => e.customerId);
    FirstKnownSnoc(init, last, (e: Event) => e.ownerSubject);
    FirstKnownSnoc(init, last, (e: Event) => e.mode);
    if init != [] { IdentityIsTheFirst(init, sub); }
    hide FirstKnown;
  }

  /** A plan is known exactly if some event named one, and then some event named it. */
  lemma {:induction false} PlanWasNamed(events: seq<Event>, sub: string)
    requires AllDeliverable(events, sub) && events != []
    ensures var o := Replay(events, sub).value;
            && (o.plan.Some? <==> exists e :: e in events && e.plan.Some?)
            && (o.plan.Some? ==> exists e :: e in events && e.plan == o.plan)
  {
    var init, last := events[..|events| - 1], events[|events| - 1];
    assert events == init + [last] && last in events;
    if init != [] { PlanWasNamed(init, sub); }
    assert forall e :: e in events <==> e in init || e == last;
  }

  // ---------------------------------------------------------------------------
  // What a reduction reports
  // ---------------------------------------------------------------------------

  predicate Knows(o: Order, e: Event) {
    && (e.customerId.Some? ==> o.customerId.Some?) && (e.ownerSubject.Some? ==> o.ownerSubject.Some?)
    && (e.mode.Some? ==> o.mode.Some?) && (e.plan.Some? ==> o.plan.Some?)
  }

  predicate IsOld(o: Order, e: Event) {
    e.createdAt < o.latestEventCreatedAt || (e.createdAt == o.latestEventCreatedAt && e.eventId <= o.latestEventId)
  }

  /** An event is refused exactly if it is malformed or of another subscription. */
  lemma RefusedIff(current: Option<Order>, e: Event)
    ensures ReduceBillingEvent(current, e).Err? <==>
              || e.eventId == 0 || e.createdAt < 0 || e.createdAt > MAX_SAFE_INTEGER
              || |e.payloadDigest| != 64
              || (exists c :: c in e.payloadDigest && c !in "0123456789abcdef")
              || (!e.kind.Ignored? && e.subscriptionId == "")
              || (!e.kind.Ignored? && current.Some? && current.value.subscriptionId != e.subscriptionId)
    ensures ReduceBillingEvent(current, e).Err? ==> ReduceBillingEvent(current, e).failure == SafeFailure(InvalidEvent, false)
  {
    assert forall c: char :: c in "0123456789abcdef" <==> '0' <= c <= '9' || 'a' <= c <= 'f';
  }

  /** What is reported says what happened: "created" the first order; "stale" and "stale,
      metadata filled" an event that is not newer than the latest, by whether it told
      something that was not known; and "applied" one that is newer, or whose state counts
      for more than the order's. */
  lemma ReportSays(current: Option<Order>, e: Event)
    requires ReduceBillingEvent(current, e).Ok?
    ensures var r := ReduceBillingEvent(current, e).value;
            && (r.disposition == IgnoredEvent <==> e.kind.Ignored?)
            && (r.disposition == IgnoredEvent ==> r.order == current)
            && (r.disposition == Created <==> !e.kind.Ignored? && current.None?)
            && (r.disposition == StaleMetadataFilled ==> IsOld(current.value, e) && !Knows(current.value, e))
            && (r.disposition == Stale ==> IsOld(current.value, e) && Knows(current.value, e))
            && (r.disposition == Applied && IsOld(current.value, e) ==>
                  Knows(current.value, e) && CompareCursor(CursorOf(e), current.value.stateCursor) > 0)
            && (current.Some? && !e.kind.Ignored? ==>
                  Knows(r.order.value, e)
                  && ((r.order.value.latestEventId == e.eventId && r.order.value.latestEventCreatedAt == e.createdAt)
                      || (IsOld(current.value, e) && r.order.value.latestEventId == current.value.latestEventId
                          && r.order.value.latestEventCreatedAt == current.value.latestEventCreatedAt)))
  {
  }
}
