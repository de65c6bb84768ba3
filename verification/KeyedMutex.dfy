/** The per-key mutex (packages/esig-gateway/src/stores.ts:112-135). A call is known by its
    arrival number; what runs between two awaits is one step, so calls interleave freely. */
module KeyedMutexes {
  import opened Domain

  /** A call waits for the tail it found, runs its function, and releases. */
  datatype Phase = Queueing | Inside | Done

  datatype Call = Call(key: string, prev: Option<nat>, phase: Phase)

  /** `tails` holds the last call of each chain; a call's tail resolves once it and
      everything before it in its chain has released. */
  datatype Mutex = Mutex(tails: map<string, nat>, calls: seq<Call>)

  const NEW_MUTEX := Mutex(map[], [])

  function TailOf(m: Mutex, key: string): Option<nat> {
    if key in m.tails then Some(m.tails[key]) else None
  }

  function Arrive(m: Mutex, key: string): Mutex {
    Mutex(m.tails[key := |m.calls|], m.calls + [Call(key, TailOf(m, key), Queueing)])
  }

  /** The tail promise of call `t` is resolved. */
  predicate Resolved(m: Mutex, t: nat) {
    && t < |m.calls| && m.calls[t].phase == Done
    && (m.calls[t].prev.Some? ==> m.calls[t].prev.value < t && Resolved(m, m.calls[t].prev.value))
  }

  predicate MayEnter(m: Mutex, t: nat) {
    && t < |m.calls| && m.calls[t].phase == Queueing
    && (m.calls[t].prev.Some? ==> Resolved(m, m.calls[t].prev.value))
  }

  function Enter(m: Mutex, t: nat): Mutex
    requires t < |m.calls|
  {
    m.(calls := m.calls[t := m.calls[t].(phase := Inside)])
  }

  /** Release, and drop the entry if nobody queued behind. */
  function Leave(m: Mutex, t: nat): Mutex
    requires t < |m.calls|
  {
    var key := m.calls[t].key;
    Mutex(if TailOf(m, key) == Some(t) then m.tails - {key} else m.tails,
          m.calls[t := m.calls[t].(phase := Done)])
  }

  /** The program's object, whose three stretches of code between awaits are these. */
  class KeyedMutex {
    var tails: map<string, nat>
    var calls: seq<Call>

    constructor ()
      ensures State() == NEW_MUTEX
    {
      tails, calls := map[], [];
    }

    function State(): Mutex
      reads this
    {
      Mutex(tails, calls)
    }

    method QueueUp(key: string) returns (t: nat)
      modifies this
      ensures t == |old(calls)| && State() == Arrive(old(State()), key)
    {
      var prev := if key in tails then Some(tails[key]) else None;
      t := |calls|;
      tails := tails[key := t];
      calls := calls + [Call(key, prev, Queueing)];
    }

    method Proceed(t: nat)
      requires MayEnter(State(), t)
      modifies this`calls
      ensures State() == Enter(old(State()), t)
    {
      calls := calls[t := calls[t].(phase := Inside)];
    }

    method Release(t: nat)
      requires t < |calls| && calls[t].phase == Inside
      modifies this
      ensures State() == Leave(old(State()), t)
    {
      var key := calls[t].key;
      calls := calls[t := calls[t].(phase := Done)];
      if key in tails && tails[key] == t { tails := tails - {key}; }
    }
  }

  // ---------------------------------------------------------------------------
  // Runs
  // ---------------------------------------------------------------------------

  datatype Action = Arrives(key: string) | Enters(call: nat) | Leaves(call: nat)

  function Perform(m: Mutex, a: Action): Option<Mutex> {
    match a
    case Arrives(key) => Some(Arrive(m, key))
    case Enters(t) => if MayEnter(m, t) then Some(Enter(m, t)) else None
    case Leaves(t) => if t < |m.calls| && m.calls[t].phase == Inside then Some(Leave(m, t)) else None
  }

  function Run(actions: seq<Action>): Option<Mutex> {
    if actions == [] then Some(NEW_MUTEX)
    else
      var before := Run(actions[..|actions| - 1]);
      if before.None? then None else Perform(before.value, actions[|actions| - 1])
  }

  /** Everything of the key of `t` that arrived before `t` is done. */
  predicate EarlierDone(m: Mutex, t: nat)
    requires t < |m.calls|
  {
    forall u :: 0 <= u < t && m.calls[u].key == m.calls[t].key ==> m.calls[u].phase == Done
  }

  /** A call's predecessor is the previous arrival of its key; without one, all earlier
      calls of the key are done. */
  predicate Linked(m: Mutex, t: nat)
    requires t < |m.calls|
  {
    match m.calls[t].prev
    case None => EarlierDone(m, t)
    case Some(p) =>
      && p < t && m.calls[p].key == m.calls[t].key
      && forall u :: p < u < t ==> m.calls[u].key != m.calls[t].key
  }

  predicate MutexOk(m: Mutex) {
    && (forall t :: 0 <= t < |m.calls| ==> Linked(m, t))
    && (forall t :: 0 <= t < |m.calls| && m.calls[t].phase != Queueing ==> EarlierDone(m, t))
    && (forall key :: key in m.tails ==>
          && m.tails[key] < |m.calls| && m.calls[m.tails[key]].key == key
          && forall u :: m.tails[key] < u < |m.calls| ==> m.calls[u].key != key)
    && (forall t :: 0 <= t < |m.calls| && m.calls[t].key !in m.tails ==> m.calls[t].phase == Done)
  }

  lemma ArriveKeepsOk(m: Mutex, key: string)
    requires MutexOk(m)
    ensures MutexOk(Arrive(m, key))
  {
    var next := Arrive(m, key);
    forall t | 0 <= t < |next.calls| ensures Linked(next, t) {
      if t < |m.calls| { assert Linked(m, t); }
    }
    forall t | 0 <= t < |next.calls| && next.calls[t].phase != Queueing ensures EarlierDone(next, t) {
      assert EarlierDone(m, t);
    }
  }

  /** Once a call's predecessor is resolved, everything before the call is done. */
  lemma EnterableIsNext(m: Mutex, t: nat)
    requires MutexOk(m) && MayEnter(m, t)
    ensures EarlierDone(m, t)
  {
    assert Linked(m, t);
    if m.calls[t].prev.Some? {
      var p := m.calls[t].prev.value;
      assert EarlierDone(m, p);
    }
  }

  lemma PhaseKeepsOk(m: Mutex, t: nat, phase: Phase, next: Mutex)
    requires MutexOk(m) && t < |m.calls| && EarlierDone(m, t)
    requires m.calls[t].phase != Done && phase != Queueing
    requires next.calls == m.calls[t := m.calls[t].(phase := phase)]
    ensures forall u :: 0 <= u < |next.calls| ==> Linked(next, u)
    ensures forall u :: 0 <= u < |next.calls| && next.calls[u].phase != Queueing ==> EarlierDone(next, u)
  {
    forall u | 0 <= u < |next.calls| ensures Linked(next, u) {
      assert Linked(m, u);
      if u > t && m.calls[u].prev.None? { assert EarlierDone(m, u); }
    }
    forall u | 0 <= u < |next.calls| && next.calls[u].phase != Queueing ensures EarlierDone(next, u) {
      assert EarlierDone(m, u);
    }
  }

  lemma EnterKeepsOk(m: Mutex, t: nat)
    requires MutexOk(m) && MayEnter(m, t)
    ensures MutexOk(Enter(m, t))
  {
    EnterableIsNext(m, t);
    PhaseKeepsOk(m, t, Inside, Enter(m, t));
    hide Linked, EarlierDone;
  }

  lemma LeaveKeepsOk(m: Mutex, t: nat)
    requires MutexOk(m) && t < |m.calls| && m.calls[t].phase == Inside
    ensures MutexOk(Leave(m, t))
  {
    var next := Leave(m, t);
    assert EarlierDone(m, t);
    PhaseKeepsOk(m, t, Done, next);
    var key := m.calls[t].key;
    forall u | 0 <= u < |next.calls| && next.calls[u].key !in next.tails ensures next.calls[u].phase == Done {
      if m.calls[u].key == key && key in m.tails && u != t { assert u < t; }
    }
    hide Linked;
  }

  lemma {:induction false} RunsAreOk(actions: seq<Action>)
    requires Run(actions).Some?
    ensures MutexOk(Run(actions).value)
  {
    if actions != [] {
      RunsAreOk(actions[..|actions| - 1]);
      var m := Run(actions[..|actions| - 1]).value;
      match actions[|actions| - 1]
      case Arrives(key) => ArriveKeepsOk(m, key);
      case Enters(t) => EnterKeepsOk(m, t);
      case Leaves(t) => LeaveKeepsOk(m, t);
    }
  }

  /** Of one key, at most one call is inside: dropping an entry never lets a newcomer in
      beside somebody. */
  lemma MutualExclusion(actions: seq<Action>, t: nat, u: nat)
    requires Run(actions).Some? && t < |Run(actions).value.calls| && u < |Run(actions).value.calls|
    requires var m := Run(actions).value;
             m.calls[t].phase == Inside && m.calls[u].phase == Inside && m.calls[t].key == m.calls[u].key
    ensures t == u
  {
    RunsAreOk(actions);
    var m := Run(actions).value;
    assert EarlierDone(m, t) && EarlierDone(m, u);
  }

  /** First come, first served: who has entered has seen every earlier call of the key
      enter and leave. */
  lemma FirstComeFirstServed(actions: seq<Action>, t: nat, u: nat)
    requires Run(actions).Some? && u < t < |Run(actions).value.calls|
    requires var m := Run(actions).value; m.calls[t].phase != Queueing && m.calls[t].key == m.calls[u].key
    ensures Run(actions).value.calls[u].phase == Done
  {
    RunsAreOk(actions);
    assert EarlierDone(Run(actions).value, t);
  }

  lemma {:induction false} DoneChainsResolve(m: Mutex, t: nat)
    requires MutexOk(m) && t < |m.calls| && m.calls[t].phase == Done
    ensures Resolved(m, t)
  {
    assert Linked(m, t) && EarlierDone(m, t);
    if m.calls[t].prev.Some? { DoneChainsResolve(m, m.calls[t].prev.value); }
  }

  /** Nobody waits forever behind nobody: unless a call of the key is inside, its first
      waiting call may enter. */
  lemma FirstWaiterMayEnter(actions: seq<Action>, t: nat)
    requires Run(actions).Some? && t < |Run(actions).value.calls|
    requires var m := Run(actions).value; m.calls[t].phase == Queueing && EarlierDone(m, t)
    ensures MayEnter(Run(actions).value, t)
  {
    RunsAreOk(actions);
    var m := Run(actions).value;
    assert Linked(m, t);
    if m.calls[t].prev.Some? { DoneChainsResolve(m, m.calls[t].prev.value); }
  }

  /** The map stays bounded: an entry stands for a call that is not done. */
  lemma {:induction false} TailsAreBusy(actions: seq<Action>)
    requires Run(actions).Some?
    ensures var m := Run(actions).value;
            forall key :: key in m.tails ==> m.tails[key] < |m.calls| && m.calls[m.tails[key]].key == key && m.calls[m.tails[key]].phase != Done
  {
    if actions != [] {
      TailsAreBusy(actions[..|actions| - 1]);
    }
  }
}
