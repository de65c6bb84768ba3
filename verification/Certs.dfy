/** One active certificate per tenant (packages/esig-core/src/cert-lifecycle.ts and
    packages/esig-core/src/fs-adapters.ts:60-118): the file under any interleaving of
    inserts and deactivations, and concurrent first signs under the keyed mutex. */
module Certs {
  import opened Domain
  import opened KeyedMutexes

  datatype Cert = Cert(id: nat, tenantId: string, active: bool, notAfter: int, rotatedFromId: Option<nat>)

  // ---------------------------------------------------------------------------
  // The file store
  // ---------------------------------------------------------------------------

  /** The first active row of the tenant. */
  function FindActive(rows: seq<Cert>, tenantId: string): (r: Option<Cert>)
    ensures r.Some? ==> r.value in rows && r.value.tenantId == tenantId && r.value.active
    ensures r.None? ==> forall c :: c in rows && c.tenantId == tenantId ==> !c.active
  {
    if rows == [] then None
    else if rows[0].tenantId == tenantId && rows[0].active then Some(rows[0])
    else FindActive(rows[1..], tenantId)
  }

  function DeactivateTenant(rows: seq<Cert>, tenantId: string): (r: seq<Cert>)
    ensures |r| == |rows|
    ensures forall i :: 0 <= i < |rows| ==> r[i] == if rows[i].tenantId == tenantId then rows[i].(active := false) else rows[i]
  {
    seq(|rows|, i requires 0 <= i < |rows| =>
      if rows[i].tenantId == tenantId then rows[i].(active := false) else rows[i])
  }

  function Inserted(rows: seq<Cert>, cert: Cert): seq<Cert> {
    DeactivateTenant(rows, cert.tenantId) + [cert.(active := true)]
  }

  /** The first row with the id, made inactive. */
  function Deactivated(rows: seq<Cert>, id: nat): (r: seq<Cert>)
    ensures |r| == |rows|
    ensures forall i :: 0 <= i < |rows| ==> r[i] == rows[i] || (r[i] == rows[i].(active := false) && rows[i].id == id)
  {
    if rows == [] then []
    else if rows[0].id == id then [rows[0].(active := false)] + rows[1..]
    else [rows[0]] + Deactivated(rows[1..], id)
  }

  class FsCertStore {
    var file: seq<Cert>

    constructor ()
      ensures file == []
    {
      file := [];
    }

    method Insert(cert: Cert) returns (row: Cert)
      modifies this
      ensures row == cert.(active := true) && file == Inserted(old(file), cert)
    {
      var rows := file;
      for n := 0 to |rows|
        invariant |rows| == |old(file)|
        invariant rows[..n] == DeactivateTenant(old(file), cert.tenantId)[..n] && rows[n..] == old(file)[n..]
      {
        if rows[n].tenantId == cert.tenantId { rows := rows[n := rows[n].(active := false)]; }
      }
      row := cert.(active := true);
      file := rows + [row];
    }

    method TurnOff(id: nat)
      modifies this
      ensures file == Deactivated(old(file), id)
    {
      var n := 0;
      while n < |file| && file[n].id != id
        invariant 0 <= n <= |file| && file == old(file)
        invariant forall j :: 0 <= j < n ==> file[j].id != id
      {
        n := n + 1;
      }
      DeactivatedIs(file, id, n);
      if n < |file| { file := file[n := file[n].(active := false)]; }
    }
  }

  /** The row that the search finds, or the end. */
  lemma {:induction false} DeactivatedIs(rows: seq<Cert>, id: nat, n: nat)
    requires n <= |rows| && (forall j :: 0 <= j < n ==> rows[j].id != id) && (n < |rows| ==> rows[n].id == id)
    ensures Deactivated(rows, id) == if n < |rows| then rows[n := rows[n].(active := false)] else rows
  {
    if n > 0 {
      DeactivatedIs(rows[1..], id, n - 1);
      assert rows == [rows[0]] + rows[1..];
    }
  }

  predicate AtMostOneActive(rows: seq<Cert>) {
    forall i, j :: 0 <= i < j < |rows| && rows[i].active && rows[j].active ==> rows[i].tenantId != rows[j].tenantId
  }

  predicate FreshIds(rows: seq<Cert>) {
    forall i :: 0 <= i < |rows| ==> rows[i].id == i
  }

  lemma {:induction false} OnlyActiveIsFound(rows: seq<Cert>, tenantId: string, i: nat)
    requires i < |rows| && rows[i].tenantId == tenantId && rows[i].active
    requires forall j :: 0 <= j < i ==> !(rows[j].tenantId == tenantId && rows[j].active)
    ensures FindActive(rows, tenantId) == Some(rows[i])
  {
    if i > 0 { OnlyActiveIsFound(rows[1..], tenantId, i - 1); }
  }

  lemma ExpiredIsTurnedOff(rows: seq<Cert>, tenantId: string)
    requires AtMostOneActive(rows) && FreshIds(rows) && FindActive(rows, tenantId).Some?
    ensures var after := Deactivated(rows, FindActive(rows, tenantId).value.id);
            && AtMostOneActive(after) && FreshIds(after)
            && forall i :: 0 <= i < |rows| && rows[i].tenantId != tenantId ==> after[i] == rows[i]
  {
    var c := FindActive(rows, tenantId).value;
    var i :| 0 <= i < |rows| && rows[i] == c;
    DeactivatedIs(rows, c.id, i);
    hide FindActive, Deactivated;
  }

  lemma InsertedIsTheActiveOne(rows: seq<Cert>, cert: Cert)
    requires AtMostOneActive(rows) && FreshIds(rows) && cert.active && cert.id == |rows|
    ensures var after := Inserted(rows, cert);
            && AtMostOneActive(after) && FreshIds(after) && FindActive(after, cert.tenantId) == Some(cert)
            && |after| == |rows| + 1
            && forall i :: 0 <= i < |rows| && rows[i].tenantId != cert.tenantId ==> after[i] == rows[i]
  {
    OnlyActiveIsFound(Inserted(rows, cert), cert.tenantId, |rows|);
    hide FindActive;
  }

  /** `ensureActiveCert`, undisturbed: the certificate returned is the tenant's one active
      row; it is the old one exactly while that is valid, and otherwise a new one that
      names its predecessor. No other tenant's row changes. */
  method EnsureActiveCert(store: FsCertStore, tenantId: string, now: int, notAfter: int) returns (cert: Cert)
    requires AtMostOneActive(store.file) && FreshIds(store.file)
    modifies store
    ensures AtMostOneActive(store.file) && FreshIds(store.file)
    ensures FindActive(store.file, tenantId) == Some(cert)
    ensures var existing := FindActive(old(store.file), tenantId);
            if existing.Some? && existing.value.notAfter > now then store.file == old(store.file) && Some(cert) == existing
            else cert == Cert(|old(store.file)|, tenantId, true, notAfter, if existing.Some? then Some(existing.value.id) else None)
    ensures forall i :: 0 <= i < |old(store.file)| ==>
              i < |store.file| && (old(store.file)[i].tenantId != tenantId ==> store.file[i] == old(store.file)[i])
  {
    var existing := FindActive(store.file, tenantId);
    if existing.Some? && existing.value.notAfter > now { return existing.value; }
    if existing.Some? {
      store.TurnOff(existing.value.id);
      ExpiredIsTurnedOff(old(store.file), tenantId);
    }
    hide AtMostOneActive, FreshIds, FindActive, Inserted;
    var minted := Cert(|store.file|, tenantId, true, notAfter, if existing.Some? then Some(existing.value.id) else None);
    InsertedIsTheActiveOne(store.file, minted);
    cert := store.Insert(minted);
  }

  datatype FileOp = Insert(cert: Cert) | Deactivate(id: nat)

  /** A call that read one state of the file and later writes the whole file; what was
      written in between is lost. */
  datatype FileCall = FileCall(read: nat, op: FileOp)

  function AfterOp(rows: seq<Cert>, op: FileOp): seq<Cert> {
    match op
    case Insert(cert) => Inserted(rows, cert)
    case Deactivate(id) => Deactivated(rows, id)
  }

  /** A deactivation that finds no row writes nothing. */
  predicate Writes(read: seq<Cert>, op: FileOp) {
    op.Insert? || exists i :: 0 <= i < |read| && read[i].id == op.id
  }

  /** What a call leaves of the file as it is now. */
  function AfterCall(read: seq<Cert>, current: seq<Cert>, op: FileOp): seq<Cert> {
    if Writes(read, op) then AfterOp(read, op) else current
  }

  /** The contents of the file: at first, and after each call. */
  function Contents(calls: seq<FileCall>): (h: seq<seq<Cert>>)
    ensures h != []
  {
    if calls == [] then [[]]
    else
      var before, c := Contents(calls[..|calls| - 1]), calls[|calls| - 1];
      if c.read < |before| then before + [AfterCall(before[c.read], before[|before| - 1], c.op)] else before
  }

  lemma OpKeepsOneActive(rows: seq<Cert>, op: FileOp)
    requires AtMostOneActive(rows)
    ensures AtMostOneActive(AfterOp(rows, op))
  {
  }

  /** Even with lost updates, no content of the file ever has two active rows of a tenant. */
  lemma {:induction false} FileHasOneActive(calls: seq<FileCall>, v: nat)
    requires v < |Contents(calls)|
    ensures AtMostOneActive(Contents(calls)[v])
  {
    if calls != [] {
      var before, c := Contents(calls[..|calls| - 1]), calls[|calls| - 1];
      if v < |before| {
        FileHasOneActive(calls[..|calls| - 1], v);
      } else {
        FileHasOneActive(calls[..|calls| - 1], c.read);
        FileHasOneActive(calls[..|calls| - 1], |before| - 1);
        OpKeepsOneActive(before[c.read], c.op);
      }
    }
  }

  /** The call is about a row of the tenant. */
  predicate Concerns(read: seq<Cert>, op: FileOp, tenantId: string) {
    match op
    case Insert(cert) => cert.tenantId == tenantId
    case Deactivate(id) => exists i :: 0 <= i < |read| && FirstOfId(read, id, i) && read[i].tenantId == tenantId
  }

  predicate FirstOfId(rows: seq<Cert>, id: nat, i: nat)
    requires i < |rows|
  {
    rows[i].id == id && forall j :: 0 <= j < i ==> rows[j].id != id
  }

  /** What a call leaves of the active row of a tenant that it is not about: it reads the
      whole file and writes all of it, so the row is kept exactly when what was read of that
      tenant is what is still there, or nothing is written. */
  lemma WriteKeepsOthersIff(read: seq<Cert>, current: seq<Cert>, op: FileOp, other: string)
    requires !Concerns(read, op, other)
    ensures FindActive(AfterCall(read, current, op), other) == FindActive(current, other)
            <==> FindActive(read, other) == FindActive(current, other) || !Writes(read, op)
  {
    OthersAreFound(read, op, other);
  }

  lemma {:induction false} OthersAreFound(rows: seq<Cert>, op: FileOp, other: string)
    requires !Concerns(rows, op, other)
    ensures FindActive(AfterOp(rows, op), other) == FindActive(rows, other)
  {
    if rows == [] {
      assert op.Insert? ==> Inserted(rows, op.cert)[1..] == [];
    } else if op.Insert? {
      assert Inserted(rows, op.cert)[1..] == Inserted(rows[1..], op.cert);
      OthersAreFound(rows[1..], op, other);
    } else if rows[0].id == op.id {
      assert FirstOfId(rows, op.id, 0);
    } else {
      forall i | 0 <= i < |rows[1..]| && FirstOfId(rows[1..], op.id, i) ensures rows[1..][i].tenantId != other {
        assert FirstOfId(rows, op.id, i + 1);
      }
      OthersAreFound(rows[1..], op, other);
    }
  }

  lemma ContentsOf(calls: seq<FileCall>)
    requires calls != []
    ensures var before, c := Contents(calls[..|calls| - 1]), calls[|calls| - 1];
            Contents(calls) == if c.read < |before| then before + [AfterCall(before[c.read], before[|before| - 1], c.op)] else before
  {
    hide AfterCall;
  }

  lemma ContentsGoOn(calls: seq<FileCall>, c: FileCall)
    requires c.read < |Contents(calls)|
    ensures var h := Contents(calls); Contents(calls + [c]) == h + [AfterCall(h[c.read], h[|h| - 1], c.op)]
  {
    hide AfterCall, Contents;
    var all := calls + [c];
    assert all[..|all| - 1] == calls && all[|all| - 1] == c;
    ContentsOf(all);
  }

  /** Two inserts for different tenants that read the same content: the first tenant's new
      certificate is lost, so that its next call mints another one. The mutex is per key
      and does not keep the two apart. */
  lemma InsertIsLost(a: Cert, b: Cert)
    requires a.tenantId != b.tenantId
    ensures var h := Contents([FileCall(0, Insert(a)), FileCall(0, Insert(b))]);
            && |h| == 3 && FindActive(h[1], a.tenantId) == Some(a.(active := true))
            && FindActive(h[2], a.tenantId) == None
  {
    ContentsGoOn([], FileCall(0, Insert(a)));
    ContentsGoOn([FileCall(0, Insert(a))], FileCall(0, Insert(b)));
    assert [] + [FileCall(0, Insert(a))] == [FileCall(0, Insert(a))];
    assert [FileCall(0, Insert(a))] + [FileCall(0, Insert(b))] == [FileCall(0, Insert(a)), FileCall(0, Insert(b))];
    assert Inserted([], a) == [a.(active := true)] && Inserted([], b) == [b.(active := true)];
    assert [b.(active := true)][1..] == [];
  }

  /** The rotation of one tenant's certificate loses another tenant's insert in the same way. */
  lemma InsertIsLostToRotation(a: Cert, b: Cert)
    requires a.tenantId != b.tenantId
    ensures var h := Contents([FileCall(0, Insert(a)), FileCall(1, Insert(b)), FileCall(1, Deactivate(a.id))]);
            && |h| == 4 && FindActive(h[2], b.tenantId) == Some(b.(active := true))
            && FindActive(h[3], b.tenantId) == None
  {
    var x, y, z := FileCall(0, Insert(a)), FileCall(1, Insert(b)), FileCall(1, Deactivate(a.id));
    var on := a.(active := true);
    ContentsGoOn([], x);
    ContentsGoOn([x], y);
    ContentsGoOn([x, y], z);
    assert [] + [x] == [x] && [x] + [y] == [x, y] && [x, y] + [z] == [x, y, z];
    assert Inserted([], a) == [on] && Inserted([on], b) == [on, b.(active := true)];
    assert [on, b.(active := true)][1..] == [b.(active := true)];
    assert [on][0].id == a.id && Deactivated([on], a.id) == [on.(active := false)] && [on.(active := false)][1..] == [];
  }

  // ---------------------------------------------------------------------------
  // ensureActiveCert under the mutex
  // ---------------------------------------------------------------------------

  /** Where a call inside the mutex stands in `ensureActiveCert`. */
  datatype Pc = Finding | Deactivating(expired: nat) | Inserting(rotated: Option<nat>) | Returned(cert: nat)

  datatype World = World(mutex: Mutex, rows: seq<Cert>, pcs: map<nat, Pc>)

  const NEW_WORLD := World(NEW_MUTEX, [], map[])

  /** One store call or one stretch of the mutex; `Fail` is an exception from the function. */
  datatype Step =
    | Sign(key: string)
    | Begin(call: nat)
    | Find(call: nat, now: int)
    | TurnOff(call: nat)
    | Mint(call: nat, notAfter: int)
    | Finish(call: nat)
    | Fail(call: nat)

  predicate IsInside(w: World, t: nat) {
    t < |w.mutex.calls| && w.mutex.calls[t].phase == Inside && t in w.pcs
  }

  function Perform(w: World, s: Step): Option<World> {
    match s
    case Sign(key) => Some(w.(mutex := Arrive(w.mutex, key)))
    case Begin(t) =>
      if MayEnter(w.mutex, t) then Some(w.(mutex := Enter(w.mutex, t), pcs := w.pcs[t := Finding])) else None
    case Find(t, now) =>
      if !IsInside(w, t) || w.pcs[t] != Finding then None
      else
        var existing := FindActive(w.rows, w.mutex.calls[t].key);
        Some(w.(pcs := w.pcs[t := if existing.None? then Inserting(None)
                                  else if existing.value.notAfter > now then Returned(existing.value.id)
                                  else Deactivating(existing.value.id)]))
    case TurnOff(t) =>
      if !IsInside(w, t) || !w.pcs[t].Deactivating? then None
      else Some(w.(rows := Deactivated(w.rows, w.pcs[t].expired), pcs := w.pcs[t := Inserting(Some(w.pcs[t].expired))]))
    case Mint(t, notAfter) =>
      if !IsInside(w, t) || !w.pcs[t].Inserting? then None
      else
        var cert := Cert(|w.rows|, w.mutex.calls[t].key, true, notAfter, w.pcs[t].rotated);
        Some(w.(rows := Inserted(w.rows, cert), pcs := w.pcs[t := Returned(cert.id)]))
    case Finish(t) =>
      if !IsInside(w, t) || !w.pcs[t].Returned? then None else Some(w.(mutex := Leave(w.mutex, t)))
    case Fail(t) =>
      if !IsInside(w, t) then None else Some(w.(mutex := Leave(w.mutex, t), pcs := w.pcs - {t}))
  }

  function Run(steps: seq<Step>): Option<World> {
    if steps == [] then Some(NEW_WORLD)
    else
      var before := Run(steps[..|steps| - 1]);
      if before.None? then None else Perform(before.value, steps[|steps| - 1])
  }

  /** Some call of the key saw, by its clock, that a certificate had expired. */
  ghost predicate SeenExpired(steps: seq<Step>, mutex: Mutex, key: string, notAfter: int) {
    exists k :: 0 <= k < |steps| && FoundExpired(steps[k], mutex, key, notAfter)
  }

  predicate FoundExpired(s: Step, mutex: Mutex, key: string, notAfter: int) {
    s.Find? && s.call < |mutex.calls| && mutex.calls[s.call].key == key && notAfter <= s.now
  }

  /** Of a tenant's rows only the last may be active, and the others have been seen expired. */
  ghost predicate RowsOk(rows: seq<Cert>, steps: seq<Step>, mutex: Mutex) {
    && FreshIds(rows)
    && (forall i, j :: 0 <= i < j < |rows| && rows[i].tenantId == rows[j].tenantId ==> !rows[i].active)
    && (forall i :: 0 <= i < |rows| && !rows[i].active ==> SeenExpired(steps, mutex, rows[i].tenantId, rows[i].notAfter))
  }

  /** A call that turns off a row, or is about to mint, is inside, and its key has that one
      active row, or none. What a call returned is a row of its key, still active while the
      call is inside. */
  ghost predicate PcOk(pc: Pc, call: Call, rows: seq<Cert>, steps: seq<Step>, mutex: Mutex) {
    && call.phase != Queueing && (!pc.Returned? ==> call.phase == Inside)
    && (pc.Deactivating? ==>
          && pc.expired < |rows| && rows[pc.expired].tenantId == call.key && rows[pc.expired].active
          && SeenExpired(steps, mutex, call.key, rows[pc.expired].notAfter))
    && (pc.Inserting? ==> forall i :: 0 <= i < |rows| && rows[i].tenantId == call.key ==> !rows[i].active)
    && (pc.Returned? ==>
          && pc.cert < |rows| && rows[pc.cert].tenantId == call.key
          && (call.phase == Inside ==> rows[pc.cert].active))
  }

  ghost predicate WorldOk(w: World, steps: seq<Step>) {
    && MutexOk(w.mutex) && RowsOk(w.rows, steps, w.mutex)
    && forall t :: t in w.pcs ==> t < |w.mutex.calls| && PcOk(w.pcs[t], w.mutex.calls[t], w.rows, steps, w.mutex)
  }

  /** Calls are never forgotten, and keep their keys. */
  predicate KeysKept(mutex: Mutex, mutex': Mutex) {
    && |mutex.calls| <= |mutex'.calls|
    && forall t :: 0 <= t < |mutex.calls| ==> mutex'.calls[t].key == mutex.calls[t].key
  }

  /** So what was seen stays seen. */
  lemma StillSeen(steps: seq<Step>, s: Step, mutex: Mutex, mutex': Mutex, key: string, notAfter: int)
    requires KeysKept(mutex, mutex') && SeenExpired(steps, mutex, key, notAfter)
    ensures SeenExpired(steps + [s], mutex', key, notAfter)
  {
    var k :| 0 <= k < |steps| && FoundExpired(steps[k], mutex, key, notAfter);
    assert FoundExpired((steps + [s])[k], mutex', key, notAfter);
  }

  lemma RowsStayOk(rows: seq<Cert>, steps: seq<Step>, s: Step, mutex: Mutex, mutex': Mutex)
    requires RowsOk(rows, steps, mutex) && KeysKept(mutex, mutex')
    ensures RowsOk(rows, steps + [s], mutex')
  {
    hide SeenExpired, KeysKept;
    forall i | 0 <= i < |rows| && !rows[i].active
      ensures SeenExpired(steps + [s], mutex', rows[i].tenantId, rows[i].notAfter)
    {
      StillSeen(steps, s, mutex, mutex', rows[i].tenantId, rows[i].notAfter);
    }
  }

  lemma PcStaysOk(pc: Pc, call: Call, rows: seq<Cert>, steps: seq<Step>, s: Step, mutex: Mutex, mutex': Mutex)
    requires PcOk(pc, call, rows, steps, mutex) && KeysKept(mutex, mutex')
    ensures PcOk(pc, call, rows, steps + [s], mutex')
  {
    hide SeenExpired, KeysKept;
    if pc.Deactivating? { StillSeen(steps, s, mutex, mutex', call.key, rows[pc.expired].notAfter); }
  }

  /** The mutex after a step. */
  lemma MutexAfter(w: World, s: Step, w': World)
    requires MutexOk(w.mutex) && Perform(w, s) == Some(w')
    ensures MutexOk(w'.mutex) && KeysKept(w.mutex, w'.mutex)
  {
    hide MutexOk, Resolved;
    match s
    case Sign(key) => ArriveKeepsOk(w.mutex, key);
    case Begin(t) => EnterKeepsOk(w.mutex, t);
    case Finish(t) => LeaveKeepsOk(w.mutex, t);
    case Fail(t) => LeaveKeepsOk(w.mutex, t);
    case _ =>
  }

  lemma QueueSteps(w: World, steps: seq<Step>, s: Step, w': World)
    requires WorldOk(w, steps) && Perform(w, s) == Some(w') && (s.Sign? || s.Begin? || s.Finish? || s.Fail?)
    ensures WorldOk(w', steps + [s])
  {
    MutexAfter(w, s, w');
    RowsStayOk(w.rows, steps, s, w.mutex, w'.mutex);
    forall t | t in w'.pcs
      ensures t < |w'.mutex.calls| && PcOk(w'.pcs[t], w'.mutex.calls[t], w'.rows, steps + [s], w'.mutex)
    {
      if t in w.pcs && !(s.Begin? && s.call == t) {
        QueueKeepsPc(w, steps, s, w', t);
        PcStaysOk(w.pcs[t], w'.mutex.calls[t], w.rows, steps, s, w.mutex, w'.mutex);
      }
    }
    hide MutexOk, RowsOk, Resolved;
  }

  lemma QueueKeepsPc(w: World, steps: seq<Step>, s: Step, w': World, t: nat)
    requires WorldOk(w, steps) && Perform(w, s) == Some(w') && (s.Sign? || s.Begin? || s.Finish? || s.Fail?)
    requires t in w.pcs && t in w'.pcs && !(s.Begin? && s.call == t)
    ensures t < |w'.mutex.calls| && w'.pcs[t] == w.pcs[t] && w'.rows == w.rows
    ensures PcOk(w.pcs[t], w'.mutex.calls[t], w.rows, steps, w.mutex)
  {
    assert PcOk(w.pcs[t], w.mutex.calls[t], w.rows, steps, w.mutex);
    hide MutexOk, RowsOk, Resolved, SeenExpired;
  }

  /** What the search tells a call. */
  lemma FoundPcOk(w: World, steps: seq<Step>, s: Step, pc: Pc)
    requires WorldOk(w, steps) && s.Find? && IsInside(w, s.call)
    requires var existing := FindActive(w.rows, w.mutex.calls[s.call].key);
             pc == if existing.None? then Inserting(None)
                   else if existing.value.notAfter > s.now then Returned(existing.value.id)
                   else Deactivating(existing.value.id)
    ensures PcOk(pc, w.mutex.calls[s.call], w.rows, steps + [s], w.mutex)
  {
    var key := w.mutex.calls[s.call].key;
    var existing := FindActive(w.rows, key);
    hide FindActive, MutexOk;
    if existing.Some? {
      var i :| 0 <= i < |w.rows| && w.rows[i] == existing.value;
      if existing.value.notAfter <= s.now {
        assert FoundExpired((steps + [s])[|steps|], w.mutex, key, existing.value.notAfter);
      }
      hide SeenExpired;
    } else {
      forall i | 0 <= i < |w.rows| && w.rows[i].tenantId == key ensures !w.rows[i].active {
        assert w.rows[i] in w.rows;
      }
    }
  }

  lemma FindSteps(w: World, steps: seq<Step>, s: Step, w': World)
    requires WorldOk(w, steps) && Perform(w, s) == Some(w') && s.Find?
    ensures WorldOk(w', steps + [s])
  {
    FoundPcOk(w, steps, s, w'.pcs[s.call]);
    RowsStayOk(w.rows, steps, s, w.mutex, w.mutex);
    hide MutexOk, RowsOk, FindActive;
    forall t | t in w'.pcs ensures t < |w.mutex.calls| && PcOk(w'.pcs[t], w.mutex.calls[t], w.rows, steps + [s], w.mutex) {
      if t != s.call { PcStaysOk(w.pcs[t], w.mutex.calls[t], w.rows, steps, s, w.mutex, w.mutex); }
    }
  }

  /** Another call of the same key is not inside, so it has returned or not begun. */
  lemma OthersOfKey(w: World, steps: seq<Step>, t: nat, u: nat)
    requires WorldOk(w, steps) && IsInside(w, t) && u in w.pcs && u != t
    requires w.mutex.calls[u].key == w.mutex.calls[t].key
    ensures w.mutex.calls[u].phase == Done && w.pcs[u].Returned?
  {
    assert PcOk(w.pcs[u], w.mutex.calls[u], w.rows, steps, w.mutex);
    assert EarlierDone(w.mutex, t);
    assert w.mutex.calls[u].phase != Queueing ==> EarlierDone(w.mutex, u);
  }

  /** Rows that differ in one key only are as good for the calls of other keys, and for
      those of the key that have left. */
  lemma OtherKeysPcOk(pc: Pc, call: Call, rows: seq<Cert>, rows': seq<Cert>, steps: seq<Step>, mutex: Mutex, key: string)
    requires PcOk(pc, call, rows, steps, mutex) && |rows| <= |rows'|
    requires forall i :: 0 <= i < |rows| ==> rows'[i].tenantId == rows[i].tenantId
    requires forall i :: 0 <= i < |rows| && rows[i].tenantId != key ==> rows'[i] == rows[i]
    requires forall i :: |rows| <= i < |rows'| ==> rows'[i].tenantId == key
    requires call.key == key ==> call.phase == Done && pc.Returned?
    ensures PcOk(pc, call, rows', steps, mutex)
  {
    hide SeenExpired;
  }

  lemma TurnedOffRowsOk(rows: seq<Cert>, e: nat, steps: seq<Step>, mutex: Mutex)
    requires RowsOk(rows, steps, mutex) && e < |rows| && SeenExpired(steps, mutex, rows[e].tenantId, rows[e].notAfter)
    ensures RowsOk(rows[e := rows[e].(active := false)], steps, mutex)
  {
    hide SeenExpired;
  }

  /** The rows and the call of a row that was turned off. */
  lemma TurnedOff(w: World, steps: seq<Step>, s: Step, w': World)
    requires WorldOk(w, steps) && Perform(w, s) == Some(w') && s.TurnOff?
    ensures var e := w.pcs[s.call].expired;
            && e < |w.rows| && w.rows[e].tenantId == w.mutex.calls[s.call].key
            && w'.rows == w.rows[e := w.rows[e].(active := false)]
            && w'.pcs == w.pcs[s.call := Inserting(Some(e))] && w'.mutex == w.mutex
    ensures RowsOk(w'.rows, steps + [s], w.mutex)
    ensures PcOk(w'.pcs[s.call], w.mutex.calls[s.call], w'.rows, steps + [s], w.mutex)
  {
    var t, e, key := s.call, w.pcs[s.call].expired, w.mutex.calls[s.call].key;
    hide MutexOk, SeenExpired;
    assert PcOk(w.pcs[t], w.mutex.calls[t], w.rows, steps, w.mutex);
    assert forall j :: 0 <= j <= e ==> w.rows[j].id == j;
    DeactivatedIs(w.rows, e, e);
    hide Deactivated;
    OnlyRowIsOff(w.rows, e, steps, w.mutex);
    RowsStayOk(w.rows, steps, s, w.mutex, w.mutex);
    StillSeen(steps, s, w.mutex, w.mutex, key, w.rows[e].notAfter);
    TurnedOffRowsOk(w.rows, e, steps + [s], w.mutex);
    hide RowsOk;
  }

  lemma TurnOffSteps(w: World, steps: seq<Step>, s: Step, w': World)
    requires WorldOk(w, steps) && Perform(w, s) == Some(w') && s.TurnOff?
    ensures WorldOk(w', steps + [s])
  {
    var t, key := s.call, w.mutex.calls[s.call].key;
    TurnedOff(w, steps, s, w');
    hide MutexOk, RowsOk, SeenExpired, Perform;
    forall u | u in w'.pcs && u != t
      ensures u < |w.mutex.calls| && PcOk(w'.pcs[u], w.mutex.calls[u], w'.rows, steps + [s], w.mutex)
    {
      PcStaysOk(w.pcs[u], w.mutex.calls[u], w.rows, steps, s, w.mutex, w.mutex);
      OthersKeepPc(w, steps, s, t, u, w'.rows);
    }
    hide PcOk;
  }

  /** A step of a call that is inside leaves the other calls' counters right, if it changes
      rows of its key only. */
  lemma OthersKeepPc(w: World, steps: seq<Step>, s: Step, t: nat, u: nat, rows': seq<Cert>)
    requires WorldOk(w, steps) && IsInside(w, t) && u in w.pcs && u != t && u < |w.mutex.calls|
    requires PcOk(w.pcs[u], w.mutex.calls[u], w.rows, steps + [s], w.mutex) && |w.rows| <= |rows'|
    requires forall i :: 0 <= i < |w.rows| ==> rows'[i].tenantId == w.rows[i].tenantId
    requires forall i :: 0 <= i < |w.rows| && w.rows[i].tenantId != w.mutex.calls[t].key ==> rows'[i] == w.rows[i]
    requires forall i :: |w.rows| <= i < |rows'| ==> rows'[i].tenantId == w.mutex.calls[t].key
    ensures PcOk(w.pcs[u], w.mutex.calls[u], rows', steps + [s], w.mutex)
  {
    hide WorldOk, PcOk;
    if w.mutex.calls[u].key == w.mutex.calls[t].key { OthersOfKey(w, steps, t, u); }
    OtherKeysPcOk(w.pcs[u], w.mutex.calls[u], w.rows, rows', steps + [s], w.mutex, w.mutex.calls[t].key);
  }

  lemma OnlyRowIsOff(rows: seq<Cert>, e: nat, steps: seq<Step>, mutex: Mutex)
    requires RowsOk(rows, steps, mutex) && e < |rows| && rows[e].active
    ensures forall i :: 0 <= i < |rows| && i != e && rows[i].tenantId == rows[e].tenantId ==> !rows[i].active
  {
    hide SeenExpired;
  }

  lemma MintedRows(rows: seq<Cert>, cert: Cert)
    requires cert.active && forall i :: 0 <= i < |rows| && rows[i].tenantId == cert.tenantId ==> !rows[i].active
    ensures Inserted(rows, cert) == rows + [cert]
  {
    assert DeactivateTenant(rows, cert.tenantId) == rows;
  }

  /** The rows and the call of a mint. */
  lemma Minted(w: World, steps: seq<Step>, s: Step, w': World)
    requires WorldOk(w, steps) && Perform(w, s) == Some(w') && s.Mint?
    ensures var cert := Cert(|w.rows|, w.mutex.calls[s.call].key, true, s.notAfter, w.pcs[s.call].rotated);
            w'.rows == w.rows + [cert] && w'.pcs == w.pcs[s.call := Returned(cert.id)] && w'.mutex == w.mutex
    ensures RowsOk(w'.rows, steps + [s], w.mutex)
    ensures PcOk(w'.pcs[s.call], w.mutex.calls[s.call], w'.rows, steps + [s], w.mutex)
  {
    var t, key := s.call, w.mutex.calls[s.call].key;
    hide MutexOk, SeenExpired;
    assert PcOk(w.pcs[t], w.mutex.calls[t], w.rows, steps, w.mutex);
    MintedRows(w.rows, Cert(|w.rows|, key, true, s.notAfter, w.pcs[t].rotated));
    RowsStayOk(w.rows, steps, s, w.mutex, w.mutex);
    hide Inserted;
  }

  /** Only the call that is inside can mint for its key, and it has no active row then. */
  lemma MintSteps(w: World, steps: seq<Step>, s: Step, w': World)
    requires WorldOk(w, steps) && Perform(w, s) == Some(w') && s.Mint?
    ensures WorldOk(w', steps + [s])
  {
    var t := s.call;
    Minted(w, steps, s, w');
    hide MutexOk, RowsOk, SeenExpired, Perform;
    forall u | u in w'.pcs && u != t
      ensures u < |w.mutex.calls| && PcOk(w'.pcs[u], w.mutex.calls[u], w'.rows, steps + [s], w.mutex)
    {
      PcStaysOk(w.pcs[u], w.mutex.calls[u], w.rows, steps, s, w.mutex, w.mutex);
      OthersKeepPc(w, steps, s, t, u, w'.rows);
    }
    hide PcOk;
  }

  lemma {:induction false} RunIsOk(steps: seq<Step>)
    requires Run(steps).Some?
    ensures WorldOk(Run(steps).value, steps)
  {
    if steps != [] {
      var before, s := steps[..|steps| - 1], steps[|steps| - 1];
      RunIsOk(before);
      var w, w' := Run(before).value, Run(steps).value;
      assert steps == before + [s];
      match s
      case Find(_, _) => FindSteps(w, before, s, w');
      case Mint(_, _) => MintSteps(w, before, s, w');
      case TurnOff(_) => TurnOffSteps(w, before, s, w');
      case _ => QueueSteps(w, before, s, w');
    }
  }

  /** One mint per expiry, however many calls race: of two certificates of a key the older
      one is inactive, and some call of the key had seen it expired. */
  lemma OneMintPerExpiry(steps: seq<Step>, i: nat, j: nat)
    requires Run(steps).Some? && i < j < |Run(steps).value.rows|
    requires Run(steps).value.rows[i].tenantId == Run(steps).value.rows[j].tenantId
    ensures var w := Run(steps).value;
            !w.rows[i].active && SeenExpired(steps, w.mutex, w.rows[i].tenantId, w.rows[i].notAfter)
  {
    RunIsOk(steps);
    hide Run, MutexOk;
  }

  /** What a call inside the mutex is about to return is its key's active certificate, and
      stays so until the call leaves. */
  lemma ReturnedIsActive(steps: seq<Step>, t: nat)
    requires Run(steps).Some? && IsInside(Run(steps).value, t) && Run(steps).value.pcs[t].Returned?
    ensures var w := Run(steps).value;
            && w.pcs[t].cert < |w.rows|
            && FindActive(w.rows, w.mutex.calls[t].key) == Some(w.rows[w.pcs[t].cert])
  {
    RunIsOk(steps);
    var w := Run(steps).value;
    hide Run;
    assert PcOk(w.pcs[t], w.mutex.calls[t], w.rows, steps, w.mutex);
    OnlyActiveIsFound(w.rows, w.mutex.calls[t].key, w.pcs[t].cert);
  }

  /** However many calls race, those of a key return the same certificate, unless some call
      of the key has seen the older of the two expired. */
  lemma OneCertificatePerKey(steps: seq<Step>, t: nat, u: nat)
    requires Run(steps).Some? && t in Run(steps).value.pcs && u in Run(steps).value.pcs
    requires var w := Run(steps).value;
             t < |w.mutex.calls| && u < |w.mutex.calls| && w.mutex.calls[t].key == w.mutex.calls[u].key
             && w.pcs[t].Returned? && w.pcs[u].Returned?
    ensures var w := Run(steps).value; var key := w.mutex.calls[t].key;
            && w.pcs[t].cert < |w.rows| && w.pcs[u].cert < |w.rows|
            && (w.pcs[t].cert < w.pcs[u].cert ==> SeenExpired(steps, w.mutex, key, w.rows[w.pcs[t].cert].notAfter))
            && (w.pcs[u].cert < w.pcs[t].cert ==> SeenExpired(steps, w.mutex, key, w.rows[w.pcs[u].cert].notAfter))
  {
    RunIsOk(steps);
    var w := Run(steps).value;
    assert PcOk(w.pcs[t], w.mutex.calls[t], w.rows, steps, w.mutex) && PcOk(w.pcs[u], w.mutex.calls[u], w.rows, steps, w.mutex);
    hide Run, MutexOk, SeenExpired;
  }
}
