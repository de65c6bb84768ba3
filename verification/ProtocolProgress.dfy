/** That the protocol gets anywhere: a worker that keeps its lease and whose driver answers
    can always finish a provisioning or a compensation, from wherever crashes and other
    processes left the records (infra/provisioning/src/orchestrator.ts:602-787). */
module ProtocolProgress {
  import opened Domain
  import opened Jobs
  import opened Store
  import opened Protocol

  /** What a worker sees and where it stands, and the steps for which it called its driver. */
  datatype Local = Local(shard: Shard, secrets: set<Publication>, pc: Pc, calls: seq<Step>)

  function LocalOp(l: Local, op: SharedOp): Local {
    match op
    case SetJob(job) => l.(shard := l.shard.(job := Some(job)))
    case SetLease(lease) => l.(shard := l.shard.(lease := lease))
    case SetPointer(p) => l.(shard := l.shard.(handoffs := l.shard.handoffs[p.handoffId := p]))
    case SetResource(r) => l.(shard := l.shard.(resources := l.shard.resources[r.resourceKey := r]))
    case CreateSecret(s) => l.(secrets := l.secrets + {s})
    case Execute(_, step) => l.(calls := l.calls + [step])
    case Compensate(_, step) => l.(calls := l.calls + [step])
    case _ => l
  }

  /** One step of the worker, if it goes on. */
  function LocalStep(cfg: Config, p: Process, l: Local, c: Choice): Option<Local> {
    var m := Plan(cfg, l.shard, l.secrets, At(p, l.pc), c);
    if m.None? || !m.value.next.Goto? || m.value.op.SetOrder? then None
    else Some(LocalOp(l, m.value.op).(pc := m.value.next.pc))
  }

  function LocalRun(cfg: Config, p: Process, l: Local, choices: seq<Choice>): Option<Local>
    decreases |choices|
  {
    if choices == [] then Some(l)
    else
      var next := LocalStep(cfg, p, l, choices[0]);
      if next.None? then None else LocalRun(cfg, p, next.value, choices[1..])
  }

  /** A run to `l'` exists. */
  ghost predicate Gets(cfg: Config, p: Process, l: Local, l': Local) {
    exists choices :: LocalRun(cfg, p, l, choices) == Some(l')
  }

  lemma {:induction false} RunsJoin(cfg: Config, p: Process, l: Local, xs: seq<Choice>, ys: seq<Choice>)
    requires LocalRun(cfg, p, l, xs).Some?
    ensures LocalRun(cfg, p, l, xs + ys) == LocalRun(cfg, p, LocalRun(cfg, p, l, xs).value, ys)
    decreases |xs|
  {
    hide LocalStep;
    if xs == [] {
      assert xs + ys == ys;
    } else {
      assert (xs + ys)[1..] == xs[1..] + ys;
      RunsJoin(cfg, p, LocalStep(cfg, p, l, xs[0]).value, xs[1..], ys);
    }
  }

  lemma GetsOn(cfg: Config, p: Process, a: Local, b: Local, c: Local)
    requires Gets(cfg, p, a, b) && Gets(cfg, p, b, c)
    ensures Gets(cfg, p, a, c)
  {
    hide LocalRun;
    var xs :| LocalRun(cfg, p, a, xs) == Some(b);
    var ys :| LocalRun(cfg, p, b, ys) == Some(c);
    RunsJoin(cfg, p, a, xs, ys);
  }

  lemma GetsStep(cfg: Config, p: Process, l: Local, c: Choice, l': Local)
    requires LocalStep(cfg, p, l, c) == Some(l')
    ensures Gets(cfg, p, l, l')
  {
    assert LocalRun(cfg, p, l', [c][1..]) == Some(l');
    assert LocalRun(cfg, p, l, [c]) == Some(l');
  }

  lemma GetsNowhere(cfg: Config, p: Process, l: Local)
    ensures Gets(cfg, p, l, l)
  {
    assert LocalRun(cfg, p, l, []) == Some(l);
  }

  /** Two steps, or one and a run. */
  lemma GetsThen(cfg: Config, p: Process, a: Local, c: Choice, b: Local, d: Local)
    requires LocalStep(cfg, p, a, c) == Some(b) && Gets(cfg, p, b, d)
    ensures Gets(cfg, p, a, d)
  {
    hide LocalStep, LocalRun;
    GetsStep(cfg, p, a, c, b);
    GetsOn(cfg, p, a, b, d);
  }

  // ---------------------------------------------------------------------------
  // The lease
  // ---------------------------------------------------------------------------

  /** The worker holds the lease at its clock reading, and may ask for more time. */
  predicate Keeps(sh: Shard, p: Process, at: int, d: int) {
    && p.Worker? && sh.lease.Some?
    && sh.lease.value.ownerId == p.lease.ownerId && sh.lease.value.fencingToken == p.lease.fencingToken
    && sh.lease.value.expiresAt > at && at >= 0 && d >= 1 && at + d <= MAX_SAFE_INTEGER
    && p.lease.subscriptionId != "" && p.lease.ownerId != ""
  }

  function Renewed(sh: Shard, at: int, d: int): Shard {
    if sh.lease.Some? then sh.(lease := Some(sh.lease.value.(expiresAt := at + d))) else sh
  }

  lemma RenewedKeeps(sh: Shard, p: Process, at: int, d: int)
    requires Keeps(sh, p, at, d)
    ensures Keeps(Renewed(sh, at, d), p, at, d) && Renewed(Renewed(sh, at, d), at, d) == Renewed(sh, at, d)
    ensures SameHolder(sh.lease, p.lease) && IsActiveLease(sh.lease, p.lease, at)
    ensures forall h: map<HandoffId, Pointer>, r: map<ResourceKey, Resource>, j: Option<Job> ::
              Keeps(sh.(handoffs := h, resources := r, job := j), p, at, d)
  {
  }

  lemma FenceRenews(sh: Shard, p: Process, pc: Pc, at: int, d: int)
    requires Keeps(sh, p, at, d)
    ensures Owned(sh, p, Clock(at, d), pc) == Some(Move(SetLease(Renewed(sh, at, d).lease), Goto(pc)))
  {
  }

  // ---------------------------------------------------------------------------
  // One provisioning step
  // ---------------------------------------------------------------------------

  function AtStep(l: Local, job: Job, s: StepPc): Local {
    l.(pc := Steps(job, s))
  }

  /** A sequence that lists the records. */
  lemma {:induction false} AnyListing(resources: map<ResourceKey, Resource>) returns (listed: seq<Resource>)
    requires forall k :: k in resources ==> resources[k].resourceKey == k
    ensures forall r :: r in listed ==> r.resourceKey in resources && resources[r.resourceKey] == r
    ensures forall k :: k in resources ==> resources[k] in listed
    ensures forall i, j :: 0 <= i < j < |listed| ==> listed[i].resourceKey != listed[j].resourceKey
    decreases |resources|
  {
    if resources == map[] {
      listed := [];
    } else {
      var k :| k in resources;
      var rest := AnyListing(resources - {k});
      listed := rest + [resources[k]];
      forall q | q in resources ensures resources[q] in listed {
        if q != k { assert q in resources - {k} && (resources - {k})[q] in rest; }
      }
    }
  }

  lemma ListingIsListing(cfg: Config, sh: Shard) returns (listed: seq<Resource>)
    requires forall k :: k in sh.resources ==> sh.resources[k].resourceKey == k
    ensures ListsShard(listed, sh, cfg.sub)
    ensures forall k :: k in sh.resources ==> sh.resources[k] in listed
    ensures forall i, j :: 0 <= i < j < |listed| ==> listed[i].resourceKey != listed[j].resourceKey
  {
    listed := AnyListing(sh.resources);
  }

  /** From the head of the loop to the first decision. */
  lemma StepHead(cfg: Config, p: Process, l: Local, job: Job, listed: seq<Resource>, at: int, d: int)
    requires l.pc == Steps(job, StepOwned) && Keeps(l.shard, p, at, d) && p.hasHandoff
    requires ListsShard(listed, l.shard, cfg.sub)
    ensures var l' := l.(shard := Renewed(l.shard, at, d));
            Gets(cfg, p, l, AtStep(l', job, if NeedsHandoff(cfg, job) then StepGetPointer else StepExecute(NotNeeded)))
  {
    hide NeedsHandoff;
    var l' := l.(shard := Renewed(l.shard, at, d));
    FenceRenews(l.shard, p, Steps(job, StepList), at, d);
    assert LocalStep(cfg, p, l, Clock(at, d)) == Some(AtStep(l', job, StepList)) by { hide ListsShard, Owned; }
    assert ListsShard(listed, l'.shard, cfg.sub);
    hide ListsShard;
    GetsStep(cfg, p, AtStep(l', job, StepList), Listing(listed),
             AtStep(l', job, if NeedsHandoff(cfg, job) then StepGetPointer else StepExecute(NotNeeded)));
    GetsThen(cfg, p, l, Clock(at, d), AtStep(l', job, StepList),
             AtStep(l', job, if NeedsHandoff(cfg, job) then StepGetPointer else StepExecute(NotNeeded)));
  }

  /** The call of the driver, up to what it returned. */
  lemma StepCall(cfg: Config, p: Process, l: Local, job: Job, prepared: Prepared, credential: Option<string>, at: int, d: int)
    requires l.pc == Steps(job, StepExecute(prepared)) && Keeps(l.shard, p, at, d) && Renewed(l.shard, at, d) == l.shard
    ensures Gets(cfg, p, l, AtStep(l.(calls := l.calls + [StepOf(job)]), job, StepPersist(prepared, [], credential)))
  {
    hide StepOf;
    RenewedKeeps(l.shard, p, at, d);
    var called := AtStep(l.(calls := l.calls + [StepOf(job)]), job, StepExecuted(prepared, [], credential));
    assert LocalStep(cfg, p, l, Returned([], credential, [])) == Some(called);
    FenceRenews(l.shard, p, Steps(job, StepPersist(prepared, [], credential)), at, d);
    assert l.shard.(lease := l.shard.lease) == l.shard;
    GetsStep(cfg, p, called, Clock(at, d), AtStep(called, job, StepPersist(prepared, [], credential)));
    hide LocalStep;
    GetsThen(cfg, p, l, Returned([], credential, []), called, AtStep(called, job, StepPersist(prepared, [], credential)));
  }

  /** From the end of the step to the head of the next. */
  lemma StepTail(cfg: Config, p: Process, l: Local, job: Job, next: Job, at: int, d: int)
    requires l.pc == Steps(job, StepDoneOwned) && Keeps(l.shard, p, at, d) && Renewed(l.shard, at, d) == l.shard
    requires l.shard.job == Some(job) && job.jobId == JobId(job.subscriptionId)
    requires CompleteProvisioningStep(job, StepOf(job)) == Ok(next) && next.version == job.version
    requires next.jobId == job.jobId && next.subscriptionId == job.subscriptionId
    ensures var stored := next.(version := job.version + 1);
            Gets(cfg, p, l, l.(shard := l.shard.(job := Some(stored)),
                               pc := if IsStepJob(stored) then Steps(stored, StepOwned) else Outside(Releasing)))
  {
    hide CompleteProvisioningStep, StepOf, IsStepJob;
    FenceRenews(l.shard, p, Steps(job, StepCheckpoint), at, d);
    assert l.shard.(lease := l.shard.lease) == l.shard;
    assert LocalStep(cfg, p, l, Clock(at, d)) == Some(AtStep(l, job, StepCheckpoint));
    var stored := next.(version := job.version + 1);
    var l' := l.(shard := l.shard.(job := Some(stored)),
                 pc := if IsStepJob(stored) then Steps(stored, StepOwned) else Outside(Releasing));
    assert LocalStep(cfg, p, AtStep(l, job, StepCheckpoint), Go) == Some(l');
    hide LocalStep;
    GetsStep(cfg, p, AtStep(l, job, StepCheckpoint), Go, l');
    GetsThen(cfg, p, l, Clock(at, d), AtStep(l, job, StepCheckpoint), l');
  }

  /** A step without a handoff. */
  lemma PlainStepFinishes(cfg: Config, p: Process, l: Local, job: Job, at: int, d: int)
    requires l.pc == Steps(job, StepExecute(NotNeeded)) && !NeedsHandoff(cfg, job)
    requires Keeps(l.shard, p, at, d) && Renewed(l.shard, at, d) == l.shard
    ensures Gets(cfg, p, l, AtStep(l.(calls := l.calls + [StepOf(job)]), job, StepDoneOwned))
  {
    hide StepOf;
    StepCall(cfg, p, l, job, NotNeeded, None, at, d);
    var called := AtStep(l.(calls := l.calls + [StepOf(job)]), job, StepPersist(NotNeeded, [], None));
    hide NeedsHandoff;
    GetsStep(cfg, p, called, Go, AtStep(called, job, StepDoneOwned));
    hide LocalStep;
    GetsOn(cfg, p, l, called, AtStep(called, job, StepDoneOwned));
  }

  // ---------------------------------------------------------------------------
  // The credential
  // ---------------------------------------------------------------------------

  function WithPointer(l: Local, pointer: Pointer): Local {
    l.(shard := l.shard.(handoffs := l.shard.handoffs[pointer.handoffId := pointer]))
  }

  function WithReceipt(l: Local, job: Job): Local {
    l.(shard := l.shard.(resources := l.shard.resources[Receipt(job).resourceKey := Receipt(job)]))
  }

  /** The records leave room for a handoff: the activation's pointer, if there is one, is the
      job's and is not revoked, and so is the place of the receipt. */
  predicate HandoffIsOpen(sh: Shard, p: Process, job: Job) {
    && p.Worker? && p.lease.subscriptionId == job.subscriptionId
    && (HandoffOf(job) in sh.handoffs ==>
          PointerMatchesJob(sh.handoffs[HandoffOf(job)], job) && sh.handoffs[HandoffOf(job)].state != Revoked)
    && var k := Receipt(job).resourceKey;
       k in sh.resources ==> KeyOf(sh.resources[k]) == k && sh.resources[k].retention == Mutable
  }

  lemma ReceiptIsStored(sh: Shard, p: Process, job: Job, pc: Pc)
    requires HandoffIsOpen(sh, p, job)
    ensures PutRecord(sh, job, Receipt(job), pc) == Some(Move(SetResource(Receipt(job)), Goto(pc)))
  {
  }

  /** Nothing usable was published: a new generation begins. */
  lemma HandoffBegins(cfg: Config, p: Process, l: Local, job: Job, at: int, d: int) returns (next: Pointer)
    requires l.pc == Steps(job, StepGetPointer) && Keeps(l.shard, p, at, d) && HandoffIsOpen(l.shard, p, job)
    requires HandoffOf(job) in l.shard.handoffs && l.shard.handoffs[HandoffOf(job)].publication.Some? ==>
               l.shard.handoffs[HandoffOf(job)].publication.value !in l.secrets
    ensures PointerMatchesJob(next, job) && next.state == PendingPublication && next.publication == None
    ensures Gets(cfg, p, l, AtStep(WithPointer(l, next), job, StepExecute(Fresh(next))))
  {
    var seen := CurrentPointer(l.shard, job);
    next := NewPointer(p, job, seen);
    var begins := AtStep(l, job, StepBeginHandoff(seen));
    var begun := AtStep(WithPointer(l, next), job, StepExecute(Fresh(next)));
    RenewedKeeps(l.shard, p, at, d);
    GetsStep(cfg, p, begins, Clock(at, d), begun);
    if seen.Some? && seen.value.publication.Some? {
      var verifies := AtStep(l, job, StepVerify(seen.value));
      GetsThen(cfg, p, verifies, Go, begins, begun);
      GetsThen(cfg, p, l, Go, verifies, begun);
    } else {
      GetsThen(cfg, p, l, Go, begins, begun);
    }
  }

  lemma BindStep(cfg: Config, p: Process, l: Local, job: Job, pointer: Pointer, id: string, at: int, d: int)
    requires l.pc == Steps(job, StepBind(pointer, id)) && Keeps(l.shard, p, at, d)
    requires pointer.handoffId in l.shard.handoffs && l.shard.handoffs[pointer.handoffId] == pointer
    requires pointer.state == PendingPublication && pointer.publication == None
    ensures var bound := pointer.(publication := Some(
              Publication(pointer.handoffId, pointer.publicationGeneration, pointer.fencingToken, id)));
            LocalStep(cfg, p, l, Clock(at, d)) == Some(AtStep(WithPointer(l, bound), job, StepCreateSecret(bound)))
  {
    RenewedKeeps(l.shard, p, at, d);
  }

  lemma PublishStep(cfg: Config, p: Process, l: Local, job: Job, bound: Pointer, at: int, d: int)
    requires (l.pc == Steps(job, StepPublish(bound)) || l.pc == Steps(job, StepPublishVerified(bound))) && Keeps(l.shard, p, at, d)
    requires bound.handoffId in l.shard.handoffs && l.shard.handoffs[bound.handoffId] == bound
    requires bound.state == PendingPublication && bound.publication.Some?
    ensures LocalStep(cfg, p, l, Clock(at, d))
         == Some(AtStep(WithPointer(l, bound.(state := Published)), job,
                        if l.pc.s.StepPublish? then StepReceipt else StepReceiptVerified))
  {
    RenewedKeeps(l.shard, p, at, d);
  }

  lemma ReceiptStep(cfg: Config, p: Process, l: Local, job: Job)
    requires (l.pc == Steps(job, StepReceipt) || l.pc == Steps(job, StepReceiptVerified)) && HandoffIsOpen(l.shard, p, job)
    ensures LocalStep(cfg, p, l, Go)
         == Some(AtStep(WithReceipt(l, job), job, if l.pc.s.StepReceipt? then StepDoneOwned else StepExecute(AlreadyPublished)))
  {
    var pc := if l.pc.s.StepReceipt? then Steps(job, StepDoneOwned) else Steps(job, StepExecute(AlreadyPublished));
    ReceiptIsStored(l.shard, p, job, pc);
    hide Receipt, DecidePutResource, HandoffIsOpen;
  }

  lemma PointerStaysOpen(sh: Shard, p: Process, job: Job, pointer: Pointer)
    requires HandoffIsOpen(sh, p, job) && pointer.handoffId == HandoffOf(job)
    requires PointerMatchesJob(pointer, job) && pointer.state != Revoked
    ensures HandoffIsOpen(sh.(handoffs := sh.handoffs[pointer.handoffId := pointer]), p, job)
  {
  }

  lemma SecretIsStored(cfg: Config, p: Process, l: Local, job: Job, next: Pointer, id: string, at: int, d: int)
    requires l.pc == Steps(job, StepPersist(Fresh(next), [], Some(id))) && NeedsHandoff(cfg, job) && Keeps(l.shard, p, at, d)
    requires next.handoffId in l.shard.handoffs && l.shard.handoffs[next.handoffId] == next
    requires next.state == PendingPublication && next.publication == None
    ensures var secret := Publication(next.handoffId, next.publicationGeneration, next.fencingToken, id);
            var bound := next.(publication := Some(secret));
            Gets(cfg, p, l, AtStep(WithPointer(l.(secrets := l.secrets + {secret}), bound), job, StepPublish(bound)))
  {
    var secret := Publication(next.handoffId, next.publicationGeneration, next.fencingToken, id);
    var bound := next.(publication := Some(secret));
    var a := AtStep(l, job, StepBind(next, id));
    var b := AtStep(WithPointer(l, bound), job, StepCreateSecret(bound));
    var c := AtStep(WithPointer(l.(secrets := l.secrets + {secret}), bound), job, StepPublish(bound));
    assert LocalStep(cfg, p, l, Go) == Some(a) by { hide NeedsHandoff; }
    assert LocalStep(cfg, p, b, Go) == Some(c);
    hide LocalStep, NeedsHandoff, StepOf;
    BindStep(cfg, p, a, job, next, id, at, d);
    hide Keeps;
    GetsStep(cfg, p, b, Go, c);
    GetsThen(cfg, p, a, Clock(at, d), b, c);
    GetsThen(cfg, p, l, Go, a, c);
  }

  /** Once the driver has made a credential, it is bound, stored, published and noted. */
  lemma CredentialIsPublished(cfg: Config, p: Process, l: Local, job: Job, next: Pointer, id: string, at: int, d: int)
    requires l.pc == Steps(job, StepPersist(Fresh(next), [], Some(id))) && NeedsHandoff(cfg, job)
    requires Keeps(l.shard, p, at, d) && HandoffIsOpen(l.shard, p, job)
    requires next.handoffId == HandoffOf(job) && next.handoffId in l.shard.handoffs && l.shard.handoffs[next.handoffId] == next
    requires next.state == PendingPublication && next.publication == None
    ensures var secret := Publication(next.handoffId, next.publicationGeneration, next.fencingToken, id);
            var published := next.(publication := Some(secret), state := Published);
            Gets(cfg, p, l, AtStep(WithReceipt(WithPointer(l.(secrets := l.secrets + {secret}), published), job), job, StepDoneOwned))
  {
    hide LocalStep, LocalRun, Gets, NeedsHandoff, StepOf, Receipt;
    var secret := Publication(next.handoffId, next.publicationGeneration, next.fencingToken, id);
    var bound := next.(publication := Some(secret));
    var published := bound.(state := Published);
    var c := AtStep(WithPointer(l.(secrets := l.secrets + {secret}), bound), job, StepPublish(bound));
    var e := AtStep(WithPointer(l.(secrets := l.secrets + {secret}), published), job, StepReceipt);
    var f := AtStep(WithReceipt(e, job), job, StepDoneOwned);
    SecretIsStored(cfg, p, l, job, next, id, at, d);
    assert WithPointer(c, published).shard.handoffs == e.shard.handoffs;
    PointerStaysOpen(l.shard, p, job, published);
    PublishStep(cfg, p, c, job, bound, at, d);
    ReceiptStep(cfg, p, e, job);
    hide HandoffIsOpen, PointerMatchesJob, Keeps;
    GetsStep(cfg, p, e, Go, f);
    GetsThen(cfg, p, c, Clock(at, d), e, f);
    GetsOn(cfg, p, l, c, f);
  }

  /** A secret that a crashed run had stored is found, published if it was not, and noted; the
      driver makes no second credential. */
  lemma HandoffIsTakenUp(cfg: Config, p: Process, l: Local, job: Job, at: int, d: int)
    requires l.pc == Steps(job, StepGetPointer) && Keeps(l.shard, p, at, d) && HandoffIsOpen(l.shard, p, job)
    requires HandoffOf(job) in l.shard.handoffs && l.shard.handoffs[HandoffOf(job)].publication.Some?
    requires l.shard.handoffs[HandoffOf(job)].publication.value in l.secrets
    ensures var published := l.shard.handoffs[HandoffOf(job)].(state := Published);
            Gets(cfg, p, l, AtStep(WithReceipt(WithPointer(l, published), job), job, StepExecute(AlreadyPublished)))
  {
    var pointer := l.shard.handoffs[HandoffOf(job)];
    var published := pointer.(state := Published);
    var a := AtStep(l, job, StepVerify(pointer));
    var b := AtStep(l, job, StepPublishVerified(pointer));
    var c := AtStep(WithPointer(l, published), job, StepReceiptVerified);
    var e := AtStep(WithReceipt(c, job), job, StepExecute(AlreadyPublished));
    assert LocalStep(cfg, p, l, Go) == Some(a);
    assert pointer.state == PendingPublication ==> LocalStep(cfg, p, a, Go) == Some(b);
    assert pointer.state == Published ==> l.shard.handoffs[pointer.handoffId := published] == l.shard.handoffs;
    assert pointer.state == Published ==> LocalStep(cfg, p, a, Go) == Some(c);
    PointerStaysOpen(l.shard, p, job, published);
    hide LocalStep;
    ReceiptStep(cfg, p, c, job);
    if pointer.state == PendingPublication { PublishStep(cfg, p, b, job, pointer, at, d); }
    hide HandoffIsOpen, Receipt, PointerMatchesJob, Keeps;
    GetsStep(cfg, p, c, Go, e);
    if pointer.state == PendingPublication {
      GetsThen(cfg, p, b, Clock(at, d), c, e);
      GetsThen(cfg, p, a, Go, b, e);
    } else {
      GetsThen(cfg, p, a, Go, c, e);
    }
    GetsThen(cfg, p, l, Go, a, e);
  }

  // ---------------------------------------------------------------------------
  // All steps
  // ---------------------------------------------------------------------------

  ghost predicate KeysAreFiled(resources: map<ResourceKey, Resource>) {
    forall k :: k in resources ==> resources[k].resourceKey == k == KeyOf(resources[k])
  }

  function ReceiptKey(job: Job): ResourceKey {
    ResourceKey(job.subscriptionId, ApiCredential, "credential_handoff_receipt", ReceiptOf(HandoffOf(job)))
  }

  /** An active receipt of the activation. */
  predicate HasReceipt(resources: map<ResourceKey, Resource>, job: Job) {
    var k := ReceiptKey(job);
    k in resources && resources[k] == Resource(k, k.subscriptionId, k.step, k.kind, k.opaqueId, Mutable, ActiveResource)
  }

  lemma ReceiptIsThere(l: Local, job: Job)
    ensures HasReceipt(WithReceipt(l, job).shard.resources, job)
  {
  }

  /** The credential of the activation is published, its secret exists, and there is a receipt. */
  predicate IsHandedOver(l: Local, job: Job) {
    && HasReceipt(l.shard.resources, job)
    && HandoffOf(job) in l.shard.handoffs
    && l.shard.handoffs[HandoffOf(job)].state == Published && l.shard.handoffs[HandoffOf(job)].publication.Some?
    && l.shard.handoffs[HandoffOf(job)].publication.value in l.secrets
  }

  /** The worker may go on with this job. */
  ghost predicate MayGoOn(l: Local, p: Process, job: Job, at: int, d: int) {
    && Keeps(l.shard, p, at, d) && p.hasHandoff && HandoffIsOpen(l.shard, p, job) && KeysAreFiled(l.shard.resources)
    && l.shard.job == Some(job)
  }

  lemma ReceiptKeepsOpen(l: Local, p: Process, job: Job, pointer: Pointer, at: int, d: int)
    requires MayGoOn(l, p, job, at, d) && pointer.handoffId == HandoffOf(job) && PointerMatchesJob(pointer, job) && pointer.state != Revoked
    ensures MayGoOn(WithReceipt(WithPointer(l, pointer), job), p, job, at, d)
    ensures MayGoOn(WithPointer(l, pointer), p, job, at, d)
  {
  }

  lemma StepMayGoOn(l: Local, p: Process, job: Job, at: int, d: int)
    requires MayGoOn(l, p, job, at, d)
    ensures MayGoOn(l.(shard := Renewed(l.shard, at, d)), p, job, at, d)
    ensures Renewed(Renewed(l.shard, at, d), at, d) == Renewed(l.shard, at, d)
  {
  }

  lemma PersistedStepIsDone(cfg: Config, p: Process, l: Local, job: Job)
    requires p.Worker? && l.pc == Steps(job, StepPersist(AlreadyPublished, [], None)) && NeedsHandoff(cfg, job)
    ensures LocalStep(cfg, p, l, Go) == Some(AtStep(l, job, StepDoneOwned))
  {
    hide NeedsHandoff, StepOf;
  }

  /** Where the credential step ends. */
  ghost predicate StepEnds(cfg: Config, p: Process, l: Local, job: Job, at: int, d: int, l': Local) {
    && Gets(cfg, p, l, l') && l'.pc == Steps(job, StepDoneOwned) && l'.calls == l.calls + [StepOf(job)]
    && MayGoOn(l', p, job, at, d) && Renewed(l'.shard, at, d) == l'.shard
  }

  lemma TakenUpStepFinishes(cfg: Config, p: Process, l: Local, job: Job, at: int, d: int) returns (l': Local)
    requires l.pc == Steps(job, StepGetPointer) && NeedsHandoff(cfg, job) && MayGoOn(l, p, job, at, d)
    requires Renewed(l.shard, at, d) == l.shard
    requires var h := HandoffOf(job);
             h in l.shard.handoffs && l.shard.handoffs[h].publication.Some? && l.shard.handoffs[h].publication.value in l.secrets
    ensures StepEnds(cfg, p, l, job, at, d, l') && IsHandedOver(l', job)
  {
    hide LocalStep, Gets, NeedsHandoff, StepOf, Receipt;
    var published := l.shard.handoffs[HandoffOf(job)].(state := Published);
    var e := AtStep(WithReceipt(WithPointer(l, published), job), job, StepExecute(AlreadyPublished));
    HandoffIsTakenUp(cfg, p, l, job, at, d);
    ReceiptKeepsOpen(l, p, job, published, at, d);
    StepCall(cfg, p, e, job, AlreadyPublished, None, at, d);
    var called := AtStep(e.(calls := e.calls + [StepOf(job)]), job, StepPersist(AlreadyPublished, [], None));
    l' := AtStep(called, job, StepDoneOwned);
    PersistedStepIsDone(cfg, p, called, job);
    ReceiptIsThere(WithPointer(l, published), job);
    GetsStep(cfg, p, called, Go, l');
    GetsOn(cfg, p, e, called, l');
    GetsOn(cfg, p, l, e, l');
  }

  lemma NewStepFinishes(cfg: Config, p: Process, l: Local, job: Job, at: int, d: int) returns (l': Local)
    requires l.pc == Steps(job, StepGetPointer) && NeedsHandoff(cfg, job) && MayGoOn(l, p, job, at, d)
    requires Renewed(l.shard, at, d) == l.shard
    requires var h := HandoffOf(job);
             !(h in l.shard.handoffs && l.shard.handoffs[h].publication.Some? && l.shard.handoffs[h].publication.value in l.secrets)
    ensures StepEnds(cfg, p, l, job, at, d, l') && IsHandedOver(l', job)
  {
    hide LocalStep, Gets, NeedsHandoff, StepOf, Receipt;
    var next := HandoffBegins(cfg, p, l, job, at, d);
    ReceiptKeepsOpen(l, p, job, next, at, d);
    var e := AtStep(WithPointer(l, next), job, StepExecute(Fresh(next)));
    StepCall(cfg, p, e, job, Fresh(next), Some("credential"), at, d);
    var called := AtStep(e.(calls := e.calls + [StepOf(job)]), job, StepPersist(Fresh(next), [], Some("credential")));
    var secret := Publication(next.handoffId, next.publicationGeneration, next.fencingToken, "credential");
    var published := next.(publication := Some(secret), state := Published);
    CredentialIsPublished(cfg, p, called, job, next, "credential", at, d);
    l' := AtStep(WithReceipt(WithPointer(called.(secrets := called.secrets + {secret}), published), job), job, StepDoneOwned);
    ReceiptKeepsOpen(called.(secrets := called.secrets + {secret}), p, job, published, at, d);
    ReceiptIsThere(WithPointer(called.(secrets := called.secrets + {secret}), published), job);
    GetsOn(cfg, p, e, called, l');
    GetsOn(cfg, p, l, e, l');
  }

  /** One provisioning step, whatever it is and wherever its handoff was left. */
  lemma StepFinishes(cfg: Config, p: Process, l: Local, job: Job, at: int, d: int) returns (l': Local)
    requires l.pc == Steps(job, StepOwned) && MayGoOn(l, p, job, at, d) && cfg.sub == job.subscriptionId
    ensures StepEnds(cfg, p, l, job, at, d, l')
    ensures NeedsHandoff(cfg, job) ==> IsHandedOver(l', job)
    ensures !NeedsHandoff(cfg, job) ==>
              l'.shard.handoffs == l.shard.handoffs && l'.secrets == l.secrets && l'.shard.resources == l.shard.resources
  {
    hide LocalStep, Gets, StepOf, Receipt, HandoffIsOpen, Keeps;
    var listed := ListingIsListing(cfg, l.shard);
    StepHead(cfg, p, l, job, listed, at, d);
    StepMayGoOn(l, p, job, at, d);
    var renewed := l.(shard := Renewed(l.shard, at, d));
    if NeedsHandoff(cfg, job) {
      var begin := AtStep(renewed, job, StepGetPointer);
      var h := HandoffOf(job);
      if h in begin.shard.handoffs && begin.shard.handoffs[h].publication.Some? && begin.shard.handoffs[h].publication.value in begin.secrets {
        l' := TakenUpStepFinishes(cfg, p, begin, job, at, d);
      } else {
        l' := NewStepFinishes(cfg, p, begin, job, at, d);
      }
      GetsOn(cfg, p, l, begin, l');
    } else {
      var begin := AtStep(renewed, job, StepExecute(NotNeeded));
      PlainStepFinishes(cfg, p, begin, job, at, d);
      l' := AtStep(begin.(calls := begin.calls + [StepOf(job)]), job, StepDoneOwned);
      GetsOn(cfg, p, l, begin, l');
    }
  }

  lemma CompletedStep(job: Job)
    requires JobOk(job) && IsStepJob(job)
    ensures |job.completedSteps| < |STEPS| && StepOf(job) == STEPS[|job.completedSteps|] && job.jobId == JobId(job.subscriptionId)
    ensures CompleteProvisioningStep(job, StepOf(job)).Ok?
    ensures var next := CompleteProvisioningStep(job, StepOf(job)).value;
            && next == job.(completedSteps := STEPS[..|job.completedSteps| + 1],
                            state := if |job.completedSteps| + 1 == |STEPS| then Ready else Running)
            && JobOk(next.(version := job.version + 1))
            && (IsStepJob(next.(version := job.version + 1)) <==> |job.completedSteps| + 1 < |STEPS|)
  {
    PrefixIsTake(job.completedSteps);
    ProvisionOnce(job, |job.completedSteps|);
    ApplyKeepsJobOk(job, StepDone(StepOf(job)));
    VersionIsFree(CompleteProvisioningStep(job, StepOf(job)).value, job.version + 1);
    hide JobOk, CompleteProvisioningStep;
  }

  lemma NextMayGoOn(l: Local, p: Process, job: Job, next: Job, at: int, d: int)
    requires MayGoOn(l, p, job, at, d) && next.subscriptionId == job.subscriptionId && next.jobId == job.jobId
    requires next.activationGeneration == job.activationGeneration
    ensures MayGoOn(l.(shard := l.shard.(job := Some(next))), p, next, at, d)
    ensures IsHandedOver(l, job) ==> IsHandedOver(l.(shard := l.shard.(job := Some(next))), next)
  {
  }

  /** One turn of the loop. */
  lemma StepTurn(cfg: Config, p: Process, l: Local, job: Job, at: int, d: int) returns (on: Local, stored: Job)
    requires l.pc == Steps(job, StepOwned) && MayGoOn(l, p, job, at, d) && cfg.sub == job.subscriptionId
    requires JobOk(job) && IsStepJob(job)
    ensures var k := |job.completedSteps| + 1;
            && k <= |STEPS|
            && stored == job.(version := job.version + 1, completedSteps := STEPS[..k], state := if k == |STEPS| then Ready else Running)
            && on.pc == (if k < |STEPS| then Steps(stored, StepOwned) else Outside(Releasing))
            && on.calls == l.calls + [STEPS[k - 1]] && (k < |STEPS| ==> IsStepJob(stored))
            && (cfg.handoffRequired && k == 4 ==> IsHandedOver(on, stored))
            && (IsHandedOver(l, job) ==> IsHandedOver(on, stored))
    ensures Gets(cfg, p, l, on) && MayGoOn(on, p, stored, at, d) && JobOk(stored)
  {
    hide LocalStep, LocalRun, Gets, Receipt, HandoffIsOpen, JobOk, CompleteProvisioningStep, Keeps;
    CompletedStep(job);
    NeedsHandoffAtThree(cfg, job);
    var done := StepFinishes(cfg, p, l, job, at, d);
    var next := CompleteProvisioningStep(job, StepOf(job)).value;
    hide NeedsHandoff, StepOf, IsStepJob;
    StepTail(cfg, p, done, job, next, at, d);
    stored := next.(version := job.version + 1);
    on := done.(shard := done.shard.(job := Some(stored)), pc := if IsStepJob(stored) then Steps(stored, StepOwned) else Outside(Releasing));
    NextMayGoOn(done, p, job, stored, at, d);
    hide MayGoOn;
    GetsOn(cfg, p, l, done, on);
  }

  /** From the head of the loop, a worker that keeps its lease can finish: it completes the
      remaining steps in their order, each with one call of its driver, and leaves the job
      ready, with its credential published if the driver hands one over. */
  lemma {:induction false} ProvisioningCanFinish(cfg: Config, p: Process, l: Local, job: Job, at: int, d: int) returns (l': Local)
    requires l.pc == Steps(job, StepOwned) && MayGoOn(l, p, job, at, d) && cfg.sub == job.subscriptionId
    requires JobOk(job) && IsStepJob(job)
    ensures |job.completedSteps| < |STEPS| && Gets(cfg, p, l, l') && l'.pc == Outside(Releasing)
    ensures l'.calls == l.calls + STEPS[|job.completedSteps|..]
    ensures MayGoOn(l', p, Finished(job), at, d)
    ensures cfg.handoffRequired && |job.completedSteps| <= 3 ==> IsHandedOver(l', Finished(job))
    ensures IsHandedOver(l, job) ==> IsHandedOver(l', Finished(job))
    decreases |STEPS| - |job.completedSteps|
  {
    hide LocalStep, LocalRun, Gets, JobOk, IsStepJob, MayGoOn, IsHandedOver;
    var on, stored := StepTurn(cfg, p, l, job, at, d);
    var k := |job.completedSteps|;
    if k + 1 < |STEPS| {
      l' := ProvisioningCanFinish(cfg, p, on, stored, at, d);
      GetsOn(cfg, p, l, on, l');
      CallsJoin(l.calls, k);
    } else {
      l' := on;
      assert STEPS[k..] == [STEPS[k]] && STEPS[..k + 1] == STEPS;
    }
  }

  /** The job with all steps completed, one version each. */
  function Finished(job: Job): Job
    requires |job.completedSteps| <= |STEPS|
  {
    job.(version := job.version + |STEPS| - |job.completedSteps|, completedSteps := STEPS, state := Ready)
  }

  lemma CallsJoin(calls: seq<Step>, k: nat)
    requires k < |STEPS|
    ensures calls + [STEPS[k]] + STEPS[k + 1..] == calls + STEPS[k..]
  {
  }

  lemma NeedsHandoffAtThree(cfg: Config, job: Job)
    requires |job.completedSteps| < |STEPS| && StepOf(job) == STEPS[|job.completedSteps|]
    ensures NeedsHandoff(cfg, job) <==> cfg.handoffRequired && |job.completedSteps| == 3
  {
    assert StepIndex(STEPS[|job.completedSteps|]) == |job.completedSteps| && StepIndex(ApiCredential) == 3;
  }

  // ---------------------------------------------------------------------------
  // One compensation
  // ---------------------------------------------------------------------------

  function AtUndo(l: Local, job: Job, u: UndoPc): Local {
    l.(pc := Undo(job, u))
  }

  /** Records as a listing gave them: distinct, and stored under their keys. */
  ghost predicate AreStored(records: seq<Resource>, resources: map<ResourceKey, Resource>) {
    && (forall i, j :: 0 <= i < j < |records| ==> records[i].resourceKey != records[j].resourceKey)
    && forall r :: r in records ==>
         r.resourceKey == KeyOf(r) && r.resourceKey in resources && KeyOf(resources[r.resourceKey]) == r.resourceKey
         && resources[r.resourceKey].retention == r.retention
  }

  /** What the driver has to return for some records. */
  function DispositionsFor(records: seq<Resource>): seq<Disposition> {
    if records == [] then []
    else
      var rest := DispositionsFor(records[1..]);
      if records[0].retention == ImmutableEvidence then rest
      else
        var status := RequiredStatus(records[0].step);
        [Disposition(records[0].resourceKey,
                     if status == Some(RevokedResource) then RevokedResource
                     else if status == Some(DisabledResource) then DisabledResource else Quarantined)] + rest
  }

  ghost predicate AreDistinct(records: seq<Resource>) {
    forall i, j :: 0 <= i < j < |records| ==> records[i].resourceKey != records[j].resourceKey
  }

  lemma DistinctTail(records: seq<Resource>)
    requires AreDistinct(records) && records != []
    ensures AreDistinct(records[1..]) && forall r :: r in records[1..] ==> r.resourceKey != records[0].resourceKey
    ensures forall r :: r in records <==> r == records[0] || r in records[1..]
  {
  }

  lemma {:induction false} DispositionsAreOf(records: seq<Resource>)
    requires AreDistinct(records)
    ensures DispositionsWellFormed(records, DispositionsFor(records))
  {
    if records != [] {
      DistinctTail(records);
      DispositionsAreOf(records[1..]);
      var ds, rest := DispositionsFor(records), DispositionsFor(records[1..]);
      hide RequiredStatus, AreDistinct;
      forall d | d in ds ensures exists r :: r in records && r.resourceKey == d.resourceKey {
        if d in rest {
          var r :| r in records[1..] && r.resourceKey == d.resourceKey;
          assert r in records;
        } else {
          assert records[0] in records;
        }
      }
      assert forall d :: d in rest ==> d.resourceKey != records[0].resourceKey;
    }
  }

  lemma {:induction false} DispositionIsFound(records: seq<Resource>, r: Resource)
    requires AreDistinct(records) && r in records
    ensures Disposed(r, DispositionsFor(records)).Ok?
  {
    DistinctTail(records);
    var ds, rest := DispositionsFor(records), DispositionsFor(records[1..]);
    if r != records[0] {
      DispositionIsFound(records[1..], r);
      assert ds == rest || (ds[1..] == rest && ds[0].resourceKey == records[0].resourceKey);
      assert FindDisposition(ds, r.resourceKey) == FindDisposition(rest, r.resourceKey);
    } else if r.retention == Mutable {
      assert FindDisposition(ds, r.resourceKey) == Some(ds[0]);
    }
    hide AreDistinct;
  }

  lemma StoredTail(records: seq<Resource>, resources: map<ResourceKey, Resource>, r: Resource)
    requires records != [] && AreStored(records, resources)
    requires r.resourceKey == records[0].resourceKey == KeyOf(r) && r.retention == records[0].retention
    ensures AreStored(records[1..], resources) && AreStored(records[1..], resources[r.resourceKey := r])
  {
    assert forall q :: q in records[1..] ==> q in records;
  }

  lemma DisposeStep(cfg: Config, p: Process, l: Local, job: Job, records: seq<Resource>, ds: seq<Disposition>) returns (l': Local)
    requires p.Worker? && l.pc == Undo(job, UndoDispose(records, ds)) && records != [] && AreStored(records, l.shard.resources)
    requires Disposed(records[0], ds).Ok?
    ensures LocalStep(cfg, p, l, Go) == Some(l') && l'.pc == Undo(job, UndoDispose(records[1..], ds))
    ensures AreStored(records[1..], l'.shard.resources)
    ensures l' == l.(pc := l'.pc, shard := l.shard.(resources := l'.shard.resources))
    ensures KeysAreFiled(l.shard.resources) ==> KeysAreFiled(l'.shard.resources)
  {
    var d := Disposed(records[0], ds).value;
    assert records[0] in records;
    l' := AtUndo(l, job, UndoDispose(records[1..], ds));
    if d.Some? {
      var r := d.value;
      assert r == records[0].(status := r.status);
      assert DecidePutResource(Lookup(l.shard.resources, r.resourceKey), r) == Ok(r);
      l' := l'.(shard := l.shard.(resources := l.shard.resources[r.resourceKey := r]));
      StoredTail(records, l.shard.resources, r);
    } else {
      StoredTail(records, l.shard.resources, records[0]);
    }
    hide Disposed, DecidePutResource, AreStored;
  }

  lemma {:induction false} DisposingFinishes(cfg: Config, p: Process, l: Local, job: Job, records: seq<Resource>, ds: seq<Disposition>)
    returns (l': Local)
    requires p.Worker? && l.pc == Undo(job, UndoDispose(records, ds)) && AreStored(records, l.shard.resources)
    requires forall r :: r in records ==> Disposed(r, ds).Ok?
    ensures Gets(cfg, p, l, l') && l'.pc == Undo(job, UndoDoneOwned)
    ensures l' == l.(pc := l'.pc, shard := l.shard.(resources := l'.shard.resources))
    ensures KeysAreFiled(l.shard.resources) ==> KeysAreFiled(l'.shard.resources)
    decreases |records|
  {
    hide AreStored, Disposed;
    if records == [] {
      l' := AtUndo(l, job, UndoDoneOwned);
      GetsStep(cfg, p, l, Go, l');
    } else {
      assert records[0] in records;
      var next := DisposeStep(cfg, p, l, job, records, ds);
      hide LocalStep, Gets;
      l' := DisposingFinishes(cfg, p, next, job, records[1..], ds);
      GetsThen(cfg, p, l, Go, next, l');
    }
  }

  /** The worker may go on undoing this job. */
  ghost predicate MayUndo(l: Local, p: Process, job: Job, at: int, d: int) {
    && Keeps(l.shard, p, at, d) && l.shard.job == Some(job)
    && KeysAreFiled(l.shard.resources)
    && (HandoffOf(job) in l.shard.handoffs && l.shard.handoffs[HandoffOf(job)].subscriptionId == job.subscriptionId ==>
          PointerMatchesJob(l.shard.handoffs[HandoffOf(job)], job))
  }

  lemma {:induction false} StepRecordsAreStored(listed: seq<Resource>, resources: map<ResourceKey, Resource>, step: Step)
    requires AreStored(listed, resources)
    ensures AreStored(RecordsOfStep(listed, step), resources)
    ensures forall r :: r in RecordsOfStep(listed, step) ==> r in listed
  {
    if listed != [] {
      assert forall r :: r in listed[1..] ==> r in listed;
      StepRecordsAreStored(listed[1..], resources, step);
      assert forall r :: r in listed[1..] ==> r.resourceKey != listed[0].resourceKey;
    }
  }

  /** From the head of the loop to the pointer. */
  lemma UndoHead(cfg: Config, p: Process, l: Local, job: Job, at: int, d: int) returns (records: seq<Resource>)
    requires l.pc == Undo(job, UndoOwned) && MayUndo(l, p, job, at, d)
    ensures Gets(cfg, p, l, AtUndo(l.(shard := Renewed(l.shard, at, d)), job, UndoGetPointer(records)))
    ensures AreStored(records, l.shard.resources)
  {
    hide UndoStepOf, PointerMatchesJob;
    var listed := ListingIsListing(cfg, l.shard);
    records := RecordsOfStep(listed, UndoStepOf(job));
    StepRecordsAreStored(listed, l.shard.resources, UndoStepOf(job));
    var renewed := l.(shard := Renewed(l.shard, at, d));
    FenceRenews(l.shard, p, Undo(job, UndoList), at, d);
    assert LocalStep(cfg, p, l, Clock(at, d)) == Some(AtUndo(renewed, job, UndoList)) by { hide ListsShard, Owned; }
    assert ListsShard(listed, renewed.shard, cfg.sub);
    hide ListsShard, AreStored, RecordsOfStep;
    GetsStep(cfg, p, AtUndo(renewed, job, UndoList), Listing(listed), AtUndo(renewed, job, UndoGetPointer(records)));
    hide LocalStep;
    GetsThen(cfg, p, l, Clock(at, d), AtUndo(renewed, job, UndoList), AtUndo(renewed, job, UndoGetPointer(records)));
  }

  /** The pointer is revoked, if it is there and was not; then the driver may be called. */
  lemma PointerCloses(cfg: Config, p: Process, l: Local, job: Job, records: seq<Resource>, at: int, d: int) returns (l': Local)
    requires l.pc == Undo(job, UndoGetPointer(records)) && MayUndo(l, p, job, at, d)
    ensures Gets(cfg, p, l, l') && l'.pc == Undo(job, UndoCompensate(records)) && MayUndo(l', p, job, at, d)
    ensures l' == l.(pc := l'.pc, shard := l.shard.(handoffs := l'.shard.handoffs))
    ensures HandoffOf(job) in l'.shard.handoffs && l'.shard.handoffs[HandoffOf(job)].subscriptionId == job.subscriptionId ==>
              l'.shard.handoffs[HandoffOf(job)].state == Revoked
  {
    RenewedKeeps(l.shard, p, at, d);
    var seen := CurrentPointer(l.shard, job);
    if seen.None? || seen.value.state == Revoked {
      l' := AtUndo(l, job, UndoCompensate(records));
      GetsStep(cfg, p, l, Go, l');
    } else {
      var revoked := seen.value.(state := Revoked);
      var revoking := AtUndo(l, job, UndoRevoke(records, seen.value));
      l' := AtUndo(WithPointer(l, revoked), job, UndoCompensate(records));
      assert LocalStep(cfg, p, l, Go) == Some(revoking);
      GetsStep(cfg, p, revoking, Clock(at, d), l');
      hide LocalStep, LocalRun;
      GetsThen(cfg, p, l, Go, revoking, l');
    }
  }

  /** The call of the driver, and what it says about the records. */
  lemma UndoCall(cfg: Config, p: Process, l: Local, job: Job, records: seq<Resource>, at: int, d: int) returns (l': Local)
    requires l.pc == Undo(job, UndoCompensate(records)) && Keeps(l.shard, p, at, d) && Renewed(l.shard, at, d) == l.shard
    requires AreStored(records, l.shard.resources)
    ensures Gets(cfg, p, l, l') && l'.pc == Undo(job, UndoDispose(records, DispositionsFor(records)))
    ensures l' == l.(pc := l'.pc, calls := l.calls + [UndoStepOf(job)])
    ensures forall r :: r in records ==> Disposed(r, DispositionsFor(records)).Ok?
  {
    hide UndoStepOf;
    RenewedKeeps(l.shard, p, at, d);
    DispositionsAreOf(records);
    forall r | r in records ensures Disposed(r, DispositionsFor(records)).Ok? { DispositionIsFound(records, r); }
    var ds := DispositionsFor(records);
    var called := AtUndo(l.(calls := l.calls + [UndoStepOf(job)]), job, UndoCompensated(records, [], ds));
    var persists := AtUndo(called, job, UndoPersist(records, [], ds));
    l' := AtUndo(called, job, UndoDispose(records, ds));
    hide AreStored, Disposed, DispositionsFor, DispositionsWellFormed;
    FenceRenews(l.shard, p, Undo(job, UndoPersist(records, [], ds)), at, d);
    assert l.shard.(lease := l.shard.lease) == l.shard;
    assert LocalStep(cfg, p, l, Returned([], None, ds)) == Some(called);
    assert LocalStep(cfg, p, called, Clock(at, d)) == Some(persists);
    assert LocalStep(cfg, p, persists, Go) == Some(l');
    hide LocalStep, LocalRun;
    GetsStep(cfg, p, persists, Go, l');
    GetsThen(cfg, p, called, Clock(at, d), persists, l');
    GetsThen(cfg, p, l, Returned([], None, ds), called, l');
  }

  lemma UndoTail(cfg: Config, p: Process, l: Local, job: Job, next: Job, at: int, d: int)
    requires l.pc == Undo(job, UndoDoneOwned) && Keeps(l.shard, p, at, d) && Renewed(l.shard, at, d) == l.shard
    requires l.shard.job == Some(job) && job.jobId == JobId(job.subscriptionId)
    requires CompleteCompensationStep(job, UndoStepOf(job)) == Ok(next) && next.version == job.version
    requires next.jobId == job.jobId && next.subscriptionId == job.subscriptionId
    ensures var stored := next.(version := job.version + 1);
            Gets(cfg, p, l, l.(shard := l.shard.(job := Some(stored)),
                               pc := if IsUndoJob(stored) then Undo(stored, UndoOwned) else Outside(Releasing)))
  {
    hide CompleteCompensationStep, UndoStepOf, IsUndoJob;
    FenceRenews(l.shard, p, Undo(job, UndoCheckpoint), at, d);
    assert l.shard.(lease := l.shard.lease) == l.shard;
    assert LocalStep(cfg, p, l, Clock(at, d)) == Some(AtUndo(l, job, UndoCheckpoint));
    var stored := next.(version := job.version + 1);
    var l' := l.(shard := l.shard.(job := Some(stored)),
                 pc := if IsUndoJob(stored) then Undo(stored, UndoOwned) else Outside(Releasing));
    assert LocalStep(cfg, p, AtUndo(l, job, UndoCheckpoint), Go) == Some(l');
    hide LocalStep;
    GetsStep(cfg, p, AtUndo(l, job, UndoCheckpoint), Go, l');
    GetsThen(cfg, p, l, Clock(at, d), AtUndo(l, job, UndoCheckpoint), l');
  }

  // ---------------------------------------------------------------------------
  // All compensations
  // ---------------------------------------------------------------------------

  /** The activation's pointer is revoked, or not there. */
  predicate IsClosed(sh: Shard, job: Job) {
    var h := HandoffOf(job);
    h in sh.handoffs && sh.handoffs[h].subscriptionId == job.subscriptionId ==> sh.handoffs[h].state == Revoked
  }

  lemma CompensatedStep(job: Job)
    requires JobOk(job) && IsUndoJob(job)
    ensures UndoStepOf(job) in job.completedSteps && UndoStepOf(job) !in job.compensatedSteps && job.jobId == JobId(job.subscriptionId)
    ensures CompleteCompensationStep(job, UndoStepOf(job)).Ok?
    ensures var next := CompleteCompensationStep(job, UndoStepOf(job)).value;
            && next == job.(compensatedSteps := job.compensatedSteps + [UndoStepOf(job)], state := next.state)
            && (next.state == Disabled <==> AllIn(job.completedSteps, next.compensatedSteps))
            && (next.state == Disabled || next.state == Compensating)
            && JobOk(next.(version := job.version + 1))
            && (IsUndoJob(next.(version := job.version + 1)) <==> next.state == Compensating)
            && |next.compensatedSteps| <= |STEPS|
  {
    CompensationTakesLargest(job);
    ApplyKeepsJobOk(job, StepCompensated(UndoStepOf(job)));
    var next := CompleteCompensationStep(job, UndoStepOf(job)).value;
    VersionIsFree(next, job.version + 1);
    CompensationTakesLargest(next.(version := job.version + 1));
    SubsetLength(next.compensatedSteps, next.completedSteps);
    hide LastOutside;
  }

  lemma UndoKeeps(l: Local, p: Process, job: Job, next: Job, at: int, d: int)
    requires MayUndo(l, p, job, at, d) && next.subscriptionId == job.subscriptionId && next.jobId == job.jobId
    requires next.activationGeneration == job.activationGeneration
    ensures MayUndo(l.(shard := l.shard.(job := Some(next))), p, next, at, d)
    ensures IsClosed(l.shard, job) ==> IsClosed(l.shard.(job := Some(next)), next)
  {
  }

  /** One turn of the loop. */
  lemma UndoTurn(cfg: Config, p: Process, l: Local, job: Job, at: int, d: int) returns (on: Local, stored: Job)
    requires l.pc == Undo(job, UndoOwned) && MayUndo(l, p, job, at, d) && JobOk(job) && IsUndoJob(job)
    ensures JobOk(stored) && stored == job.(version := job.version + 1, state := stored.state,
                                            compensatedSteps := job.compensatedSteps + [UndoStepOf(job)])
    ensures UndoStepOf(job) !in job.compensatedSteps && |stored.compensatedSteps| <= |STEPS|
    ensures stored.state == Disabled <==> AllIn(job.completedSteps, stored.compensatedSteps)
    ensures on.pc == if stored.state == Disabled then Outside(Releasing) else Undo(stored, UndoOwned)
    ensures stored.state != Disabled ==> IsUndoJob(stored)
    ensures on.calls == l.calls + [UndoStepOf(job)] && IsClosed(on.shard, stored)
    ensures Gets(cfg, p, l, on) && MayUndo(on, p, stored, at, d)
  {
    hide LocalStep, LocalRun, Gets, JobOk, CompleteCompensationStep, AllIn, Disposed;
    CompensatedStep(job);
    var next := CompleteCompensationStep(job, UndoStepOf(job)).value;
    hide UndoStepOf, IsUndoJob, PointerMatchesJob;
    var records := UndoHead(cfg, p, l, job, at, d);
    var a := AtUndo(l.(shard := Renewed(l.shard, at, d)), job, UndoGetPointer(records));
    RenewedKeeps(l.shard, p, at, d);
    var b := PointerCloses(cfg, p, a, job, records, at, d);
    var c := UndoCall(cfg, p, b, job, records, at, d);
    var e := DisposingFinishes(cfg, p, c, job, records, DispositionsFor(records));
    stored := next.(version := job.version + 1);
    on := e.(shard := e.shard.(job := Some(stored)), pc := if IsUndoJob(stored) then Undo(stored, UndoOwned) else Outside(Releasing));
    UndoTail(cfg, p, e, job, next, at, d);
    hide DispositionsFor, AreStored;
    GetsOn(cfg, p, l, a, b);
    GetsOn(cfg, p, l, b, c);
    GetsOn(cfg, p, l, c, e);
    GetsOn(cfg, p, l, e, on);
    UndoKeeps(e, p, job, stored, at, d);
  }

  /** From the head of the loop, a worker that keeps its lease can finish a compensation: it
      undoes the steps that are left, each with one call of its driver, and leaves the job
      disabled and its pointer closed. */
  lemma {:induction false} CompensationCanFinish(cfg: Config, p: Process, l: Local, job: Job, at: int, d: int)
    returns (l': Local, job': Job)
    requires l.pc == Undo(job, UndoOwned) && MayUndo(l, p, job, at, d) && JobOk(job) && IsUndoJob(job)
    ensures Gets(cfg, p, l, l') && l'.pc == Outside(Releasing) && MayUndo(l', p, job', at, d) && IsClosed(l'.shard, job')
    ensures job'.state == Disabled && AllIn(job'.completedSteps, job'.compensatedSteps)
    ensures job' == job.(version := job'.version, state := Disabled, compensatedSteps := job'.compensatedSteps)
    ensures job.compensatedSteps <= job'.compensatedSteps && NoDuplicates(job'.compensatedSteps)
    ensures l'.calls == l.calls + job'.compensatedSteps[|job.compensatedSteps|..]
    decreases |STEPS| - |job.compensatedSteps|
  {
    hide LocalStep, LocalRun, Gets, IsUndoJob, MayUndo, IsClosed, UndoStepOf, AllIn;
    var on, stored := UndoTurn(cfg, p, l, job, at, d);
    if stored.state == Disabled {
      l', job' := on, stored;
    } else {
      l', job' := CompensationCanFinish(cfg, p, on, stored, at, d);
      GetsOn(cfg, p, l, on, l');
      UndoneJoin(job.compensatedSteps, UndoStepOf(job), job'.compensatedSteps);
    }
    hide NoDuplicates;
  }

  lemma UndoneJoin(few: seq<Step>, step: Step, all: seq<Step>)
    requires few + [step] <= all
    ensures few <= all && [step] + all[|few| + 1..] == all[|few|..]
  {
  }

  // ---------------------------------------------------------------------------
  // Whole runs
  // ---------------------------------------------------------------------------

  lemma RunReadsJob(cfg: Config, p: Process, l: Local, order: Order, at: int, d: int) returns (l': Local)
    requires l.pc == Outside(RunOwned) && Keeps(l.shard, p, at, d) && l.shard.order == Some(order)
    ensures Gets(cfg, p, l, l') && l' == l.(shard := Renewed(l.shard, at, d), pc := Outside(RunGetJob(order)))
  {
    FenceRenews(l.shard, p, Outside(RunGetOrder), at, d);
    var a := l.(shard := Renewed(l.shard, at, d), pc := Outside(RunGetOrder));
    l' := a.(pc := Outside(RunGetJob(order)));
    assert LocalStep(cfg, p, l, Clock(at, d)) == Some(a) by { hide Owned; }
    GetsStep(cfg, p, a, Go, l');
    hide LocalStep, LocalRun;
    GetsThen(cfg, p, l, Clock(at, d), a, l');
  }

  lemma StartedJob(job: Job, now: int)
    requires JobOk(job) && StartProvisioningAttempt(job, now).Ok?
    ensures var started := StartProvisioningAttempt(job, now).value;
            && started == job.(state := started.state, attempt := started.attempt, retryExhausted := false, nextRetryAt := None,
                               lastErrorCode := started.lastErrorCode)
            && JobOk(started) && JobOk(started.(version := job.version + 1)) && job.jobId == JobId(job.subscriptionId)
            && (job.operation == Provisioning ==> IsStepJob(started) && IsStepJob(started.(version := job.version + 1)))
            && (job.operation != Provisioning ==> IsUndoJob(started) && IsUndoJob(started.(version := job.version + 1)))
            && job.state != Ready && job.state != Disabled
            && (job.state == JobState.Failed ==> !job.retryExhausted && job.nextRetryAt.Some? && now >= job.nextRetryAt.value)
  {
    ApplyKeepsJobOk(job, Started(now));
    var started := StartProvisioningAttempt(job, now).value;
    VersionIsFree(started, job.version + 1);
    CompensationTakesLargest(started);
    CompensationTakesLargest(started.(version := job.version + 1));
    hide LastOutside;
  }

  /** A job that may start is started, and its loop entered, if the order is fit for it. */
  lemma JobStarts(cfg: Config, p: Process, l: Local, order: Order, job: Job) returns (l': Local, started: Job)
    requires p.Worker? && l.shard.job == Some(job) && JobOk(job) && StartProvisioningAttempt(job, p.now).Ok?
    requires order.mode == Some(p.mode) && (if job.operation == Provisioning then IsProvisionableOrder(order) else HasProvisioningIdentity(order))
    requires Proceed(p, order, job) == Goto(l.pc)
    ensures Gets(cfg, p, l, l') && l' == l.(pc := l'.pc, shard := l.shard.(job := Some(started)))
    ensures if job.operation == Provisioning then l'.pc == Steps(started, StepOwned) && IsStepJob(started)
            else l'.pc == Undo(started, UndoOwned) && IsUndoJob(started)
    ensures JobOk(started) && started == job.(version := started.version, state := started.state, attempt := started.attempt,
                                              retryExhausted := false, nextRetryAt := None, lastErrorCode := started.lastErrorCode)
  {
    StartedJob(job, p.now);
    var begun := StartProvisioningAttempt(job, p.now).value;
    hide StartProvisioningAttempt, JobOk, IsStepJob, IsUndoJob, IsProvisionableOrder, HasProvisioningIdentity;
    if begun == job {
      l', started := l, job;
      GetsNowhere(cfg, p, l);
    } else {
      started := begun.(version := job.version + 1);
      l' := l.(shard := l.shard.(job := Some(started)),
               pc := if job.operation == Provisioning then Steps(started, StepOwned) else Undo(started, UndoOwned));
      assert l.pc == Outside(RunStart(order, job));
      GetsStep(cfg, p, l, Go, l');
    }
  }

  /** From its start, a run of a due provisioning job for an order that calls for service, in
      the worker's own mode, can make the job ready. */
  lemma RunCanMakeReady(cfg: Config, p: Process, l: Local, order: Order, job: Job, at: int, d: int) returns (l': Local)
    requires p.Worker? && l.pc == Outside(RunOwned) && l.shard.order == Some(order)
    requires order.billingState == Active && IsProvisionableOrder(order) && order.mode == Some(p.mode)
    requires MayGoOn(l, p, job, at, d) && cfg.sub == job.subscriptionId && JobOk(job) && job.operation == Provisioning
    requires StartProvisioningAttempt(job, p.now).Ok?
    ensures Gets(cfg, p, l, l') && l'.pc == Outside(Releasing) && Keeps(l'.shard, p, at, d)
    ensures l'.shard.job.Some? && l'.shard.job.value.state == Ready && l'.shard.job.value.completedSteps == STEPS
    ensures |job.completedSteps| <= |STEPS| && l'.calls == l.calls + STEPS[|job.completedSteps|..]
    ensures cfg.handoffRequired && |job.completedSteps| <= 3 ==> IsHandedOver(l', job)
  {
    hide LocalStep, LocalRun, Gets, JobOk, IsStepJob, IsUndoJob, HandoffIsOpen, Keeps, IsProvisionableOrder, Receipt;
    var a := RunReadsJob(cfg, p, l, order, at, d);
    StartedJob(job, p.now);
    ProceedsOn(cfg, p, a, order, job);
    var b := a.(pc := Proceed(p, order, job).pc);
    hide Proceed, StartProvisioningAttempt;
    var c, started := JobStarts(cfg, p, b, order, job);
    StepMayGoOn(l, p, job, at, d);
    NextMayGoOn(b, p, job, started, at, d);
    l' := ProvisioningCanFinish(cfg, p, c, started, at, d);
    GetsOn(cfg, p, l, a, b);
    GetsOn(cfg, p, l, b, c);
    GetsOn(cfg, p, l, c, l');
  }

  lemma ProceedsOn(cfg: Config, p: Process, l: Local, order: Order, job: Job)
    requires p.Worker? && l.pc == Outside(RunGetJob(order)) && l.shard.job == Some(job) && order.billingState == Active
    requires StartProvisioningAttempt(job, p.now).Ok? && job.state != Ready && job.state != Disabled
    requires job.state == JobState.Failed ==> !job.retryExhausted && job.nextRetryAt.Some? && p.now >= job.nextRetryAt.value
    ensures Proceed(p, order, job).Goto? && Gets(cfg, p, l, l.(pc := Proceed(p, order, job).pc))
  {
    hide StartProvisioningAttempt, IsProvisionableOrder, HasProvisioningIdentity, IsStepJob, IsUndoJob;
    GetsStep(cfg, p, l, Go, l.(pc := Proceed(p, order, job).pc));
  }

  lemma EndsOn(cfg: Config, p: Process, l: Local, order: Order, job: Job, at: int, d: int) returns (l': Local, turned: Job)
    requires p.Worker? && l.pc == Outside(RunGetJob(order)) && l.shard.job == Some(job) && EndsService(order) && JobOk(job)
    requires MayUndo(l, p, job, at, d)
    ensures JobOk(turned) && turned.operation == OperationFor(order)
    ensures turned == job.(version := turned.version, state := turned.state, operation := turned.operation,
                           completedSteps := turned.completedSteps, compensatedSteps := turned.compensatedSteps,
                           attempt := turned.attempt, retryExhausted := turned.retryExhausted, nextRetryAt := turned.nextRetryAt,
                           lastErrorCode := turned.lastErrorCode)
    ensures job.completedSteps <= turned.completedSteps || turned.completedSteps == []
    ensures forall k :: k in l.shard.resources && l.shard.resources[k].subscriptionId == cfg.sub ==> l.shard.resources[k].step in turned.completedSteps
    ensures l' == l.(shard := l.shard.(job := Some(turned)), pc := l'.pc)
    ensures Proceed(p, order, turned).Goto? && l'.pc == Proceed(p, order, turned).pc && Gets(cfg, p, l, l')
    ensures turned == job || turned.state == Disabled || (turned.state == Compensating && turned.attempt == 0)
  {
    hide LocalRun, LocalStep, Proceed, AllIn, MayUndo, TransitionTarget, JobOk, StepsOf;
    var op := OperationFor(order);
    var listed := AllRecords(cfg, l, p, job, at, d);
    var steps := StepsOf(listed);
    var target := TransitionTarget(job, steps, op);
    TargetIs(job, steps, op);
    ListedAreCompleted(cfg, l.shard, listed, job, op);
    if target == job {
      turned := job;
      l' := FindsInOrder(cfg, p, l, order, job, listed);
    } else {
      turned := target.(version := job.version + 1);
      l' := TurnsJob(cfg, p, l, order, job, listed);
    }
  }

  lemma FindsInOrder(cfg: Config, p: Process, l: Local, order: Order, job: Job, listed: seq<Resource>) returns (l': Local)
    requires p.Worker? && l.pc == Outside(RunGetJob(order)) && l.shard.job == Some(job) && EndsService(order)
    requires ListsShard(listed, l.shard, cfg.sub) && TransitionTarget(job, StepsOf(listed), OperationFor(order)) == job
    ensures Proceed(p, order, job).Goto? && l' == l.(pc := Proceed(p, order, job).pc) && Gets(cfg, p, l, l')
  {
    hide LocalRun, Proceed, TransitionTarget, StepsOf, ListsShard;
    ProceedGoes(p, order, job);
    l' := l.(pc := Proceed(p, order, job).pc);
    var lists := l.(pc := Transition(ListRecords(job), OperationFor(order), 0, ForWorker(order)));
    ProceedIsSame(p, lists.pc, order, job);
    GetsStep(cfg, p, lists, Listing(listed), l');
    GetsThen(cfg, p, l, Go, lists, l');
  }

  lemma TurnsJob(cfg: Config, p: Process, l: Local, order: Order, job: Job, listed: seq<Resource>) returns (l': Local)
    requires p.Worker? && l.pc == Outside(RunGetJob(order)) && l.shard.job == Some(job) && EndsService(order)
    requires ListsShard(listed, l.shard, cfg.sub)
    requires var target := TransitionTarget(job, StepsOf(listed), OperationFor(order));
             target != job && target.version == job.version && target.jobId == job.jobId && target.subscriptionId == job.subscriptionId
    requires job.jobId == JobId(job.subscriptionId)
    ensures var turned := TransitionTarget(job, StepsOf(listed), OperationFor(order)).(version := job.version + 1);
            && Proceed(p, order, turned).Goto?
            && l' == l.(shard := l.shard.(job := Some(turned)), pc := Proceed(p, order, turned).pc) && Gets(cfg, p, l, l')
  {
    hide LocalRun, Proceed, TransitionTarget, StepsOf, ListsShard;
    var steps, op := StepsOf(listed), OperationFor(order);
    var turned := TransitionTarget(job, steps, op).(version := job.version + 1);
    ProceedGoes(p, order, turned);
    l' := l.(shard := l.shard.(job := Some(turned)), pc := Proceed(p, order, turned).pc);
    var lists := l.(pc := Transition(ListRecords(job), op, 0, ForWorker(order)));
    var puts := l.(pc := Transition(PutJob(job, steps), op, 0, ForWorker(order)));
    ProceedIsSame(p, puts.pc, order, turned);
    assert LocalStep(cfg, p, puts, Go) == Some(l');
    GetsStep(cfg, p, puts, Go, l');
    GetsThen(cfg, p, lists, Listing(listed), puts, l');
    GetsThen(cfg, p, l, Go, lists, l');
  }

  lemma AllRecords(cfg: Config, l: Local, p: Process, job: Job, at: int, d: int) returns (listed: seq<Resource>)
    requires MayUndo(l, p, job, at, d)
    ensures ListsShard(listed, l.shard, cfg.sub)
  {
    listed := ListingIsListing(cfg, l.shard);
  }

  lemma ProceedGoes(p: Process, order: Order, job: Job)
    requires p.Worker?
    ensures Proceed(p, order, job).Goto?
  {
    hide StartProvisioningAttempt, IsStepJob, IsUndoJob, HasProvisioningIdentity, IsProvisionableOrder;
  }

  lemma ProceedIsSame(p: Process, pc: Pc, order: Order, job: Job)
    requires p.Worker?
    ensures Proceed(At(p, pc), order, job) == Proceed(p, order, job)
  {
    hide StartProvisioningAttempt, IsStepJob, IsUndoJob, HasProvisioningIdentity, IsProvisionableOrder;
  }

  lemma TargetIs(job: Job, steps: seq<Step>, op: Operation)
    requires JobOk(job) && op != Provisioning
    ensures var t := TransitionTarget(job, steps, op);
            && t.operation == op && t.version == job.version && JobOk(t) && JobOk(t.(version := job.version + 1))
            && t == job.(state := t.state, operation := op, completedSteps := t.completedSteps, compensatedSteps := t.compensatedSteps,
                         attempt := t.attempt, retryExhausted := t.retryExhausted, nextRetryAt := t.nextRetryAt, lastErrorCode := t.lastErrorCode)
            && (t == job || t.state == Disabled || (t.state == Compensating && t.attempt == 0))
            && (job.completedSteps <= t.completedSteps || t.completedSteps == [])
            && AllIn(steps, t.completedSteps) && job.jobId == JobId(job.subscriptionId)
  {
    var observed := steps + InFlightSteps(job);
    ApplyKeepsJobOk(job, CompensationBegun(steps, op));
    VersionIsFree(TransitionTarget(job, steps, op), job.version + 1);
    ObservedPrefixCovers(job, observed);
    assert forall s :: s in steps ==> s in observed;
    var p := ObservedPrefix(job, observed);
    var t := TransitionTarget(job, steps, op);
    assert p == t.completedSteps || (p == [] && job.completedSteps == []);
    hide ObservedPrefix;
  }

  lemma ListedAreCompleted(cfg: Config, sh: Shard, listed: seq<Resource>, job: Job, op: Operation)
    requires ListsShard(listed, sh, cfg.sub) && AllIn(StepsOf(listed), TransitionTarget(job, StepsOf(listed), op).completedSteps)
    ensures forall k :: k in sh.resources && sh.resources[k].subscriptionId == cfg.sub ==>
              sh.resources[k].step in TransitionTarget(job, StepsOf(listed), op).completedSteps
  {
    hide TransitionTarget;
    forall k | k in sh.resources && sh.resources[k].subscriptionId == cfg.sub
      ensures sh.resources[k].step in TransitionTarget(job, StepsOf(listed), op).completedSteps
    {
      var i :| 0 <= i < |listed| && listed[i] == sh.resources[k];
      assert StepsOf(listed)[i] == sh.resources[k].step;
    }
  }

  lemma TurnedStarts(p: Process, order: Order, turned: Job)
    requires p.Worker? && JobOk(turned) && turned.operation != Provisioning && p.now >= 0
    requires turned.state == JobState.Failed ==> !turned.retryExhausted && turned.nextRetryAt.Some? && p.now >= turned.nextRetryAt.value
    ensures turned.state == Disabled ==> Proceed(p, order, turned) == Goto(Outside(Releasing)) && AllIn(turned.completedSteps, turned.compensatedSteps)
    ensures turned.state != Disabled ==> StartProvisioningAttempt(turned, p.now).Ok?
  {
  }

  /** From its start, a run for an order that ended or is past due can disable the job: every
      completed step, and every step that has a record, is undone, and the pointer is closed. */
  lemma RunCanDisable(cfg: Config, p: Process, l: Local, order: Order, job: Job, at: int, d: int) returns (l': Local, job': Job)
    requires p.Worker? && l.pc == Outside(RunOwned) && l.shard.order == Some(order) && EndsService(order)
    requires HasProvisioningIdentity(order) && order.mode == Some(p.mode) && p.now >= 0
    requires MayUndo(l, p, job, at, d) && JobOk(job)
    requires job.state == JobState.Failed ==> !job.retryExhausted && job.nextRetryAt.Some? && p.now >= job.nextRetryAt.value
    ensures Gets(cfg, p, l, l') && l'.pc == Outside(Releasing) && Keeps(l'.shard, p, at, d)
    ensures l'.shard.job == Some(job') && job'.state == Disabled && job'.operation == OperationFor(order)
    ensures AllIn(job'.completedSteps, job'.compensatedSteps) && (job.completedSteps <= job'.completedSteps || job'.completedSteps == [])
    ensures forall k :: k in l.shard.resources && l.shard.resources[k].subscriptionId == cfg.sub ==> l.shard.resources[k].step in job'.compensatedSteps
    ensures l'.calls == l.calls || IsClosed(l'.shard, job')
  {
    hide LocalStep, LocalRun, Gets, JobOk, IsStepJob, IsUndoJob, Keeps, HasProvisioningIdentity, EndsService, PointerMatchesJob;
    var a := RunReadsJob(cfg, p, l, order, at, d);
    RenewedKeeps(l.shard, p, at, d);
    var b, turned := EndsOn(cfg, p, a, order, job, at, d);
    TurnedStarts(p, order, turned);
    UndoKeeps(a, p, job, turned, at, d);
    GetsOn(cfg, p, l, a, b);
    if turned.state == Disabled {
      l', job' := b, turned;
    } else {
      hide Proceed, StartProvisioningAttempt;
      var c, started := JobStarts(cfg, p, b, order, turned);
      UndoKeeps(b, p, turned, started, at, d);
      GetsOn(cfg, p, l, b, c);
      l', job' := CompensationCanFinish(cfg, p, c, started, at, d);
      GetsOn(cfg, p, l, c, l');
    }
    assert forall s :: s in job'.completedSteps ==> s in job'.compensatedSteps;
  }

  /** The world after some more actions. */
  function Onwards(cfg: Config, w: World, actions: seq<Action>): Option<World>
    decreases |actions|
  {
    if actions == [] then Some(w)
    else
      var next := Perform(cfg, w, actions[0]);
      if next.None? then None else Onwards(cfg, next.value, actions[1..])
  }

  /** The worker of a world stands where `l` says and sees what `l` says. */
  predicate Shows(w: World, pid: nat, p: Process, l: Local) {
    pid in w.procs && w.procs[pid] == At(p, l.pc) && w.shard == l.shard && w.secrets == l.secrets
  }

  lemma StepShows(cfg: Config, w: World, pid: nat, p: Process, l: Local, c: Choice) returns (w': World)
    requires Shows(w, pid, p, l) && LocalStep(cfg, p, l, c).Some?
    ensures Perform(cfg, w, Continue(pid, c)) == Some(w') && Shows(w', pid, p, LocalStep(cfg, p, l, c).value)
    ensures w'.procs == w.procs[pid := w'.procs[pid]]
  {
    hide Plan;
    w' := Perform(cfg, w, Continue(pid, c)).value;
  }

  lemma {:induction false} RunShows(cfg: Config, w: World, pid: nat, p: Process, l: Local, choices: seq<Choice>)
    returns (actions: seq<Action>, w': World)
    requires Shows(w, pid, p, l) && LocalRun(cfg, p, l, choices).Some?
    ensures Onwards(cfg, w, actions) == Some(w') && Shows(w', pid, p, LocalRun(cfg, p, l, choices).value)
    ensures w'.procs == w.procs[pid := w'.procs[pid]]
    decreases |choices|
  {
    if choices == [] {
      actions, w' := [], w;
      assert w.procs[pid := w.procs[pid]] == w.procs;
    } else {
      hide LocalStep, Perform;
      var next := StepShows(cfg, w, pid, p, l, choices[0]);
      hide Shows;
      var rest;
      rest, w' := RunShows(cfg, next, pid, p, LocalStep(cfg, p, l, choices[0]).value, choices[1..]);
      actions := [Continue(pid, choices[0])] + rest;
      assert actions[1..] == rest;
    }
  }

  /** The lease can be taken. */
  predicate IsFree(sh: Shard, at: int) {
    sh.lease.None? || sh.lease.value.expiresAt <= at
  }

  function WorkerFor(cfg: Config, sh: Shard, owner: string, mode: DeploymentMode, now: int, at: int, d: int): Process {
    Worker(Lease(cfg.sub, owner, TokenOf(sh.lease) + 1, at + d), mode, true, now, 2, Outside(RunOwned))
  }

  lemma WorkerStarts(cfg: Config, w: World, pid: nat, owner: string, mode: DeploymentMode, now: int, at: int, d: int) returns (w': World)
    requires pid !in w.procs && cfg.sub != "" && owner != "" && at >= 0 && d >= 1 && at + d <= MAX_SAFE_INTEGER && IsFree(w.shard, at)
    ensures var p := WorkerFor(cfg, w.shard, owner, mode, now, at, d);
            && Perform(cfg, w, StartRun(pid, owner, at, d, mode, true, now)) == Some(w')
            && w' == w.(shard := w.shard.(lease := Some(p.lease)), procs := w.procs[pid := p])
            && Keeps(w'.shard, p, at, d) && Shows(w', pid, p, Local(w'.shard, w'.secrets, Outside(RunOwned), []))
  {
    w' := Perform(cfg, w, StartRun(pid, owner, at, d, mode, true, now)).value;
  }

  /** The end of a run frees the lease. */
  lemma WorkerReleases(cfg: Config, w: World, pid: nat, p: Process, l: Local, at: int, d: int) returns (w': World)
    requires Shows(w, pid, p, l) && l.pc == Outside(Releasing) && Keeps(w.shard, p, at, d)
    ensures Perform(cfg, w, Continue(pid, Go)) == Some(w') && w'.procs == w.procs - {pid}
    ensures w'.shard == w.shard.(lease := w'.shard.lease) && IsFree(w'.shard, 0) && w'.secrets == w.secrets
  {
    w' := Perform(cfg, w, Continue(pid, Go)).value;
  }

  lemma {:induction false} OnwardsJoin(cfg: Config, w: World, xs: seq<Action>, ys: seq<Action>)
    requires Onwards(cfg, w, xs).Some?
    ensures Onwards(cfg, w, xs + ys) == Onwards(cfg, Onwards(cfg, w, xs).value, ys)
    decreases |xs|
  {
    hide Perform;
    if xs == [] {
      assert xs + ys == ys;
    } else {
      assert (xs + ys)[1..] == xs[1..] + ys;
      OnwardsJoin(cfg, Perform(cfg, w, xs[0]).value, xs[1..], ys);
    }
  }

  lemma WholeRun(cfg: Config, w: World, first: Action, a: World, middle: seq<Action>, b: World, last: Action, w': World) returns (actions: seq<Action>)
    requires Perform(cfg, w, first) == Some(a) && Onwards(cfg, a, middle) == Some(b) && Perform(cfg, b, last) == Some(w')
    ensures Onwards(cfg, w, actions) == Some(w')
  {
    hide Perform;
    actions := [first] + middle + [last];
    assert Onwards(cfg, w', []) == Some(w') && [last][1..] == [];
    assert Onwards(cfg, b, [last]) == Some(w');
    OnwardsJoin(cfg, a, middle, [last]);
    assert actions[1..] == middle + [last];
  }

  /** Whenever the lease is free, a paid order's job is due and its records leave room for a
      handoff: a worker of the order's mode can make the job ready, with its credential
      published, and free the lease again; nobody else has to move. */
  lemma PaidJobCanBecomeReady(
    cfg: Config, w: World, pid: nat, owner: string, mode: DeploymentMode, now: int, at: int, d: int, order: Order, job: Job)
    returns (actions: seq<Action>, w': World)
    requires pid !in w.procs && cfg.sub != "" && owner != "" && at >= 0 && d >= 1 && at + d <= MAX_SAFE_INTEGER && IsFree(w.shard, at)
    requires w.shard.order == Some(order) && order.billingState == Active && IsProvisionableOrder(order) && order.mode == Some(mode)
    requires w.shard.job == Some(job) && JobOk(job) && job.subscriptionId == cfg.sub && job.operation == Provisioning
    requires StartProvisioningAttempt(job, now).Ok? && KeysAreFiled(w.shard.resources)
    requires HandoffIsOpen(w.shard, WorkerFor(cfg, w.shard, owner, mode, now, at, d), job)
    ensures Onwards(cfg, w, actions) == Some(w') && w'.procs == w.procs && IsFree(w'.shard, 0)
    ensures w'.shard.job.Some? && w'.shard.job.value.state == Ready && w'.shard.job.value.completedSteps == STEPS
    ensures cfg.handoffRequired && |job.completedSteps| <= 3 ==>
              var h := HandoffOf(job);
              && h in w'.shard.handoffs && w'.shard.handoffs[h].state == Published
              && w'.shard.handoffs[h].publication.Some? && w'.shard.handoffs[h].publication.value in w'.secrets
              && HasReceipt(w'.shard.resources, job)
  {
    hide Perform, LocalStep, JobOk, IsProvisionableOrder, StartProvisioningAttempt, Receipt, PointerMatchesJob, Keeps;
    var p := WorkerFor(cfg, w.shard, owner, mode, now, at, d);
    var a := WorkerStarts(cfg, w, pid, owner, mode, now, at, d);
    var l := Local(a.shard, a.secrets, Outside(RunOwned), []);
    var l' := RunCanMakeReady(cfg, p, l, order, job, at, d);
    var choices :| LocalRun(cfg, p, l, choices) == Some(l');
    hide LocalRun, MayGoOn, HandoffIsOpen;
    var middle, b := RunShows(cfg, a, pid, p, l, choices);
    w' := WorkerReleases(cfg, b, pid, p, l', at, d);
    actions := WholeRun(cfg, w, StartRun(pid, owner, at, d, mode, true, now), a, middle, b, Continue(pid, Go), w');
    assert w'.procs == w.procs;
  }

  /** And likewise for an order that ended or is past due: the job can be disabled, with
      every step undone that was completed or has a record. */
  lemma EndedJobCanBeDisabled(
    cfg: Config, w: World, pid: nat, owner: string, mode: DeploymentMode, now: int, at: int, d: int, order: Order, job: Job)
    returns (actions: seq<Action>, w': World, job': Job)
    requires pid !in w.procs && cfg.sub != "" && owner != "" && at >= 0 && d >= 1 && at + d <= MAX_SAFE_INTEGER && IsFree(w.shard, at)
    requires w.shard.order == Some(order) && HasProvisioningIdentity(order) && order.mode == Some(mode) && now >= 0
    requires order.billingState == PastDue || order.billingState == Canceled || order.billingState == Refunded
    requires w.shard.job == Some(job) && JobOk(job) && KeysAreFiled(w.shard.resources)
    requires job.state == JobState.Failed ==> !job.retryExhausted && job.nextRetryAt.Some? && now >= job.nextRetryAt.value
    requires HandoffOf(job) in w.shard.handoffs && w.shard.handoffs[HandoffOf(job)].subscriptionId == job.subscriptionId ==>
               PointerMatchesJob(w.shard.handoffs[HandoffOf(job)], job)
    ensures Onwards(cfg, w, actions) == Some(w') && w'.procs == w.procs && IsFree(w'.shard, 0)
    ensures w'.shard.job == Some(job') && job'.state == Disabled
    ensures job'.operation == if order.billingState == PastDue then Suspension else Compensation
    ensures AllIn(job'.completedSteps, job'.compensatedSteps)
    ensures forall k :: k in w.shard.resources && w.shard.resources[k].subscriptionId == cfg.sub ==> w.shard.resources[k].step in job'.compensatedSteps
  {
    hide Perform, LocalStep, JobOk, HasProvisioningIdentity, PointerMatchesJob, Keeps, AllIn;
    var p := WorkerFor(cfg, w.shard, owner, mode, now, at, d);
    var a := WorkerStarts(cfg, w, pid, owner, mode, now, at, d);
    var l := Local(a.shard, a.secrets, Outside(RunOwned), []);
    var l';
    l', job' := RunCanDisable(cfg, p, l, order, job, at, d);
    var choices :| LocalRun(cfg, p, l, choices) == Some(l');
    hide LocalRun, MayUndo;
    var middle, b := RunShows(cfg, a, pid, p, l, choices);
    w' := WorkerReleases(cfg, b, pid, p, l', at, d);
    actions := WholeRun(cfg, w, StartRun(pid, owner, at, d, mode, true, now), a, middle, b, Continue(pid, Go), w');
    assert w'.procs == w.procs;
  }
}
