# e-sig verification

Dafny models of the parts of e-sig that are hardest to get right, with proofs of what they
are for. `dafny verify dfyconfig.toml` checks the whole project.

**The provisioning control plane** (`infra/provisioning/src`). `Domain`, `Billing` and
`Jobs` are the record types, the billing-event reducer and the job transitions;
`BillingKinds` says what a replay means in terms of the kinds of its events. `Store` is the
in-memory store: a class whose methods are proved against decision functions, and what any
sequence of lease and handoff operations can do under arbitrary clocks; `Leases` and
`StoreWrites` say what that amounts to for whom acquires, claims and writes. `Protocol` is
the orchestrator as a transition system: any number of event handlers and workers, one
store or driver call per step, crashes and lease takeovers between any two steps.
`ProtocolSteps` summarises a step; `ProtocolCore`, `ProtocolEffects`, `ProtocolHandoff`,
`ProtocolOrders`, `ProtocolGuards` and `ProtocolRecords` prove invariants over all runs, and
`ProtocolProgress` that a worker which keeps its lease can always finish. `Deliveries` puts
the queue in front of it: messages that are delivered again until a run ends well.
`Wakeups` is about the messages that handlers report, and `Scenarios` holds concrete runs,
step by step from the empty store. `Orchestrator` and `Compensation` are the program's own
loops over the store, with rival writers at every point where the program waits.

**The post-quantum seal** (`packages/esig-core/src`). `Decimal`, `Base64`, `Json` and
`JsonProofs` are the printers and readers; `PdfText` and `PdfSeal` the append-only embedding
and its extraction, byte by byte; `Seal` and `Verdict` the building and verification of
seals; `Der` the byte ranges of a signed file and the recovery of its signature from the
/Contents hole.

**Smaller state machines.** `Envelopes` (multi-signer envelopes against a store that rejects
stale updates), `Waitlist` and `Backfill` (the outbox backfill beside atomic handler
writes), `KeyedMutex` and `Certs` (the promise-chain mutex, and one active certificate per
tenant).

Where the code does not do what its comments or a reader would expect, the code is modelled:

- The final plan, and the cursor of a terminal order, depend on the order in which events
  arrive. `Billing.PlanConvergesIffSettled` and `Billing.CursorConvergesIffSettled` say for
  which sets of events they do not.
- The comment on wake-ups says that a message is present only when a transition needs one.
  After a conflict it can be missing or superfluous, because the job is compared with the
  version read first: `Wakeups.ConflictLosesWakeup` and `Wakeups.ConflictRepeatsWakeup` are
  runs in which that happens, and `Wakeups.HandlerWakesIff` says exactly when it does not.
  Nothing depends on those messages: the queue delivers the events, and
  `Deliveries.PendingWorkHasMessage` shows that pending work always has one.
- The store takes record writes from anybody, so a worker that outlives its lease can leave
  an active record under a disabled job. `ProtocolRecords.DisabledLeavesNothingOn` says
  under which conditions nothing is left, and two runs show that both are needed.
- A reduction reported as stale can still change the order: an old refund or cancellation
  takes over. `Billing.StaleChangesNothingIff` says exactly when.
- Compensation of a job is not absorbing: a stale past-due handler can turn it into a
  suspension. `Orchestrator.StalePastDueIsRepaired` shows the repair.
- The verification of a classical signature speaks of the whole document. The size test on
  /ByteRange never looks at where the first range starts, so a file can pass whose first
  bytes are not covered. Nor does it look for a hole: a second range that starts at 0 makes
  the end of the hole negative, and the signature is read from covered bytes.
  `Der.RangesAreWholeFileIff` and `Verdict.SealedPrefixIsSignedIff` give the exact
  conditions, and `Der.PassesUncovered` and `Der.PassesWithoutHole` the files.
- The verification of a seal is documented never to throw. `Verdict.VerifyPqSeal` says
  exactly when it does; `Verdict.NumberedFingerprintThrows`, `Verdict.MissingKeysThrow` and
  `Verdict.UnprintableLengthThrows` give files for each of the three reasons.
- A keyed mutex does not keep calls of different keys apart, so an insert into the
  certificate file can be lost to an insert or a rotation for another tenant; `Certs.WriteKeepsOthersIff` says exactly when it is not.

How the environment enters: clock readings, provider answers, random ids and what other
processes do between two calls are parameters or arbitrary values. Loops that take a number
of `rivals` let other processes write up to that many times, for every number.

## Model

| member | source | states |
|---|---|---|
| `Billing.ReplayDescribes` | infra/provisioning/src/state-machine.ts:135-217 | whatever the order of delivery and however often events repeat, the order that results describes the set of delivered events: refunded if any refund, else canceled if any cancellation, else the state of the event with the maximal (time, precedence, id); latest-event fields are the (time, id) maximum |
| `Billing.DescriptionIsUnique` | infra/provisioning/src/state-machine.ts:72-102 | that description fixes billing state, latest event and, unless terminal, the cursor |
| `Billing.DeliveriesConverge` | infra/provisioning/src/state-machine.ts:135-217 | two deliveries of the same set of events agree on billing state, latest event and live cursor |
| `Billing.TerminalIsAbsorbing` | infra/provisioning/src/state-machine.ts:158-190 | a canceled or refunded subscription is never revived; only a refund still changes a canceled one |
| `Billing.IdentityIsImmutable` | infra/provisioning/src/state-machine.ts:104-119 | customer, owner and mode never change once known |
| `Billing.PlanCounterexample` | infra/provisioning/src/state-machine.ts:104-119 | three events whose plan depends on the order in which they arrive |
| `Billing.PlanConvergesIffSettled` | infra/provisioning/src/state-machine.ts:104-119 | for every set of events: the final plan is the same under all deliveries if and only if the set settles it |
| `Billing.CursorConvergesIffSettled` | infra/provisioning/src/state-machine.ts:181-190 | the state cursor of a set with a terminal event is the same under all deliveries if and only if one event decides it |
| `Billing.StaleChangesNothingIff` | infra/provisioning/src/state-machine.ts:205-215 | an event called stale leaves the order alone if and only if it brings no terminal state that takes over |
| `Billing.LateRefundIsCalledStale` | infra/provisioning/src/state-machine.ts:165-169 | a refund older than the latest event is called stale and still refunds |
| `Billing.TerminalPreservedIff` | infra/provisioning/src/state-machine.ts:162-173 | terminal-preserved is reported exactly when a terminal order met another wish that does not take over; state and cursor stay |
| `BillingKinds.StateIsSaid` | infra/provisioning/src/state-machine.ts:32-217 | the state of every replay, by the kinds of its events: refunded by a refund, else canceled by a cancellation, else past due if an event of the newest second reports a failed payment, else active if one reports a payment, else pending |
| `BillingKinds.StateWasSaid` | infra/provisioning/src/state-machine.ts:40-58 | an order is never in a state that no delivered event spoke of: active only if somebody paid |
| `BillingKinds.CursorNamesItsEvent` | infra/provisioning/src/state-machine.ts:72-91 | the cursor has time and id of an event that says what the state is, and the state's rank; a live order's is the greatest id of the newest second that says so |
| `BillingKinds.IdentityIsTheFirst` | infra/provisioning/src/state-machine.ts:104-119 | customer, owner and mode are what the first event that knew them said |
| `BillingKinds.ReportSays` | infra/provisioning/src/state-machine.ts:205-216 | each disposition says what happened: ignored, created, stale with or without news of the customer, applied |
| `Jobs.ApplyKeepsJobOk` | infra/provisioning/src/state-machine.ts:248-441 | every transition keeps the job invariant: completed steps a prefix, compensated ones a duplicate-free part of them, attempts bounded, a retry time exactly when failed and not exhausted |
| `Jobs.SameOperationNeverDisables` | infra/provisioning/src/state-machine.ts:356-369 | the disabling result of the same-operation branch of beginCompensation is unreachable for valid jobs |
| `Jobs.CompensationTakesLargest` | infra/provisioning/src/state-machine.ts:392-398 | the next compensation is the completed, uncompensated step of the largest index, and there is none exactly when all are compensated |
| `Jobs.HistoryEvolves` | infra/provisioning/src/state-machine.ts:219-441 | along every history of writes all versions are valid and each evolves from every earlier one |
| `Jobs.ActivationsFollowSuspension` | infra/provisioning/src/state-machine.ts:425-441 | along every history a new activation begins only with the resumption of a suspended job, from nothing and as the next one |
| `Jobs.WriteDecreasesWork` | infra/provisioning/src/state-machine.ts:248-422 | within an activation every write leaves strictly less work |
| `Jobs.WritesPerActivationAreBounded` | infra/provisioning/src/state-machine.ts:248-422 | so the writes of one activation are no more than the work that was left when it began, over any number of retries and takeovers |
| `Jobs.RetryDelaysAreBoundedAndGrow` | infra/provisioning/src/state-machine.ts:307-313 | retry delays never shrink from attempt to attempt, start at the base and are capped |
| `Jobs.RetryDelaysDouble` | infra/provisioning/src/state-machine.ts:307-313 | the first delay is the base, and each further one is twice the one before, up to the cap and for thirty attempts |
| `Jobs.FailedAttemptRestartsWhenDue` | infra/provisioning/src/state-machine.ts:248-336 | a failed attempt starts again exactly from its retry time on, while the failure was retryable and attempts are left; nothing completed is lost |
| `Jobs.RemainingStepsMakeReady` | infra/provisioning/src/state-machine.ts:279-305 | a running job becomes ready by completing the remaining steps in order, and not before the last |
| `Jobs.CompensationUndoesInReverse` | infra/provisioning/src/state-machine.ts:392-423 | a compensation undoes the completed steps in reverse order and disables the job with the last of them, not before |
| `Store.InMemoryProvisioningStore.ClaimEvent` | infra/provisioning/src/memory-store.ts:86-101 | first claim wins; the same payload is a duplicate, another one a conflict |
| `Store.InMemoryProvisioningStore.PutOrder` | infra/provisioning/src/memory-store.ts:114-144 | compare-and-set on the version with the guard on terminal states; otherwise nothing changes |
| `Store.InMemoryProvisioningStore.PutJob` | infra/provisioning/src/memory-store.ts:151-181 | compare-and-set on the version; a refusal changes nothing |
| `Store.InMemoryProvisioningStore.AcquireJobExecutionLease` | infra/provisioning/src/memory-store.ts:183-203 | a free or expired lease goes to the caller under the next fencing token; a lease that has not ended goes to nobody (Leases.AcquireSucceedsIff) |
| `Store.InMemoryProvisioningStore.RenewJobExecutionLease` | infra/provisioning/src/memory-store.ts:205-229 | only the unexpired holder of the token renews |
| `Store.InMemoryProvisioningStore.ReleaseJobExecutionLease` | infra/provisioning/src/memory-store.ts:231-244 | only the holder's release expires the lease; the token is kept |
| `Store.InMemoryProvisioningStore.BeginCredentialHandoff` | infra/provisioning/src/memory-store.ts:255-285 | a new pointer generation under an active lease, never over a revoked pointer |
| `Store.InMemoryProvisioningStore.BindCredentialHandoff` | infra/provisioning/src/memory-store.ts:287-311 | one secret per generation |
| `Store.InMemoryProvisioningStore.PublishCredentialHandoff` | infra/provisioning/src/memory-store.ts:313-330 | publishes the bound secret of the current generation only |
| `Store.InMemoryProvisioningStore.RevokeCredentialHandoff` | infra/provisioning/src/memory-store.ts:332-343 | revokes the current generation under an active lease |
| `Store.InMemoryProvisioningStore.ListResources` | infra/provisioning/src/memory-store.ts:356-363 | exactly the subscription's records, each once |
| `Store.InMemoryProvisioningStore.PutResource` | infra/provisioning/src/memory-store.ts:365-394 | immutable evidence keeps its first value; identity and retention never change under a key |
| `Store.TokensGrow` | infra/provisioning/src/memory-store.ts:183-203 | with arbitrary clocks, fencing tokens never go back and every acquisition makes a new one |
| `Store.SupersededIsFenced` | infra/provisioning/src/memory-store.ts:205-244 | a superseded token never again renews, releases or mutates |
| `Store.AuthorisingTokensNeverDecrease` | infra/provisioning/src/memory-store.ts:345-354 | the tokens that authorise successful handoff mutations form a nondecreasing sequence |
| `Store.PointerOnlyAdvances` | infra/provisioning/src/memory-store.ts:255-343 | along every run a pointer's generation never goes back, revoked is final, and a bound secret is never replaced in its generation |
| `Store.BeginOpensNewGeneration` | infra/provisioning/src/memory-store.ts:255-285 | a successful begin over a pointer raises its generation by one |
| `Store.SecretWasBoundInItsGeneration` | infra/provisioning/src/memory-store.ts:287-311 | whatever secret a pointer carries was bound in that pointer's own generation |
| `Store.PublicationIsCurrent` | infra/provisioning/src/memory-store.ts:313-330 | a secret is published only while the generation that bound it is current and unrevoked |
| `Store.RecordsAreKept` | infra/provisioning/src/memory-store.ts:365-394 | no record disappears, and immutable evidence never changes |
| `StoreWrites.FirstClaimWins` | infra/provisioning/src/memory-store.ts:86-101 | in any run of claims the first of an event wins, and each later one is a duplicate or a conflict by whether its payload is that of the first |
| `StoreWrites.OrderPutSucceedsIff` | infra/provisioning/src/memory-store.ts:114-149 | in any run of order writes, whatever is sent: a write succeeds exactly if nobody wrote since the version that it says it read and it does not leave a terminal state; a stale version alone is worth another attempt |
| `StoreWrites.TerminalOrdersStay` | infra/provisioning/src/memory-store.ts:114-149 | whatever callers send, a refunded order stays refunded and a canceled one canceled or refunded |
| `StoreWrites.JobPutSucceedsIff` | infra/provisioning/src/memory-store.ts:151-181 | in any run of job writes: a write succeeds exactly if nobody wrote since the version that it says it read and the job is the subscription's own |
| `Leases.AcquireSucceedsIff` | infra/provisioning/src/memory-store.ts:183-203 | in any run, whoever asks: a valid request is granted exactly if there was no lease, or the last one was released, or has ended by the clock of who asks |
| `Leases.LeaseExcludes` | infra/provisioning/src/memory-store.ts:183-203 | a lease that was granted or renewed excludes everybody until the time that was asked for, unless it is renewed or released first |
| `Leases.RenewSucceedsIff` | infra/provisioning/src/memory-store.ts:205-229 | a renewal succeeds exactly for the owner and the token of the last acquisition, and before the end of its lease |
| `Leases.MutationIsHeld` | infra/provisioning/src/memory-store.ts:255-351 | handoffs are changed only before the end of the lease by whom acquired it last; a new pointer carries that token and the generation after the one seen, and what is bound, published or revoked is the generation seen |
| `Leases.HolderPublishes` | infra/provisioning/src/memory-store.ts:255-351 | the holder can begin, bind, publish and revoke, with exactly these effects |
| `ProtocolCore.StepKeepsCore` | infra/provisioning/src/orchestrator.ts:77-126 | every step of every process keeps the history of job versions, the snapshots that processes hold and the lease tokens consistent |
| `ProtocolEffects.EveryEffectIsCovered` | infra/provisioning/src/orchestrator.ts:92-126 | under every interleaving with crashes and takeovers: an effect of the current activation not undone since is a completed step, or the step in flight; once compensation has begun it is completed and not compensated |
| `ProtocolEffects.DisabledLeavesNoEffect` | infra/provisioning/src/orchestrator.ts:719-787 | a disabled job leaves no effect of its activation uncompensated |
| `ProtocolEffects.StoredJobsAreTransitions` | infra/provisioning/src/orchestrator.ts:77-90 | every stored job version comes from the one before by a job transition, is valid and evolves from all earlier ones |
| `ProtocolHandoff.CompensationFollowsRevocation` | infra/provisioning/src/orchestrator.ts:728-769 | every compensation call follows the revocation, or the absence, of its activation's pointer, and the pointer stays closed |
| `ProtocolHandoff.DisabledHasNoPublishedCredential` | infra/provisioning/src/orchestrator.ts:719-787 | a disabled job has no published pointer for its current activation |
| `ProtocolHandoff.CompletedCredentialIsPublished` | infra/provisioning/src/orchestrator.ts:457-580 | when the driver needs the handoff, a completed credential step under provisioning means a published pointer whose secret exists |
| `ProtocolOrders.TerminalGuardNeverFires` | infra/provisioning/src/memory-store.ts:125-134 | the store's guard on terminal orders accepts everything that the reducer produces |
| `ProtocolOrders.StoredOrderDescribesCommitted` | infra/provisioning/src/orchestrator.ts:152-177 | for any handlers, conflicts and redeliveries, the stored order describes exactly the set of committed events |
| `ProtocolOrders.InterleavingsConverge` | infra/provisioning/src/orchestrator.ts:152-177 | two interleavings that committed the same events agree on billing state and latest event |
| `ProtocolGuards.LoopsMatchMode` | infra/provisioning/src/orchestrator.ts:833-847 | in every reachable world a worker inside its loops is of the mode of the stored order |
| `ProtocolGuards.EffectsAreCalledFor` | infra/provisioning/src/orchestrator.ts:789-886 | every provider call is made by a worker of the order's mode; a step only after some stored version of the order called for service in that mode, so that an event reported a payment; a compensation only on behalf of a job that a failed payment, a cancellation or a refund turned |
| `ProtocolGuards.JobsAreCalledFor` | infra/provisioning/src/orchestrator.ts:180-239 | every job version was called for by a version of the order: its tenant's mode by one that was paid for, a suspension by one past due, an end by a canceled or refunded one |
| `ProtocolGuards.HandlersAreCalled` | infra/provisioning/src/orchestrator.ts:180-239 | a handler creates, resumes or turns a job only if the order that its own event left calls for that |
| `ProtocolGuards.RunDecides` | infra/provisioning/src/orchestrator.ts:812-885 | a started job is worked on exactly in the order's own mode and for an order that calls for service; else a failure is saved that is not worth another attempt |
| `ProtocolGuards.ConflictsAreRetried` | infra/provisioning/src/orchestrator.ts:92-130 | how often a conflict is worth another attempt: an order is written up to four times, a job turned up to three times, a run begun again up to twice |
| `ProtocolGuards.FailuresAreSaved` | infra/provisioning/src/orchestrator.ts:653-669 | whatever is thrown inside a loop is saved on the job, a provider's error after its effect too |
| `ProtocolGuards.FailureIsStored` | infra/provisioning/src/orchestrator.ts:653-669 | a saved failure keeps the steps, names the error, and sets a time for another attempt exactly if it is worth one and attempts are left |
| `ProtocolGuards.CredentialHasAPlace` | infra/provisioning/src/orchestrator.ts:609-624 | over every run, the driver is asked for a credential only by a worker that can hand it over, if it has to be handed over |
| `ProtocolGuards.CredentialIsNotDropped` | infra/provisioning/src/orchestrator.ts:525-580 | a credential that the driver returned is bound to the pointer begun for it, or the attempt fails; without one that was expected the attempt fails and may be made again |
| `ProtocolProgress.PaidJobCanBecomeReady` | infra/provisioning/src/orchestrator.ts:599-651 | from any world with a free lease, a paid order and a due job: a worker of its mode alone can make the job ready, its credential published and its secret there, and free the lease |
| `ProtocolProgress.EndedJobCanBeDisabled` | infra/provisioning/src/orchestrator.ts:719-769 | and for an order that is past due or ended, it can disable the job, with every step undone that was completed or has a record |
| `ProtocolProgress.ProvisioningCanFinish` | infra/provisioning/src/orchestrator.ts:599-651 | from the head of the loop the remaining steps are completed in their order, with one driver call each, wherever the handoff was left |
| `ProtocolProgress.CompensationCanFinish` | infra/provisioning/src/orchestrator.ts:719-769 | from the head of the loop the steps that are left are undone, with one driver call each, and the pointer is closed |
| `Orchestrator.CasOutcome` | infra/provisioning/src/orchestrator.ts:163-175 | a reduction of an order that was read commits exactly when nobody committed since |
| `Orchestrator.ReduceAndStoreOrder` | infra/provisioning/src/orchestrator.ts:152-177 | success means that the event was committed last; giving up means that it was not and that rivals won at least four times; either way the stored order is the replay of what was committed; an ignored event changes nothing |
| `Orchestrator.TransitionToCompensation` | infra/provisioning/src/orchestrator.ts:92-126 | ends with a job on the wanted operation whose completed steps account for every record, or after rivals wrote the job three times; it says which version was replaced |
| `Orchestrator.UpdateJobForOrder` | infra/provisioning/src/orchestrator.ts:190-239 | without rivals the outcome is given for every order and job: nothing, the job turned, a new job for the order's mode, the next activation of a suspended one, or a policy refused; whatever interferes, the message is right exactly if the transition leaves nothing to undo, or the job read first and the one replaced agree on whether compensation was under way |
| `Orchestrator.ProcessClaimedStripeEvent` | infra/provisioning/src/orchestrator.ts:180-239 | the event is committed, the order returned is the replay, the job is on the operation that the order asks for and accounts for every record; with fewer than four rivals for the order and none for the job a valid event succeeds |
| `Orchestrator.StalePastDueIsRepaired` | infra/provisioning/src/orchestrator.ts:191-194 | a stale past-due handler turns compensation into suspension without forgetting a step, and the next run for the terminal order undoes every completed step again |
| `Wakeups.WakeupIsRightIff` | infra/provisioning/src/orchestrator.ts:195-201 | of any job read first and any job replaced: the test on the first one gives the right message if and only if the transition leaves nothing to undo, or both agree on whether compensation was under way |
| `Wakeups.HandlerWakesIff` | infra/provisioning/src/orchestrator.ts:180-239 | over all runs of handlers and workers: a handler's message is present exactly if it made work pending, unless it ended with a transition after a conflict, where the condition above is exact; without a conflict it is always right |
| `Wakeups.ConflictLosesWakeup` | infra/provisioning/src/orchestrator.ts:117-122 | a run from the empty store, step by step, at whose end a handler makes a job compensating and reports no message |
| `Wakeups.ConflictRepeatsWakeup` | infra/provisioning/src/orchestrator.ts:117-122 | a run at whose end a handler changes nothing and reports a second message for the same compensation |
| `Deliveries.PendingWorkHasMessage` | infra/provisioning/src/handlers/worker.ts:84-111 | whatever crashes, conflicts and takeovers occur and however deliveries interleave: while the job is neither ready nor disabled, the queue holds a message that is not about to be acknowledged |
| `Deliveries.AcknowledgedMeansAgreed` | infra/provisioning/src/handlers/worker.ts:84-111 | delivered one at a time, in any order and with any failures: whenever a message is acknowledged, an ended order has no job or one that its operation disabled, and a provisionable order has a ready one |
| `Deliveries.DrainedMeansAgreed` | infra/provisioning/src/aws/provisioning-queue.ts:40-47 | so order and job agree once all messages are acknowledged |
| `ProtocolRecords.RunKeepsRecords` | infra/provisioning/src/memory-store.ts:365-394 | along every run of handlers and workers, receipts included: no record disappears or changes identity or retention, and evidence never changes |
| `ProtocolRecords.EvidenceIsRetained` | infra/provisioning/src/orchestrator.ts:365-393 | along every run evidence has the status of evidence, and nothing else has |
| `ProtocolRecords.DisabledLeavesNothingOn` | infra/provisioning/src/orchestrator.ts:672-787 | over all interleavings in which provisioning steps write records under the lease and for the stored activation and compensations return evidence: a disabled job leaves every mutable record inactive in the way its step demands |
| `ProtocolRecords.SupersededLeavesOn` | infra/provisioning/src/memory-store.ts:365-394 | a run in which a worker whose lease was taken over writes a record that stays active under a disabled job |
| `ProtocolRecords.EarlierActivationLeavesOn` | infra/provisioning/src/state-machine.ts:425-441 | a run in which the lease holder does so, for an activation that was suspended and resumed meanwhile |
| `ProtocolRecords.DeliveredLeavesNothingOn` | infra/provisioning/src/handlers/worker.ts:84-111 | with messages delivered one at a time both conditions hold, so a disabled job leaves no record on |
| `Compensation.PersistStepResources` | infra/provisioning/src/orchestrator.ts:365-394 | stores a record for every returned resource, mutable ones active, evidence under its first value; touches no other step's records and no evidence, and loses none |
| `Compensation.ApplyCompensationDispositions` | infra/provisioning/src/orchestrator.ts:672-717 | succeeds exactly when every mutable record has its required disposition, and then all are turned off; evidence and other records stay |
| `Compensation.CloseHandoff` | infra/provisioning/src/orchestrator.ts:735-750 | on success the activation's pointer is revoked or absent; no other pointer changes |
| `Compensation.CompensateStep` | infra/provisioning/src/orchestrator.ts:726-771 | one turn: when it is saved, the step is marked compensated, its handoff is closed and every record that it had is turned off |
| `Compensation.RunCompensationSteps` | infra/provisioning/src/orchestrator.ts:719-787 | beside event handlers, but no other worker: when it drives the job to disabled everything is undone; however it ends, what the stored job calls compensated is turned off |
| `Compensation.RunEndingJob` | infra/provisioning/src/orchestrator.ts:789-866 | beside event handlers, but no other worker: a run for a past-due or terminal order that itself drives the job to disabled leaves every step with a record compensated and every earlier record evidence or turned off as its step demands, however often handlers interfere; the premise of the next run holds again, and the recovery recursion ends |
| `Decimal.ReadsBack` | packages/esig-core/src/pq-embed.ts:95-106 | a printed number reads as itself |
| `Decimal.PaddedReadsBack` | packages/esig-core/src/pq-embed.ts:95-95 | padding with zeros keeps the value |
| `Base64.RoundTrip` | packages/esig-core/src/pq-embed.ts:79-79 | base64 decoding undoes encoding for every length |
| `JsonProofs.ParseUndoesPrinting` | packages/esig-core/src/pq-seal.ts:497-514 | parsing gives back exactly what JSON.stringify printed, and what canonicalJson printed up to the order of keys |
| `JsonProofs.CanonicalIffSameMeaning` | packages/esig-core/src/pq-seal.ts:497-514 | canonical texts are equal if and only if the values mean the same: key order never matters, and no two values are confused |
| `JsonProofs.CanonicalIsPaired` | packages/esig-core/src/pq-seal.ts:497-514 | a canonical text has no lone surrogates, whatever the strings contain |
| `JsonProofs.CanonicalSortsKeys` | packages/esig-core/src/pq-seal.ts:497-514 | canonical text reads as the value with the keys of every object in ascending order of code units |
| `JsonProofs.StringifyIsPaired` | packages/esig-core/src/pq-embed.ts:79-79 | neither has a stringified one |
| `PdfText.NoMatchAcross` | packages/esig-core/src/pq-embed.ts:32-32 | no match of the seal pattern straddles the join of file and update |
| `PdfText.SealObjectMatches` | packages/esig-core/src/pq-embed.ts:27-29 | a seal object is matched where it stands, with any white space that the pattern allows, and its base64 text is captured |
| `PdfText.MatchIsSealObject` | packages/esig-core/src/pq-embed.ts:27-29 | what is matched is such an object |
| `PdfSeal.UpdateCanBeFollowed` | packages/esig-core/src/pq-embed.ts:77-112 | character by character: the file is a prefix of the result; the number after the last startxref is where the new section stands; its entry of ten digits is where the object of that number stands; and /Prev is where the section before stands |
| `PdfSeal.TrailerReadsBack` | packages/esig-core/src/pq-embed.ts:49-75 | the program reads back the trailer that it writes, behind any file |
| `PdfSeal.EmbedAdvancesTrailer` | packages/esig-core/src/pq-embed.ts:77-110 | re-reading the result gives the same /Root and /Info, /Size + 1 and the new section's offset |
| `PdfSeal.ChainsUseFreshObjects` | packages/esig-core/src/pq-embed.ts:77-110 | a file that takes one seal takes any number; each update keeps what was there and uses the next object number |
| `PdfSeal.ChainObjectsAreDistinct` | packages/esig-core/src/pq-embed.ts:81-81 | different updates of a chain use different object numbers at growing offsets |
| `PdfSeal.ExtractReturnsEmbedded` | packages/esig-core/src/pq-embed.ts:123-132 | for every file without an earlier seal and every later suffix, extraction returns exactly the embedded bytes |
| `PdfSeal.LaterSealsAreIgnored` | packages/esig-core/src/pq-embed.ts:112-122 | a second seal never replaces the first |
| `Seal.BuiltSealVerifies` | packages/esig-core/src/pq-seal.ts:342-454 | both signatures, the fingerprint, the key id and the identity of every built seal check |
| `Seal.BuiltSealIsWellFormed` | packages/esig-core/src/pq-seal.ts:356-378 | a built seal is a value that both printers print faithfully |
| `Seal.BuiltSealSays` | packages/esig-core/src/pq-seal.ts:342-379 | a built seal says the digest, length, time and identity that were asked for, names the public keys of its keys, and carries what these keys sign of everything else in it |
| `Seal.BuildsIff` | packages/esig-core/src/pq-seal.ts:342-353 | a seal is built exactly for 64 lower-case hexadecimal digits, a positive length, and no identity or a well-formed one |
| `Seal.PassingSealNamesItsKeys` | packages/esig-core/src/pq-seal.ts:385-455 | whoever made it, a passing seal carries keys of the right lengths, the digest of both as its key id and that of the second as its fingerprint |
| `Seal.UuaidIff` | packages/esig-core/src/pq-seal.ts:79-109 | an identity is well-formed exactly if it is three or four non-empty segments of the alphabet behind the prefix, in at most 255 units |
| `Seal.SignedBytesIffSameFields` | packages/esig-core/src/pq-seal.ts:406-409 | what both schemes sign is the same for two seals if and only if they mean the same in every field but their signatures |
| `Seal.SignatureBindsFields` | packages/esig-core/src/pq-seal.ts:388-454 | two seals that pass under the same key and signature of either scheme mean the same in every field, or else that key has signed, with that one signature, the two different messages that the seals sign |
| `Seal.AlteredFieldIsRefused` | packages/esig-core/src/pq-seal.ts:388-454 | a passing seal with any field altered, beside its keys and signatures, fails, or both of its keys have signed two messages with one signature |
| `Verdict.VerifyPqSeal` | packages/esig-core/src/pq-verify.ts:90-170 | the verdict is positive exactly for accepted files, and each complaint is made exactly for its own reason; documented never to throw, it throws exactly for three kinds of seal: one whose covered length has no text form, under a pinned fingerprint one whose own is not text, and under a valid certificate one without keys |
| `Verdict.NumberedFingerprintThrows` | packages/esig-core/src/pq-verify.ts:137-137 | a seal with a number for a fingerprint, in any file that can be sealed, makes it throw under every pinned fingerprint |
| `Verdict.MissingKeysThrow` | packages/esig-core/src/pq-verify.ts:159-166 | a seal without keys, in any file that can be sealed, makes it throw under every valid certificate |
| `Verdict.UnprintableLengthThrows` | packages/esig-core/src/pq-verify.ts:109-114 | a seal that covers an object with a toString of its own, in any file that can be sealed, makes it throw whatever the options |
| `Verdict.CheckIdentity` | packages/esig-core/src/pq-verify.ts:131-166 | each pin that is set must be met, a certificate being valid and of the seal's own fingerprint, and each that is not met is complained about; it throws exactly when a fingerprint that is pinned is not text or a valid certificate finds no keys |
| `Verdict.VerifyDocument` | packages/esig-core/src/pq-verify.ts:201-234 | a document is good exactly when its classical signature is good for the text it covers and its seal is accepted and ends before the hole, or, without a seal, none is required |
| `Verdict.SealedPrefixIsSignedIff` | packages/esig-core/src/pq-verify.ts:212-222 | a sealed prefix is covered by the classical signature if and only if it ends before the hole and the first byte range starts at 0, or the second one starts at 0 |
| `Verdict.ClassicalVerdictIgnoresFront` | packages/esig-core/src/verify-pdf.ts:117-124 | text in front of a file, with byte ranges of its own that are shifted by its length: the file is good if and only if it was good without that text and its second range does not start at 0, or the text is empty |
| `Verdict.EmbeddedSealIsExtracted` | packages/esig-core/src/pq-embed.ts:77-132 | the value extracted from a sealed file is the value that was embedded |
| `Verdict.SealedDocumentIsAccepted` | packages/esig-core/src/pq-verify.ts:90-170 | for every file without an earlier seal, keys, time, identity and suffix: it can be sealed exactly if its trailer can be read, and then it is accepted if and only if the pins are those of the signing key, in either case, and of the identity |
| `Verdict.PassingSealMeetsPinsIff` | packages/esig-core/src/pq-verify.ts:131-166 | a passing seal meets exactly the pins of the key that it carries and of the identity that it asserts |
| `Verdict.AcceptedFilesAgree` | packages/esig-core/src/pq-verify.ts:90-170 | two files accepted under the same keys and signatures agree on every sealed byte, or their sealed prefixes collide under SHA-256, or both keys have signed two messages with one signature |
| `Der.ComputeDerTotalLength` | packages/esig-core/src/verify-pdf.ts:401-411 | the loop computes the length that the header declares |
| `Der.LengthOfSequence` | packages/esig-core/src/verify-pdf.ts:401-411 | for every sequence in a definite form with at most four length octets the length is its own, whatever follows |
| `Der.LengthIff` | packages/esig-core/src/verify-pdf.ts:401-411 | a length is computed exactly for what begins with the header of a sequence in a definite form with at most four length octets, and it is that sequence's; anything else is refused |
| `Der.SpellingThenMore` | packages/esig-core/src/verify-pdf.ts:90-95 | reading hexadecimal text gives the bytes that it spells, two digits a byte in either case, whatever follows |
| `Der.HoleGivesSequence` | packages/esig-core/src/verify-pdf.ts:89-102 | a hole whose digits spell a sequence and then anything, with whatever between the digits, gives back exactly the sequence, whatever its last bytes |
| `PdfText.ByteRangeMatches` | packages/esig-core/src/verify-pdf.ts:73-73 | a /ByteRange array is matched where it stands, with its four numerals |
| `Der.WrittenRangeIsFound` | packages/esig-core/src/verify-pdf.ts:73-79 | an array that is written into a file is found with its numbers, unless another one comes first |
| `Der.SignedFileGivesSequence` | packages/esig-core/src/verify-pdf.ts:73-102 | the same for the hole of a whole signed file, whose own range is the first /ByteRange array in it |
| `Der.ReadContents` | packages/esig-core/src/verify-pdf.ts:68-102 | the first array is found and the checks are made in their order, with the three structural failures; an end of the hole before the file counts from the file's end |
| `Der.RangesAreWholeFileIff` | packages/esig-core/src/verify-pdf.ts:81-102 | of a file that passes, ranges and hole are the file from the first range on if the second range does not start at 0, else the first range and then the whole file; they are the whole file if and only if the first range starts at 0, or else is empty |
| `Der.PassesUncovered` | packages/esig-core/src/verify-pdf.ts:81-87 | a file that passes although no range covers its first two bytes |
| `Der.PassesWithoutHole` | packages/esig-core/src/verify-pdf.ts:81-102 | a file that passes with a second range that starts at 0, so that its signature is read from bytes that are covered |
| `Der.TextInFrontIsNotCovered` | packages/esig-core/src/verify-pdf.ts:81-124 | unless the second range starts at 0: with any text in front and the ranges shifted by its length, the test passes again, and the same signature is read over the same covered text |
| `Der.TextInFrontIsRefused` | packages/esig-core/src/verify-pdf.ts:81-124 | if it starts at 0, the whole file is covered, and no signature is found behind any text in front |
| `Der.TrimmingRecoversIff` | packages/esig-core/src/verify-pdf.ts:83-86 | cutting trailing zeros instead recovers the bytes if and only if their own last byte is not zero |
| `Envelopes.CreatedIsOk` | packages/esig-core/src/envelope.ts:116-161 | a created envelope satisfies the invariant |
| `Envelopes.CreatedAsAsked` | packages/esig-core/src/envelope.ts:124-172 | creating fails exactly for invalid input, and else gives a sent envelope with the signers as they were named, in their order |
| `Envelopes.WorkingCopy.Resolve` | packages/esig-core/src/envelope.ts:177-207 | the gates in their order; the only change is the lazily applied expiry |
| `Envelopes.WorkingCopy.RecordSignature` | packages/esig-core/src/envelope.ts:216-258 | which answer is given to whom, and what is stored: success exactly for a signer whose turn it is, in a live envelope, with an image; then that signer's entry alone is signed, and the last one completes the envelope |
| `Envelopes.WorkingCopy.DeclineEnvelope` | packages/esig-core/src/envelope.ts:261-282 | what is stored, and when nothing is; success voids the envelope |
| `Envelopes.OperationKeepsOk` | packages/esig-core/src/envelope.ts:177-302 | every operation keeps the invariant and every signature already given |
| `Envelopes.RunsAreOk` | packages/esig-core/src/envelope.ts:177-302 | along all runs with stale updates rejected: all have signed exactly when the envelope is completed, and nobody signed out of turn |
| `Envelopes.SignedNeverChanges` | packages/esig-core/src/envelope.ts:247-250 | signed entries never change |
| `Envelopes.CompletedIsFinal` | packages/esig-core/src/envelope.ts:252-257 | nothing is stored over a completed envelope |
| `Envelopes.ClosedStaysClosed` | packages/esig-core/src/envelope.ts:177-299 | a voided or expired envelope is never live again: its signers stay as they are, and it can only be voided |
| `Envelopes.SignaturesFollowOrder` | packages/esig-core/src/envelope.ts:201-204 | signatures are given in nondecreasing signing order |
| `Envelopes.LiveEnvelopeHasATurn` | packages/esig-core/src/envelope.ts:177-207 | a live, unexpired envelope always has a signer whose token resolves |
| `Envelopes.CompletedComposes` | packages/esig-core/src/envelope.ts:312-333 | composing succeeds exactly when all have signed, and gives the document that was sent and a block for each signer with that signer's own name, address, image and date |
| `Waitlist.HandlerAndBackfillAgree` | infra/waitlist/src/handler.js:287-328 | the backfill expects for a stored submission exactly the outbox row that the handler wrote |
| `Waitlist.OutboxIff` | infra/waitlist/src/handler.js:287-328 | a submission has an outbox row exactly if it is a production submission with a random id, for an allowed offer, that expires after the days of its class, 30 to 180 |
| `Waitlist.ValidSourceIff` | infra/waitlist/src/backfill-outbox.js:54-76 | a row is taken exactly with a well-formed key, one of the two types, an integer expiry, and a version only together with a random id |
| `Waitlist.SubmissionHasOutboxIff` | infra/waitlist/src/handler.js:226-328 | a created submission has an outbox row exactly if it is a production submission for an allowed offer kept 30 to 180 days |
| `Waitlist.ProjectionFollowsId` | infra/waitlist/src/backfill-outbox.js:86-107 | a new id changes nothing in a projection but the id |
| `Backfill.Tables.PutSubmission` | infra/waitlist/src/handler.js:330-391 | row and outbox row are stored together or not at all; a submission is a duplicate exactly if its key is taken and nothing else is wrong, and an invalid projection or a taken outbox key is an error |
| `Backfill.ScanAll` | infra/waitlist/src/backfill-outbox.js:159-175 | every row that was there when the scan began is listed once and is still there |
| `Backfill.NextOpaqueId` | infra/waitlist/src/backfill-outbox.js:119-125 | the drawn id differs from the previous one |
| `Backfill.MigrateSource` | infra/waitlist/src/backfill-outbox.js:193-252 | migrates the row in one transaction, with exactly the stated effect on the row, its outbox row and the old outbox row, or changes nothing itself; before and after, handlers only add rows |
| `Backfill.ProcessItem` | infra/waitlist/src/backfill-outbox.js:268-300 | a row that is skipped has its id and, if it needs one, its outbox row |
| `Backfill.MigrationAlone` | infra/waitlist/src/backfill-outbox.js:193-252 | a migration settles its row and leaves the others as they were |
| `Backfill.SettledMeans` | infra/waitlist/src/backfill-outbox.js:264-288 | a settled row has a random id, and if it has not expired its outbox row carries its own id, offer, creation, retention and expiry |
| `Backfill.ExpiredNeedsNothing` | infra/waitlist/src/backfill-outbox.js:266-272 | a row with a random id that is a smoke test or has expired needs no outbox row |
| `Backfill.RunPass` | infra/waitlist/src/backfill-outbox.js:263-316 | a pass that had nothing to do leaves all rows settled; alone, every pass settles all rows |
| `Backfill.Run` | infra/waitlist/src/backfill-outbox.js:254-321 | verified means that every row has a random id and every unexpired submission its outbox row, with handlers interleaved; alone it verifies in at most two passes |
| `KeyedMutexes.KeyedMutex.QueueUp` | packages/esig-gateway/src/stores.ts:117-124 | a call queues behind the tail that it found |
| `KeyedMutexes.KeyedMutex.Release` | packages/esig-gateway/src/stores.ts:129-133 | a call's entry is dropped only if nobody queued behind |
| `KeyedMutexes.RunsAreOk` | packages/esig-gateway/src/stores.ts:112-135 | calls of a key form one chain in order of arrival, whatever is dropped |
| `KeyedMutexes.MutualExclusion` | packages/esig-gateway/src/stores.ts:112-135 | of one key at most one call is inside |
| `KeyedMutexes.FirstComeFirstServed` | packages/esig-gateway/src/stores.ts:112-135 | who has entered has seen every earlier call of the key leave |
| `KeyedMutexes.FirstWaiterMayEnter` | packages/esig-gateway/src/stores.ts:112-135 | unless a call of the key is inside, its first waiter may enter |
| `KeyedMutexes.TailsAreBusy` | packages/esig-gateway/src/stores.ts:131-133 | an entry of the map stands for a call that is not done |
| `Certs.FsCertStore.Insert` | packages/esig-core/src/fs-adapters.ts:85-109 | the loop deactivates the tenant's rows and the new row is the active one |
| `Certs.FsCertStore.TurnOff` | packages/esig-core/src/fs-adapters.ts:111-118 | the first row of the id, and no other, becomes inactive |
| `Certs.EnsureActiveCert` | packages/esig-core/src/cert-lifecycle.ts:22-52 | the one active row of the tenant is returned: the old one exactly while it is valid, else a new one naming its predecessor |
| `Certs.FileHasOneActive` | packages/esig-core/src/fs-adapters.ts:85-118 | with lost updates under any interleaving, no content of the file has two active rows of a tenant |
| `Certs.WriteKeepsOthersIff` | packages/esig-core/src/fs-adapters.ts:85-118 | an insert or deactivation that is not about a tenant keeps that tenant's active row if and only if what it read of the tenant is still what is there, or it finds nothing to deactivate |
| `Certs.InsertIsLost` | packages/esig-core/src/fs-adapters.ts:85-109 | two inserts for different tenants that read the same file lose the first tenant's certificate, so that its next call mints again |
| `Certs.InsertIsLostToRotation` | packages/esig-core/src/fs-adapters.ts:85-118 | a deactivation for one tenant that read the file before an insert for another loses the inserted certificate |
| `Certs.OneMintPerExpiry` | packages/esig-core/src/cert-lifecycle.ts:22-52 | with atomic store calls under the mutex, however many calls race, certificates rotate and calls fail: of two certificates of a key the older one is inactive, and a call of the key had seen it expired |
| `Certs.ReturnedIsActive` | packages/esig-core/src/cert-lifecycle.ts:22-52 | what a call inside the mutex is about to return is its key's one active certificate |
| `Certs.OneCertificatePerKey` | packages/esig-core/src/cert-lifecycle.ts:22-52 | so two calls of a key return the same certificate, unless a call of the key has seen the older of the two expired |

## Left out

Assumptions and simplifications:

- Deterministic ids (tenant, job, resource key, handoff, publication) are constructor terms, so they are injective; digests and separators inside them are not modelled.
- Event ids are ranks in the order of `localeCompare`, taken to be a total order; rank 0 is the empty string.
- Clock readings are integers; NaN and fractional times do not occur. Fractional retry delays do not occur either.
- Optional triples on a handoff pointer (secret, publication, credential) are one optional descriptor.
- Provider calls are assumed to finish inside the lease under which they were made, as the program's configuration demands (infra/provisioning/src/domain.ts:188-190). The store fences lease renewals, releases and handoff mutations; it takes job and record writes from anybody, and so does the model.
- The lease that a worker presents keeps the value with which it was acquired; only owner and token are ever compared.
- Handoff operations are issued with a lease of the same subscription. A secret exists exactly if it was created.
- The safety patterns on resource kinds and ids are arbitrary refusals.
- A failing driver call may or may not have had its effect; an effect is one log entry, whatever it consists of.
- A message has one delivery at a time, because the queue hides it for longer than a delivery can last. A message that was received too often and moved to the dead-letter queue counts as unacknowledged.
- Objects have no repeated keys, and numbers are safe integers, as in seals. The JSON reader knows no white space, fractions or exponents; UTF-8 is assumed to be lossless on text without lone surrogates, and both printers are proved to print only such text.
- Object numbers and offsets are unbounded; those beyond 2^53 would lose digits in the program.
- Hash and signature schemes are functions with the laws that `Seal.Sound` states; `Seal.SoundPlatformExists` shows that the laws can be met. Nothing is assumed against forgery: theorems name the collision or the double signature that would break them.
- A seal's base64 fields must be strings; the program would also accept arrays of bytes. A `coveredBytes` that is not a number is refused, and the comparison with the end of the first range is left out for it: the seal has failed already, so the comparison could only add a complaint.
- What X.509 parsing and the validity test say of a signer certificate, and its key's fingerprint, are parameters. Stack and memory are unbounded: a seal nested so deeply that converting it overflows the stack does not occur.
- What `Buffer` does with characters behind a padding sign in the middle of base64 text is not modelled: they are read.
- Lower-casing changes ASCII letters only; a fingerprint that checks is ASCII.
- Token hashes are distinct within an envelope, since tokens are random. Signer ids, titles, roles, decline reasons and metadata are carried along by the program and not modelled.
- In the backfill rows are not deleted meanwhile; a creation time is exact ISO text, known by its milliseconds, or other text.

Stated weaker than one might wish:

- Compensation.RunCompensationSteps: no other worker writes during the run, and nothing is said of when it succeeds, because clocks and the driver are arbitrary; ProtocolProgress.CompensationCanFinish shows that it can; ProtocolRecords.DisabledLeavesNothingOn covers all interleavings of handlers and workers, and ProtocolRecords.SupersededLeavesOn shows what goes wrong without that assumption.
- Compensation.RunEndingJob: no other worker writes during the run, and the order stays ended; that it can succeed is ProtocolProgress.EndedJobCanBeDisabled; mutable records that a compensation itself newly emits are not claimed to be turned off, because the program leaves them active. It covers every record that existed before.
- ProtocolRecords.DisabledLeavesNothingOn: mutable records that a compensation itself emits are left out, because the program leaves them active.
- Deliveries.AcknowledgedMeansAgreed: deliveries of one subscription do not overlap, as its messages are one group of the queue; overlapping ones are covered by Deliveries.PendingWorkHasMessage only.
- Certs.OneMintPerExpiry: store calls are atomic; Certs.InsertIsLost shows what happens otherwise.
- Certs.ReturnedIsActive: store calls are atomic, as above.
- Certs.OneCertificatePerKey: store calls are atomic, as above.
- Compensation.PersistStepResources: which kinds and ids the pattern check refuses is left open.
- Verdict.VerifyDocument: what PKCS#7 parsing, RSA and time stamps say of a signature over the covered text is a parameter.

Not modelled:

- AWS, Supabase, Stripe, HTTP, TLS, Chromium, SMTP, MCP and command-line code, and all site code.
- SHA-2, RSA, Ed25519, ML-DSA, scrypt and AES-GCM themselves, X.509 issuance, PKCS#7 and RFC 3161 parsing, JWKS and JWT.
- The timers and promise sharing of the lease guard: a worker renews or gives up.
- The webhook and its event claims in front of the queue, and `processStripeEvent`.
- `runProvisioningSteps` as a loop: its steps are transitions of `Protocol`.
- The gateway's `Semaphore`, field validation of requests, environment parsing and error-code tables.
- Rendering of signature blocks beyond the presence of image and date; wrapping of keys at rest.
