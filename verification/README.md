# Durable agent platform: verified model

This project models the deterministic kernel of a platform that runs customer processes with
agents. An agent proposes actions; a gateway classifies and stores them, people review them,
executors carry them out through providers that may crash or answer late, and a state service
folds what was learned into the process. Events arrive with external references, wait in
quarantine when they cannot be correlated, and reach workflows through an outbox. Around that
stand a contact policy, a spend fence, and executable scenarios with a static checker and two
interpreters.

How the files fit together:

- `Contracts`, `Knowledge`, `Transitions`, `QuietHours`, `Communications`, `Budgets`: the shared
  values, the fact projection, decision validation, the contact policy and the token budget.
- `Store` holds the rows of one tenant. `Gateway`, `Reviews`, `Processes`, `Ingestion` and
  `Execution` say what each transaction does to them; `Services` has the database as an object
  whose methods do it step by step, each proved equal to that meaning and rolled back on refusal.
  The lemmas named `...Answers` say what the meaning amounts to without it: the condition behind
  every error, and the rows and fields that an accepted transaction changes, with their values.
- `Protocol` makes the transactions one state machine. `Frames` and `Footprints` bound what each
  may touch. `CoreInvariant`, `Evolution`, `Correlations`, `Pinning`, `Histories`, `MessageBudget`
  and `Spacing` prove invariants that every transaction keeps, and `Guards` what an accepted
  transaction says about the state it was accepted in. `Executors` adds overlapping, crashing
  executors with explicit program counters and a provider with a call log; `Refinement` proves
  that an undisturbed execution or reconciliation is a run of that machine; `Outcomes` and
  `Overlap` say what recorded outcomes are worth then, `Accountability` where provider calls come
  from and `Pausing` what a pause stops. `Theorems` states the other results over whole runs.
  `Outbox` is the delivery protocol.
- `Scenarios` has the checker and the shared script, `KernelDriver` and `ScenarioAgent` the two
  interpreters, `ScenarioTheorems` soundness and agreement, `ScenarioExactness` that the checker
  rejects no shape that could complete.

A transaction is one atomic step, which the row locks and advisory locks of the services justify.
Payload hashes and idempotency keys are the values they digest. Identities that the platform
draws at random are parameters, and a clash with a stored one is refused as the database would.
The clock is part of the database: admission, creation and expiry read the same time.

Where the code is narrower than its documentation the model follows the code, and the exact
condition is proved:

- The follow-up and spacing rules ignore a message sent at the very instant of a reply, because
  the comparison with the reply is strict. The follow-up limit is enforced on the messages after
  the last reply exactly when none of them carries its instant (`FollowUpsEnforcedExactly`), and
  spacing on the latest message exactly when it does not (`SpacingEnforcedExactly`);
  `SameInstantSendsEscape` says for every policy how many messages escape at once.
- An admitted message keeps its place in every count limit, but spacing can still hold it back at
  its execution: exactly while a message proposed after it is younger than the interval
  (`HeldBackExactly`, `MessageBlockedExactly`).
- A scenario can be accepted although its literal parameters are re-encoded by their parameters
  model, for example by a default value; it then never completes (`ActionIdentityExactly`,
  `ReencodedActionNeverCompletes`).
- A tenant's first assignment from the unassigned state looks at no rows. It leaves live legacy
  work behind exactly when the tenant has an active process or an outstanding delivery, the two
  counts that are taken of every other tenant, and no other transaction ever does
  (`StaysPinnedExactly`, `FirstMoveIsSafeExactly`, `LegacyProcessIsStranded`).
- When executors of one key overlap, a failure can be recorded beside a stored effect exactly if
  the adapter promises idempotency, since only then may a second executor call again
  (`FalseFailuresExactly`). Without that promise a recorded failure always means that nothing is
  stored (`FailuresAreTrueWithoutIdempotency`), recorded successes and conflicts are true in
  either case (`RecordedEffectsAreTrue`), and with one live executor per key so are all failures
  (`RecordedOutcomesAreTrue`).

Check everything with `dafny verify dfyconfig.toml`.

## Model

| member | source | states |
|---|---|---|
| `Theorems.CompletedIsForever` | backend/src/tiramisu_agents/processes/state.py:103-196 | In every interleaving of all services and any number of crashing, overlapping executors, a completed process keeps its whole row, its requirements hold in its authoritative facts, and it never has an open request again |
| `Theorems.TerminalAttemptIsForever` | backend/src/tiramisu_agents/actions/execution.py:554-592 | A terminal attempt never changes again in any run and its request carries the same status from then on |
| `Theorems.RefusedNeverRuns` | backend/src/tiramisu_agents/actions/execution.py:461-504 | Denied, rejected and superseded requests keep that status in every run and never get an attempt |
| `Theorems.AttemptsAreCoupled` | backend/src/tiramisu_agents/actions/execution.py:156-162 | In every reachable state a terminal attempt and its request have one status, others are in flight together, no denied request has an attempt, and one under required approval has an immutable grant for exactly its payload |
| `CoreInvariant.ApplyKeepsCore` | backend/src/tiramisu_agents/actions/execution.py:419-504 | Each of the fifteen transactions keeps the coupling of requests, attempts, approvals and grants and the meaning of completion |
| `CoreInvariant.RunKeepsCore` | backend/src/tiramisu_agents/core/transitions.py:77-112 | The coupling and completion invariant holds after any sequence of transactions |
| `CoreInvariant.ReviewKeepsCore` | backend/src/tiramisu_agents/reviews/service.py:99-150 | A review command keeps request, approval and thread in step; only a request without an attempt is ever reviewed |
| `CoreInvariant.ReserveKeepsCore` | backend/src/tiramisu_agents/actions/execution.py:110-163 | Reserving an attempt sets an authorized request and its attempt in flight together |
| `CoreInvariant.RecordKeepsCore` | backend/src/tiramisu_agents/actions/execution.py:566-592 | Recording an outcome, which looks at no process, still never opens a request of a completed process |
| `CoreInvariant.ResolveKeepsCore` | backend/src/tiramisu_agents/actions/reconciliation.py:69-106 | An operator resolution settles attempt and request together |
| `CoreInvariant.DecideKeepsCore` | backend/src/tiramisu_agents/processes/state.py:154-196 | A decision completes a process only with nothing open and its requirements satisfied by the facts it stores |
| `CoreInvariant.InsertKeepsCore` | backend/src/tiramisu_agents/actions/gateway.py:331-460 | A new request starts without attempt in the status its policy outcome prescribes |
| `CoreInvariant.InFlightIsNotCompleted` | backend/src/tiramisu_agents/actions/execution.py:579-590 | A nonterminal attempt implies an open request and therefore a process that has not completed |
| `Evolution.ApplyEvolves` | backend/src/tiramisu_agents/events/ingestion.py:303-353 | No transaction takes back owners, source identities, matched events, terminal processes, final attempts, settled requests, grants or published messages; histories, arrivals and requests only grow |
| `Evolution.RunEvolves` | backend/src/tiramisu_agents/actions/execution.py:579-592 | The same over whole runs, since what is kept is transitive |
| `Executors.AtMostOneCall` | backend/src/tiramisu_agents/actions/execution.py:130-185 | With any number of overlapping or crashed executors and arbitrary lookup answers, an adapter without idempotency is called at most once per key ever, and at most one effect is stored per key |
| `Executors.ReconciliationNeverCalls` | backend/src/tiramisu_agents/actions/execution.py:334-389 | No step of a reconciliation, at any point of any run, calls the provider or stores an effect |
| `Executors.StepKeepsCalls` | backend/src/tiramisu_agents/actions/execution.py:102-285 | Each executor step, crashes included, keeps the rule that without idempotency only the inserter of an attempt may still call, and only if nobody called |
| `Outcomes.RecordedOutcomesAreTrue` | backend/src/tiramisu_agents/actions/execution.py:247-285 | With crash and retry anywhere but one live executor per key, faithful lookups and no operator resolution, a recorded success or conflict is the provider's stored outcome and a recorded failure means nothing is stored |
| `Outcomes.StepKeepsOutcomes` | backend/src/tiramisu_agents/actions/execution.py:165-185 | Every such step keeps the truth of what executors hold and attempts record, and that nothing is stored before a call |
| `Overlap.RecordedEffectsAreTrue` | backend/src/tiramisu_agents/actions/execution.py:165-178 | However executors of one key overlap and crash, a recorded success or conflict is the provider's stored outcome, given only faithful lookups and no operator resolution |
| `Overlap.FailuresAreTrueWithoutIdempotency` | backend/src/tiramisu_agents/actions/execution.py:179-185 | Under any overlap, any crash and any lookup answer, without an operator resolution, a failure recorded for an adapter that does not promise idempotency means that the provider stored nothing |
| `Overlap.StepKeepsFailures` | backend/src/tiramisu_agents/actions/execution.py:165-285 | Every step keeps the rule behind it: a failure of such an adapter, held or recorded, leaves nothing stored and nobody about to call for its key |
| `Overlap.OverlapRecordsFalseFailure` | backend/src/tiramisu_agents/actions/execution.py:464-471 | For every executable request of an idempotent adapter, approved requests and admitted messages included, an explicit overlapping run records a failure although the provider stored an effect |
| `Overlap.FalseFailuresExactly` | backend/src/tiramisu_agents/actions/execution.py:179 | For every executable request, some run without operator resolution records a failure beside a stored effect if and only if the adapter promises idempotency |
| `Execution.StubActionAdapter.Execute` | backend/src/tiramisu_agents/adapters/stubs/actions.py:37-61 | A known key gets its stored outcome again and uses up no scripted outcome; a new one is answered and stored as scripted |
| `Execution.StubActionAdapter.Lookup` | backend/src/tiramisu_agents/adapters/stubs/actions.py:63-67 | Lookup reports exactly the stored outcome |
| `Execution.StoredOutcomeIsFixed` | backend/src/tiramisu_agents/adapters/stubs/actions.py:39-44 | The outcome of a key is fixed by the first call that stores one |
| `Services.Database.ReserveAttempt` | backend/src/tiramisu_agents/actions/execution.py:110-163 | The first transaction of an execution inserts the attempt at most once, refuses a changed adapter and leaves a final attempt alone; a refusal rolls back |
| `Services.Database.AuthorizeCrossing` | backend/src/tiramisu_agents/actions/execution.py:186-225 | The second authorization with its recheck of lifetime, contact policy and breakers, writing nothing |
| `Services.Database.CallProvider` | backend/src/tiramisu_agents/actions/execution.py:222-270 | A blocked crossing reports a failure and an unauthorized one an error, both without a call; an allowed one calls once for the key, and what is reported and stored is what the provider did |
| `Services.Database.Recover` | backend/src/tiramisu_agents/actions/execution.py:165-185 | A new attempt recovers nothing; for an old one a stored outcome is reported, and with nothing stored an adapter that does not promise idempotency is reported unknown and only an idempotent one may be called |
| `Services.Database.Execute` | backend/src/tiramisu_agents/actions/execution.py:102-285 | Run to its end, the three transactions and the provider leave the database, the effects, the calls and the answer that Executed says; what that is worth is stated by the next four |
| `Refinement.ExecutionIsARun` | backend/src/tiramisu_agents/actions/execution.py:102-285 | From whatever world, an execution without crash or interference is a sequence of steps of the interleaving machine: the same database, effects, calls and answer, so every law over runs covers it |
| `Refinement.CallsExactly` | backend/src/tiramisu_agents/actions/execution.py:165-225 | Exactly when an execution calls: the crossing allows it, and the attempt is new, or it is not final, the adapter promises idempotency and the provider stores nothing for the key; never twice and never for another key |
| `Refinement.ExecutionAnswers` | backend/src/tiramisu_agents/actions/execution.py:148-285 | What an execution answers is what its attempt records: a final attempt is only reported, and otherwise a success or conflict is the provider's stored outcome and a failure means that nothing is stored |
| `Refinement.ReconciliationIsARun` | backend/src/tiramisu_agents/actions/execution.py:334-389 | An undisturbed reconciliation is a sequence of steps of the same machine and calls nobody |
| `Services.Database.Reconcile` | backend/src/tiramisu_agents/actions/execution.py:334-389 | Run to its end, a reconciliation leaves what Reconciliation says, without a call |
| `Execution.CallIsRecorded` | backend/src/tiramisu_agents/actions/execution.py:222-285 | What is recorded for each thing a provider can do: accepted, accepted but unseen, declined, definitely failed and ambiguous calls are told apart, and a repeated key is answered with its stored effect |
| `Execution.AuthorizationAnswers` | backend/src/tiramisu_agents/actions/execution.py:419-504 | An authorization is refused exactly for the reason that its error names, each a condition on the stored rows |
| `Execution.ReserveAnswers` | backend/src/tiramisu_agents/actions/execution.py:110-163 | A reservation stores an attempt in flight if there is none, leaves a final one alone, and otherwise sets only the request in flight again |
| `Execution.CrossAnswers` | backend/src/tiramisu_agents/actions/execution.py:186-225 | A crossing is blocked exactly by the lifetime, by the contact policy for a message, or by a breaker that concerns it; a message without its reservation is an error |
| `Execution.ReconcileAnswers` | backend/src/tiramisu_agents/actions/execution.py:334-367 | A reconciliation needs an attempt and sets attempt and request reconciling unless the attempt is final |
| `Services.Database.RecordOutcome` | backend/src/tiramisu_agents/actions/execution.py:554-592 | Recording leaves a terminal attempt alone and otherwise sets attempt and request together |
| `Services.Database.BeginReconcile` | backend/src/tiramisu_agents/actions/execution.py:334-367 | Reconciliation needs an attempt and sets it and its request reconciling unless it is final |
| `Services.Database.ResolveUnknown` | backend/src/tiramisu_agents/actions/reconciliation.py:32-133 | Only an unknown or reconciling attempt is resolved, once; a repeated decision changes nothing and a different one is refused |
| `Services.Database.ApplyReview` | backend/src/tiramisu_agents/reviews/service.py:33-194 | Approve, reject, revise and comment with their guards in order; a replay with the same content changes nothing and every refusal rolls back |
| `Services.Database.PersistDecision` | backend/src/tiramisu_agents/actions/gateway.py:78-195 | All actions of a decision are persisted or none, each revision target used at most once |
| `Services.Database.PersistAction` | backend/src/tiramisu_agents/actions/gateway.py:129-195 | A new request passes the conflict, breaker and contact gates; a replayed one must agree in type, lineage and payload |
| `Services.Database.ApplyDecision` | backend/src/tiramisu_agents/processes/state.py:56-232 | One decision is folded, projected and appended as the next revision; refusals change nothing |
| `Services.Database.RecordIntervention` | backend/src/tiramisu_agents/processes/control.py:62-108 | One intervention per turn; it sends only an open process to review |
| `Services.Database.ApplyControl` | backend/src/tiramisu_agents/processes/control.py:110-224 | Retry, takeover, resume and wake with their guards; wakes are inbox events of their own |
| `Gateway.SupersessionIsAMatching` | backend/src/tiramisu_agents/actions/gateway.py:167-175 | Supersession targets are assigned injectively, only by type and only as asked for, and one is left over only if no action of its type is without target |
| `Gateway.FirstTarget` | backend/src/tiramisu_agents/actions/gateway.py:167-172 | The chosen target is unused and of the action's type, and none is chosen only if all of that type are used |
| `Gateway.PersistOneInserts` | backend/src/tiramisu_agents/actions/gateway.py:129-170 | Persisting one proposal changes nothing or inserts a new request in a free slot that the contact policy admitted if it is a message |
| `Gateway.PersistedIsStored` | backend/src/tiramisu_agents/actions/gateway.py:355-392 | An accepted decision stores every one of its actions under its logical key |
| `Gateway.AcceptedDecisionAnswers` | backend/src/tiramisu_agents/actions/gateway.py:78-231 | Every request that an accepted decision adds belongs to one of its proposals, repeats no payload of an attempt that the decision is based on and that ended in conflict, and replaces only a request whose revision the turn asked for |
| `Gateway.RefusedDecisionAnswers` | backend/src/tiramisu_agents/actions/gateway.py:78-195 | A refused decision names a condition of its process or of its first proposal that has one: RepeatsConflict only if the decision is based on an attempt with that payload whose stored status is Conflict |
| `Gateway.ProposalAnswers` | backend/src/tiramisu_agents/actions/gateway.py:129-195 | One proposal is refused exactly for the reason that its error names; a known logical key changes nothing, and a new one adds exactly its request |
| `Histories.GatewayReplayAddsNothing` | backend/src/tiramisu_agents/actions/gateway.py:355-392 | Replaying an accepted decision through the gateway at any later time, under any breakers and reviews, adds no row |
| `Processes.DecisionAnswers` | backend/src/tiramisu_agents/processes/state.py:56-232 | A decision is refused exactly for the reason its error names; an accepted new one changes its process alone and leaves it in review iff a request waits for approval or is unknown or reconciling, or nothing is open and it escalates or names a human wake, waiting iff nothing is open and it waits, and active otherwise, with the approval wake, the operator wake, none, or its own |
| `Transitions.StatusExactly` | backend/src/tiramisu_agents/core/transitions.py:77-112 | The status a decision leads to, and each reason for which it is refused, in terms of the open requests, the facts and the decision |
| `Transitions.WakesExactly` | backend/src/tiramisu_agents/core/transitions.py:122-146 | The wakes a process is left with: open requests decide, approvals first, and only with nothing open the decision's own |
| `Transitions.RejectedExactly` | backend/src/tiramisu_agents/core/policy.py:79-195 | A decision is rejected exactly if it is off its turn, completes too early, or acts or wakes in a way its policy does not allow, each spelled out as the violation |
| `Processes.InterventionAnswers` | backend/src/tiramisu_agents/processes/control.py:62-108 | An intervention is opened once a turn and calls for the operator unless the process is paused or terminal |
| `Processes.ControlAnswers` | backend/src/tiramisu_agents/processes/control.py:110-224 | A command is refused exactly for the reason its error names; an accepted takeover leaves its process paused with the operator wake, a retry or resume leaves it active without wakes, a wake leaves its row alone, and each is kept and sends its mail |
| `Reviews.ReviewAnswers` | backend/src/tiramisu_agents/reviews/service.py:33-194 | A review is refused exactly for the reason its error names; an approval leaves request, approval and thread approved, granted and approved, a rejection rejected, refused and rejected, a revision request superseded, replaced and open for revision, and a comment leaves them alone |
| `Reviews.ResolutionAnswers` | backend/src/tiramisu_agents/actions/reconciliation.py:32-133 | A resolution is refused exactly for the reason its error names; a first one leaves attempt and request succeeded iff the operator says so and failed otherwise, takes the operator's reference where there is one, keeps the facts and changes no other attempt or request |
| `Histories.DecisionReplays` | backend/src/tiramisu_agents/processes/state.py:79-102 | Replaying an applied decision at any later time succeeds and changes nothing; the turn with another decision is refused |
| `Histories.ApplyKeepsHistory` | backend/src/tiramisu_agents/processes/state.py:177-231 | Revisions are numbered 1..version, one per turn and per decision, and the last equals the facts, memory and commitments of the process, after every transaction |
| `Histories.RunKeepsHistory` | backend/src/tiramisu_agents/processes/state.py:177-231 | The same after every run |
| `Histories.DecidedProcessCanWake` | backend/src/tiramisu_agents/core/transitions.py:122-146 | After a validated decision the stored process is terminal, busy or wakeable, except exactly when an active decision proposed actions, named no wake and nothing is open |
| `Store.EvidenceExactly` | backend/src/tiramisu_agents/communications/safety.py:50-139 | The contact evidence read back from the rows: all messages with a place, the recheck without its own, replies, opt-outs and a standing automated response at their latest |
| `MessageBudget.ReservationsAreSound` | backend/src/tiramisu_agents/communications/safety.py:22-103 | In every reachable state a crossing that is blocked is blocked by expiry, opt-out, automated response, quiet hours, spacing or a breaker, never by the process, window or follow-up count limits |
| `MessageBudget.ApplyKeepsBudget` | backend/src/tiramisu_agents/communications/safety.py:50-103 | Every transaction, time included, keeps the reserved messages of every process within its three count limits |
| `MessageBudget.RecheckPassesCounts` | backend/src/tiramisu_agents/communications/policy.py:196-223 | The recheck of a reserved message cannot hit a count limit |
| `MessageBudget.ReleasedIsSettled` | backend/src/tiramisu_agents/communications/safety.py:22-30 | Every status without a reservation is one a request never leaves |
| `Spacing.HeldBackExactly` | backend/src/tiramisu_agents/communications/safety.py:88-96 | In every reachable state the recheck of a reserved message is held back by spacing exactly while a message proposed after it, and later than the last reply, is younger than the interval |
| `Spacing.LatestIsNeverHeldBack` | backend/src/tiramisu_agents/communications/safety.py:88-96 | In every run the latest reserved message of a process is never held back by spacing |
| `Spacing.MessageBlockedExactly` | backend/src/tiramisu_agents/actions/execution.py:186-225 | In every reachable state an authorized message is blocked at the provider boundary exactly by expiry, opt-out, a standing automated response, quiet hours, a fresh message proposed after it, or a breaker |
| `Spacing.ApplyKeepsSpacing` | backend/src/tiramisu_agents/communications/policy.py:156-163 | Every transaction keeps the reserved messages later than the last reply an interval apart, in the order of their proposals |
| `Spacing.RecheckIsSpacedExactly` | backend/src/tiramisu_agents/communications/policy.py:156-163 | In whatever state, the recheck of a message is held back exactly while another reserved message later than the last reply is younger than the interval |
| `MessageBudget.ReplyOnlyAdvances` | backend/src/tiramisu_agents/communications/safety.py:119-139 | The last human reply is never forgotten and never gets earlier |
| `Theorems.OwnersAreForever` | backend/src/tiramisu_agents/events/ingestion.py:326-353 | An external reference never changes its owner in any run |
| `Theorems.ReingestChangesNothing` | backend/src/tiramisu_agents/events/ingestion.py:74-77 | After an accepted event, every later event with its source identity leaves the database unchanged, whatever happened between |
| `Theorems.DeliveredExactlyOnce` | backend/src/tiramisu_agents/events/ingestion.py:109-137 | In every reachable state an event has a delivery exactly when it is matched and not record-only, to the workflow of its process, and only one |
| `Theorems.DeliveryIsDecidedAtIngest` | backend/src/tiramisu_agents/events/ingestion.py:89-137 | For an event correlated at its ingestion: at every later time of every run it has its delivery exactly when its process was not terminal at that moment |
| `Theorems.OwnershipNeverChangesInIngest` | backend/src/tiramisu_agents/events/ingestion.py:334-338 | The ownership error of reference persistence is unreachable from ingestion, for every database and event |
| `Correlations.ApplyKeepsMailInv` | backend/src/tiramisu_agents/events/quarantine.py:94-156 | Every transaction keeps identities, references and deliveries in correspondence |
| `Evolution.BoundKeepsOwners` | backend/src/tiramisu_agents/events/ingestion.py:303-353 | Binding references keeps every existing owner |
| `Services.Database.Ingest` | backend/src/tiramisu_agents/events/ingestion.py:60-146 | Deduplication, correlation, trigger creation, storage and scheduling of one event, with every refusal rolled back |
| `Services.Database.PersistReferences` | backend/src/tiramisu_agents/events/ingestion.py:303-353 | All free references get the process as owner, or none does because one belongs to another process |
| `Services.Database.Unpark` | backend/src/tiramisu_agents/events/quarantine.py:40-156 | A parked event is given to its process once; a replayed command changes nothing |
| `Services.Database.EnqueueManualWake` | backend/src/tiramisu_agents/processes/control.py:226-279 | A manual wake stores a matched kernel event and its delivery |
| `Services.Database.Assign` | backend/src/tiramisu_agents/security/deployment_assignment.py:32-108 | A move between assigned deployments needs no active process and no outstanding delivery |
| `Ingestion.EventAnswers` | backend/src/tiramisu_agents/events/ingestion.py:60-146 | An event is refused exactly for the reason its error names; a new one is filed with its correlation, opens a process only if its trigger may, binds its free references, and is delivered exactly if its process is live |
| `Ingestion.ReleaseAnswers` | backend/src/tiramisu_agents/events/quarantine.py:40-156 | A release is refused exactly for the reason its error names; a new one gives the event and its references to the process and delivers it if the process is live |
| `Ingestion.MoveAnswers` | backend/src/tiramisu_agents/security/deployment_assignment.py:32-108 | A move is refused exactly for the reason its error names and otherwise sets the deployment and nothing else |
| `Pinning.ApplyKeepsPins` | backend/src/tiramisu_agents/security/deployment_assignment.py:57-108 | With trusted triggers every transaction keeps each nonterminal process and each undelivered message pinned to the tenant's deployment |
| `Pinning.RunKeepsPins` | backend/src/tiramisu_agents/security/deployment_assignment.py:57-108 | The same after every run from a tenant without legacy rows |
| `Pinning.ResolvePinned` | backend/src/tiramisu_agents/actions/reconciliation.py:110-131 | An operator resolution, which checks no process status, still only enqueues for live processes |
| `Pinning.MoveKeepsPins` | backend/src/tiramisu_agents/security/deployment_assignment.py:67-96 | A permitted move between assigned deployments leaves nothing live behind |
| `Pinning.StaysPinnedExactly` | backend/src/tiramisu_agents/security/deployment_assignment.py:67-96 | Legacy rows included, a transaction leaves live work behind exactly when it is a first assignment of a tenant with an active process or an outstanding delivery, the two counts the code skips for it |
| `Pinning.FirstMoveIsSafeExactly` | backend/src/tiramisu_agents/security/deployment_assignment.py:67-96 | After any legacy run, the first assignment keeps all live work pinned in every later run if and only if at that moment there is no active process and no outstanding delivery |
| `Pinning.LegacyRunStaysPinned` | backend/src/tiramisu_agents/security/deployment_assignment.py:46-96 | An unassigned tenant keeps its live work to itself for as long as it is unassigned, and nothing returns a tenant to that state |
| `Pinning.LegacyProcessIsStranded` | backend/src/tiramisu_agents/security/deployment_assignment.py:67 | A concrete unassigned tenant whose active process is stranded by its first move |
| `Protocol.DeliveryStepsAreTransactions` | backend/src/tiramisu_agents/temporal/dispatcher.py:183-311 | Every step of the delivery protocol on stored rows is one of the transactions above |
| `Outbox.RunKeepsInv` | backend/src/tiramisu_agents/temporal/dispatcher.py:200-259 | Claim fields are set iff publishing, pending implies attempts below the maximum, dead letter at or above it, published implies a successful start signal, in every run with stale reclaim and crashes |
| `Outbox.OnlyHolderChanges` | backend/src/tiramisu_agents/temporal/dispatcher.py:151-172 | Only the current token holder changes a publishing row, other than by stale reclaim |
| `Outbox.PublishedIsFinal` | backend/src/tiramisu_agents/temporal/dispatcher.py:151-172 | Rows are never dropped, published rows never change, and each was signalled |
| `Outbox.CycleIsBounded` | backend/src/tiramisu_agents/temporal/dispatcher.py:275-311 | A crash-free delivery cycle takes exactly as many claims as the row counts and at most the maximum, after which the row is not pending |
| `Outbox.ClaimHolds` | backend/src/tiramisu_agents/temporal/dispatcher.py:200-259 | A claim counts one attempt, is held by its token alone, and keeps others away exactly until it is older than the stale limit |
| `Outbox.DelayDoubles` | backend/src/tiramisu_agents/temporal/dispatcher.py:275-311 | The first failure waits for the base delay and each further one twice as long as the one before, during which nobody claims the row |
| `Outbox.LastFailureEnds` | backend/src/tiramisu_agents/temporal/dispatcher.py:275-311 | The failure at the maximum dead-letters the row, which nobody claims until a requeue makes it like new |
| `Outbox.DeliveryProgresses` | backend/src/tiramisu_agents/temporal/dispatcher.py:95-172 | One delivery of a due row: an accepted signal publishes it, an unsent or unanswered one fails it under this claim's count, and a crash leaves it claimed |
| `Outbox.OutboxTable.Claim` | backend/src/tiramisu_agents/temporal/dispatcher.py:200-259 | A claim succeeds exactly on a claimable row and counts one attempt under a new token |
| `Outbox.OutboxTable.Complete` | backend/src/tiramisu_agents/temporal/dispatcher.py:151-172 | Completion publishes exactly under the current token |
| `Outbox.OutboxTable.RecordFailure` | backend/src/tiramisu_agents/temporal/dispatcher.py:275-311 | Failure retries with exponential delay or dead-letters at the maximum, only under the current token |
| `Outbox.OutboxTable.Requeue` | backend/src/tiramisu_agents/events/outbox_recovery.py:30-88 | A requeue resets only a dead letter and keeps the exhausted cycle; a replayed command changes nothing |
| `Scenarios.ValidateScenario` | backend/src/tiramisu_agents/projects/compiler.py:127-266 | The checker accepts exactly the scenarios of a declarative grammar |
| `Scenarios.BindSimulations` | backend/src/tiramisu_agents/projects/compiler.py:505-526 | Bindings exist exactly for the scenario's action types, and compilation fails exactly when one has no simulation adapter |
| `Scenarios.LiteralsResolveToThemselves` | backend/src/tiramisu_agents/testkit/scenario_script.py:229-259 | Values without fact references resolve to themselves whatever the facts are |
| `Scenarios.ActionIdentityExactly` | backend/src/tiramisu_agents/testkit/scenario_script.py:179-201 | For an accepted literal action the proposal keeps the scripted identity on every fact base exactly when its parameters are in the normal form of the parameters model |
| `ScenarioExactness.CompletedScenariosAreAccepted` | backend/src/tiramisu_agents/projects/compiler.py:127-266 | Checker exactness: a scenario that speaks only of what its journey declares and completes under any policies, provider and limits is accepted, so what the checker rejects for its shape can never complete |
| `ScenarioExactness.AcceptedExactly` | backend/src/tiramisu_agents/projects/compiler.py:127-266 | Acceptance in one place for each demand: what each step must find before and behind it, what the journey must declare for it, and which references its values may hold |
| `ScenarioExactness.NotCompletedExactly` | backend/src/tiramisu_agents/testkit/scenarios.py:495-508 | A run of any step list is refused as not completed exactly if all its turns succeed and its process is not completed then |
| `KernelDriver.TurnExactly` | backend/src/tiramisu_agents/testkit/scenarios.py:174-494 | A turn of any step list, accepted or not, fails structurally exactly for the condition its error names, and otherwise leaves the status, wakes, clock, calls and result that its step prescribes |
| `KernelDriver.Run` | backend/src/tiramisu_agents/testkit/scenarios.py:174-508 | The loop over mutable variables computes the turn-by-turn semantics that the theorems below are about |
| `KernelDriver.KernelRun.ApplyDecision` | backend/src/tiramisu_agents/testkit/scenarios.py:222-423 | One decision is judged in the order of the code, applied, and its assertions checked on the projected facts |
| `KernelDriver.KernelRun.TakeWake` | backend/src/tiramisu_agents/testkit/scenarios.py:175-211 | A turn without pending wake source begins with an event the process waits for |
| `KernelDriver.KernelRun.CarryOut` | backend/src/tiramisu_agents/testkit/scenarios.py:424-494 | Approvals must match the permission, the provider is called once, and timers advance the clock |
| `ScenarioAgent.CompiledScenarioAgent.RunTurn` | backend/src/tiramisu_agents/testkit/temporal_scenarios.py:129-162 | A turn already decided gets the same decision and moves nothing; a new one moves cursor, expected wake, checkpoint and trace together |
| `ScenarioAgent.CompiledScenarioAgent.TakeWake` | backend/src/tiramisu_agents/testkit/temporal_scenarios.py:300-362 | Only the expected wake source is consumed |
| `ScenarioAgent.CompiledScenarioAgent.Decide` | backend/src/tiramisu_agents/testkit/temporal_scenarios.py:173-298 | Assertions are checked on prospective facts before the decision, whose step sets the next expectation |
| `ScenarioAgent.WakeExactly` | backend/src/tiramisu_agents/testkit/temporal_scenarios.py:300-362 | A turn's wake is consumed exactly when it is its only one and the one awaited |
| `ScenarioAgent.DecisionExactly` | backend/src/tiramisu_agents/testkit/temporal_scenarios.py:173-298 | A woken agent fails exactly for a condition on its next step that the error names, and otherwise records that step's decision, the confirmed assertions, the next expectation and the checkpoint |
| `ScenarioTheorems.AcceptedScenariosRun` | backend/src/tiramisu_agents/projects/compiler.py:127-266 | Checker soundness: an accepted, bound scenario never fails structurally, and completes if and only if no turn its run comes to has a cause to fail; a failed run names a turn and its cause among the facts, the parameters model, the policies and the provider |
| `ScenarioTheorems.TurnIsSound` | backend/src/tiramisu_agents/testkit/scenarios.py:174-494 | Between turns of an accepted scenario the next turn fails exactly for one of those causes, each a condition on its step, and otherwise ends between turns again |
| `ScenarioTheorems.ReencodedActionNeverCompletes` | backend/src/tiramisu_agents/projects/output.py:28-39 | Acceptance ignores re-encoding: a literal action outside the normal form makes an accepted scenario never complete |
| `ScenarioTheorems.InterpretersAgree` | backend/src/tiramisu_agents/testkit/temporal_scenarios.py:173-362 | On every accepted scenario a kernel run is the agent's run (same events, decisions with actions and wakes, asserted values, facts), and an agent run is the kernel's unless a policy refused |
| `ScenarioTheorems.KernelRunsRespectLimits` | backend/src/tiramisu_agents/testkit/scenarios.py:337-370 | Every completed kernel run, of any step list, stayed within the window, total and follow-up limits |
| `Communications.EvaluateCommunicationSafety` | backend/src/tiramisu_agents/communications/policy.py:121-247 | The block list in order, empty exactly when none of the eight conditions holds |
| `Communications.BlocksExactly` | backend/src/tiramisu_agents/communications/policy.py:121-247 | A block is reported exactly when the evidence warrants it, with the time it warrants: limits as the number of the times they count, the window's time as that of the first send that leaves it, spacing from the latest send after the reply |
| `Communications.BlocksAreRanked` | backend/src/tiramisu_agents/communications/policy.py:121-247 | Each code is reported at most once and the codes in a fixed order, lifetime first and spacing last |
| `Communications.WindowLimitHolds` | backend/src/tiramisu_agents/communications/policy.py:196-215 | Over a whole admitted history every rolling window at every instant holds at most the window limit |
| `Communications.TotalsHold` | backend/src/tiramisu_agents/communications/policy.py:171-195 | Over a whole admitted history the total stays in its limit and no send follows an opt-out, a standing automated response, quiet hours or the lifetime |
| `Communications.FollowUpLimitHolds` | backend/src/tiramisu_agents/communications/policy.py:216-223 | Sends strictly later than the last reply stay in the follow-up limit |
| `Communications.SpacingHolds` | backend/src/tiramisu_agents/communications/policy.py:156-163 | Sends with no reply between them are the minimum interval apart when the earlier is strictly later than the reply before it |
| `Communications.SpacingEnforcedExactly` | backend/src/tiramisu_agents/communications/policy.py:156-163 | The spacing rule covers the latest send exactly when it is strictly later than the last reply |
| `Communications.FollowUpsEnforcedExactly` | backend/src/tiramisu_agents/communications/policy.py:153-155 | Over a whole admitted history the sends listed after the last reply are the counted ones, and so within the limit, exactly when none of them carries the instant of that reply |
| `Communications.FollowUpsSplit` | backend/src/tiramisu_agents/communications/policy.py:153-155 | The order-based follow-up count is the enforced count plus the sends at the reply's own instant |
| `Communications.SameInstantSendsEscape` | backend/src/tiramisu_agents/communications/policy.py:153-163 | For every policy and number n: n sends at the instant of a reply are admitted exactly when the total and window limits have room for them, however small the follow-up limit (unless zero) and however long the interval |
| `Communications.RateBlockClearsExactly` | backend/src/tiramisu_agents/communications/policy.py:199-215 | With an exactly full window the reported time is the earliest at which the rate block clears |
| `QuietHours.QuietHoursEnd` | backend/src/tiramisu_agents/communications/policy.py:249-263 | The end of yesterday's or today's interval that covers the instant |
| `QuietHours.QuietInstantIsBlocked` | backend/src/tiramisu_agents/communications/policy.py:249-278 | Across an offset change every instant whose wall time is quiet is blocked, with an end strictly later |
| `QuietHours.ConstantOffsetIsExact` | backend/src/tiramisu_agents/communications/policy.py:249-263 | Under a constant offset blocking is exact and the end is the next quiet end |
| `QuietHours.OverblockingIsBounded` | backend/src/tiramisu_agents/communications/policy.py:266-278 | Across a change an instant is blocked beyond the interval only within the size of the change |
| `Knowledge.PersistenceFold` | backend/src/tiramisu_agents/processes/state.py:122-144 | The fold of the persistence service is the projection of the shared write list |
| `Knowledge.PreflightFold` | backend/src/tiramisu_agents/agents/context.py:388-409 | The preflight copy computes the same projection |
| `Knowledge.ProspectiveFold` | backend/src/tiramisu_agents/testkit/scenario_script.py:166-177 | The scenario snapshot has the same facts and claims, whatever the provenance |
| `Knowledge.Dictionaries.ApplyFactObservations` | backend/src/tiramisu_agents/core/transitions.py:29-47 | One source's observations update the three dictionaries like the fold |
| `Knowledge.FoldIsLastWriter` | backend/src/tiramisu_agents/core/transitions.py:29-47 | Every key holds its last writer's value and provenance names that writer; unwritten keys keep theirs |
| `Knowledge.FoldStaysTraced` | backend/src/tiramisu_agents/core/transitions.py:36-47 | Provenance has an entry for a kind and key iff that map holds the key |
| `Knowledge.ClaimsNeverAlterFacts` | backend/src/tiramisu_agents/core/transitions.py:36-47 | Dropping every customer claim leaves the authoritative facts unchanged |
| `Transitions.ValidateDecision` | backend/src/tiramisu_agents/core/policy.py:79-195 | The loop accepts exactly the decisions that meet the stated policy: expected sources where given, citations within the turn, completion where it is enforced, allowed actions and wakes |
| `Transitions.CompletionExactly` | backend/src/tiramisu_agents/core/transitions.py:77-112 | Completion is reached exactly by a completed decision with nothing open, satisfied requirements and a definition that allows it |
| `Transitions.WakeExactly` | backend/src/tiramisu_agents/core/transitions.py:122-146 | The wake characterisation on one validated decision, both directions |
| `Budgets.EstimateCostMicros` | backend/src/tiramisu_agents/budgets/pricing.py:80-97 | Each estimate is at most the exact cost and less than two micro-USD short of it |
| `Budgets.DirectionsAreFloored` | backend/src/tiramisu_agents/budgets/pricing.py:80-97 | Input and output are priced apart, each rounded down to a whole micro-USD |
| `Budgets.RecordedCostBounds` | backend/src/tiramisu_agents/budgets/pricing.py:94-97 | Over n calls the recorded total is at most the exact cost and less than 2n micro-USD short of it |
| `Budgets.Ledger.Record` | backend/src/tiramisu_agents/budgets/ledger.py:24-85 | A new identity appends one row; a replay appends none and succeeds only with the recorded content |
| `Budgets.Ledger.Spent` | backend/src/tiramisu_agents/budgets/ledger.py:87-107 | The sums of one process's rows |
| `Budgets.EvaluateModelBudget` | backend/src/tiramisu_agents/budgets/policy.py:90-140 | The blocks are exactly the caps already reached |
| `Budgets.FencedExtends` | backend/src/tiramisu_agents/budgets/policy.py:106-140 | Recording after a passed evaluation is exactly what keeps a ledger fenced |
| `Budgets.OvershootIsOneCall` | backend/src/tiramisu_agents/budgets/policy.py:106-140 | A fenced process exceeds each cap minus one by at most its latest call |
| `Accountability.CallsAreAccountedFor` | backend/src/tiramisu_agents/actions/execution.py:461-504 | Whatever a provider was called for in a run, however executors overlap and crash: a step of the run called for it under a full authorization of that moment, with exactly the stored payload, and where the policy requires approval an earlier step is a person's approval of that payload, pending and unexpired then |
| `Accountability.GrantsComeFrom` | backend/src/tiramisu_agents/reviews/service.py:99-127 | Every grant of a later state was there before or comes from an approval on the way that named exactly the stored payload |
| `Guards.PersistedAsProposed` | backend/src/tiramisu_agents/actions/gateway.py:129-195 | Every accepted proposal is stored with its payload and assigned lineage, and a new one has the status of its permission and none of the conflict and breaker gates against it, for whatever payloads count as conflicted |
| `Ingestion.MatchedExactly` | backend/src/tiramisu_agents/events/ingestion.py:241-274 | An event is correlated with a process exactly when something points at it, nothing points at another, and a process it names exists; otherwise it is declined if it names a process that does not exist, and parked as unknown or as ambiguous |
| `Guards.DecisionLearns` | backend/src/tiramisu_agents/processes/state.py:112-144 | After a decision each key holds the last observation of its events and then its attempts, and provenance names the source; other keys are unchanged |
| `Guards.PauseEndsExactly` | backend/src/tiramisu_agents/processes/control.py:164-205 | A paused process stays paused and keeps its row under every transaction except exactly an accepted retry or resume for it |
| `Guards.PauseBeginsExactly` | backend/src/tiramisu_agents/processes/control.py:164-205 | An unpaused process is paused after a transaction exactly if that is an accepted new takeover for it |
| `Pausing.PauseStopsCalls` | backend/src/tiramisu_agents/actions/execution.py:457-460 | Over every interleaving, with executors already under way: until a retry or resume for it, a paused process keeps its row, gains no request and no attempt, has no unattempted request changed, and no provider is called for it |

## Left out

- Row-level security, tenant authorization and provisioning: one database value is one tenant; only activity and the assigned deployment are kept.
- Byte and size ceilings on facts, memory, parameters and messages: an uninterpreted predicate where their refusal matters (`Limits`, `Env.fits`), otherwise absent.
- Circuit breaker history: the open breakers are an input of each transaction.
- The mailbox workflow and the Temporal activities: they are not part of this model; delivery is modelled up to the start-with-signal call.
- Release fingerprints, definition fingerprints and task queues: reduced to the deployment a process is pinned to.
- Texts of errors, audit rows that nothing reads back, timestamps that nothing reads back, and stripping of white space around reasons.
- Rationale and source lists of an action revision; revisions above 1, which no service creates.
- Interventions go by their turn, which is unique per process, instead of by an identity of their own.
- The request, its revision, policy record, approval and thread are one row, because they are always inserted together.
- The rows of several revision requests come in the order of the decision's review commands; the query itself promises no order.
- Other approval statuses (expired, cancelled) and a stored approval expiry: no service sets them; an expiry that is present is honoured.
- Python's equality between numbers and booleans, floating point numbers, and fact reference paths that are not lists.
- Event sources, external references and trigger rules inside scenarios, decision transformers, and the checkpoint limit and database polling of the Temporal scenario driver.
- ScenarioTheorems.InterpretersAgree: the runtime around the agent is ideal (it persists with the production fold, fires timers exactly and repeats no policy check), because its workflow is not part of this model; hence the policy exception in one direction.
- Transitions.ValidateDecision: the byte and count ceilings on memory and parameters are left out with all others.
- Pinning.FirstMoveIsSafeExactly: legacy rows that end in a terminal status other than completed, which no service sets, are not considered.
- Outbox.OutboxTable.Claim: takes any claimable row; the query's order and its filter on deployment and release only narrow the choice.
- Executors.AtMostOneCall: starts from a database without attempts.
- Services.Database.Execute: a run without crash or interference, proved to be one of the runs of `Executors` (`Refinement`); crashes and overlap are in `Executors`, `Outcomes` and `Overlap`.
- ScenarioExactness.CompletedScenariosAreAccepted: names that a run never looks up (a start route, a declared fact, a capability) are demanded by the checker alone.
- QuietHours.QuietInstantIsBlocked: the zone has at most one offset change near the instant.
- The price table that a deployment merges over the built-in one, and the error for a model without a price: the prices of a call are an input of its estimate.
- The tenant-wide spend cap: the fence here is the one around a process, over that process's rows.
