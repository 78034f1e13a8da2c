# Recovery orchestrator and ledger generator: a verified model

This project models two parts of the payment-recovery system and proves what they promise.

**The action orchestrator** executes recovery plans. It keeps three pieces of state together
(stored actions, one scheduler job per execution, the audit trail) and talks to an
idempotent payment sandbox that may accept, fail, lose its reply or break off.

- `Domain`, `Mapping`, `Gates`: values, status labels, the allow/defer/block decision.
- `Scheduler`, `Sandbox`, `ActionStore`, `Orchestrator`, `Tick`: the classes and the worker's
  loop, in the form of the code. Every method is proved to compute its function in `Steps`.
- `Steps`: the operations as functions from the state before to the state after.
- `Invariants`, `StepInvariants`: the invariant of rows, jobs, sandbox and request log, and
  what each operation keeps and leaves alone.
- `Accounting`, `Outcomes`: audit rows and requests counted over every path; the outcome of
  every run told from its inputs.
- `RunTable`, `Guarantees`: the same runs as one flat table, with every label, time, link, event
  and queue entry written out, proved equal to the nested operations; and what follows from it.
- `Runs`: any interleaving of run, replay, due row, webhook, claim and release, under any
  failures, from the empty store. `QueueAgreement`, `Settlement`, `TickSettlement`: when rows
  and queue agree, and how executions come to rest over such runs and over ticks.

**The synthetic ledger generator** builds invoices, failures, recovery cases and reports. Random
draws are inputs, so every statement holds for all seeds.

- `Calendar`, `Billing`, `Payday`: the calendar, the invoice schedule, two payday searches.
- `Simulation`, `Clustering`, `Failures`: outages and the choice of failing invoices, in place.
- `Recovery`, `RecoveryTables`: the journey of each failure, the promise quota, the padding.
- `Ledger`, `Behaviour`, `Streaks`, `Ecosystem`: trimming, metrics, baseline, customer profiles,
  and the books that must balance across all of them.
- `Webhooks`: duplicate deliveries and their removal.
- `Arithmetic`, `Units`, `Sorting`, `Wrappers`: shared helpers.

A run's environment (`Env`) says what the outside world does to it: the sandbox's reply, whether
a failed request was taken in before the error came back, the delivery, and the jitter draw. An
execution id is a name-based hash of the idempotency key; hashes are taken as injective, so the
key stands for the id.

## What the code does where one might expect otherwise

- A dead-lettered row shows Failed whatever a webhook reports, because the flag is read before the
  label. A captured payment therefore does not stop it: the next permitted run calls the sandbox
  again, where any other row would be at rest (`Settlement.WebhookShownExactly`,
  `Settlement.CaptureStopsExactly`).
- Only a capture completes the job. A cancellation on a waiting row leaves the job alive, and the
  next claim marks it running (`Settlement.StopWebhookStrands`). What follows depends on the
  strategy. An execution that is no wait is never touched again by runs, replays and due rows, so
  its job stays running unless a webhook of its case or a failing worker intervenes
  (`Settlement.StrandedForGood`, `Settlement.StrandedExactly`).
- A cancelled wait does not stay cancelled: the due path has no terminal check, so it stores the
  wait as done over the cancellation, closes its job and sends its fallback to the sandbox
  (`Settlement.StoppedWaitAsksAgain`, with a concrete run in `Settlement.StoppedWaitExample`). A due
  row changes a finished row exactly when it is that very row, a wait whose time has come
  (`Settlement.DueOverwritesExactly`), and whether a due wait makes a request does not depend on what
  its own row shows (`Outcomes.DueRequestsExactlyWhen`).
- Rows and queue agree in both directions until a non-capture webhook meets a live job or a request
  breaks off under a key with one, and exactly then they stop (`QueueAgreement.AgreementExactly`).
- A due row that is re-planned under another key is left waiting and due, while its job stays
  claimed (`Settlement.OtherPlanLeaves`, `Tick.OtherPlanStaysDue`).
- Due rows and replays skip deferrals, so the cooldown does not hold them
  (`Settlement.DueRunIgnoresCooldown`); the fallback of a wait is always gated.
- The due path of a wait keys its fallback by the worker's clock, so two workers on one wait can
  create two resources (`Outcomes.SecondHandOver`). Exactly-once is per key.
- A wait that is due and has no usable fallback is closed without an audit row
  (`Accounting.RanDueAccounts`).
- Rerunning a dead-lettered execution resets its metadata but not its retry counter, so its backoff
  budget is spent once (`Runs.RetryAccounting`).
- With the force flag the gate never stops deferring (`Gates.ForcedDeferralNeverSettles`).
- No code writes the expired flag, so rows never show it and the invariant says so.
- The cap of 48 skipped dates lets invoices fall before the window and the cap of 24 dates misses
  some inside it (`Billing.ScheduleExactly`).
- Padding actions over no cases divides by zero (`RecoveryTables.GenerateRecovery`), and
  duplicating without an original fails on an index (`Webhooks.GenerateWebhooks`).
- Padding sends backup links to suppressed cases too, to each exactly when its turn in the
  round-robin comes before the target (`RecoveryTables.SuppressedIsContactedExactly`).
- The subscription test of the webhook generator looks at the text of an id and is always true,
  so only the draw decides (`Webhooks.MakeOriginals`).
- The web client's payday search clears the seconds and the simulator's keeps them
  (`Payday.SearchesAgreeExactly`).

## Model

| member | source | states |
|---|---|---|
| Runs.ExactlyOnce | services/src/services/action_orchestrator/orchestrator.py:275-391 | over every legal run from the empty store, however often a key is run, replayed, retried or has its reply lost, the sandbox builds at most one resource for it and never replaces it, and any link or resource id on a row is that one |
| Runs.RetryAccounting | services/src/services/action_orchestrator/orchestrator.py:426-484 | in every reachable state a row's retry counter is the number of transient and delivery failures ever suffered under its key; Retrying means 1 to 4 of them, dead-lettered means more; the backoff jobs ever enqueued for a key are the failures capped at 4, reruns of dead letters included; waits are never retried or dead-lettered |
| Runs.ShownImpliesQueued | services/src/services/action_orchestrator/orchestrator.py:195-219 | in every reachable state a row shown as Scheduled or Retrying has a pending or claimed job with the row's time and attempt, whatever webhooks, crashes and out-of-date workers did before |
| Runs.PolicySafety | services/src/services/action_orchestrator/gates.py:37-82 | no request logged in any reachable state, of any run, replay, due row or nested fallback, was made under DENY, STOP or ESCALATE, and none outside a replay before the logged cooldown ended or while WAIT still held the plan; that the log tells the truth is Guarantees.CallsAreTrue |
| Guarantees.CallsAreTrue | services/src/services/action_orchestrator/orchestrator.py:139-391 | every request in the log of a run from the empty store was made by one of its steps, and carries that step's own clock, decision and cooldown, its case, and the strategy of its plan or of its plan's fallback |
| Guarantees.StepCarries | services/src/services/action_orchestrator/orchestrator.py:139-391 | a step appends at most one request, which carries the step's own clock, decision and cooldown, under the plan's key, or, as a plain request, under the fallback's key at that time |
| Guarantees.FallbackAnswersToPolicy | services/src/services/action_orchestrator/orchestrator.py:252-324 | a request made through a fallback, by a run or replay of a wait or by a due wait, happens under ALLOW or WAIT and not before the cooldown the step was given has ended |
| Guarantees.FallbackIsPutOff | services/src/services/action_orchestrator/orchestrator.py:252-272 | inside a cooldown a due wait's fallback is shown as scheduled for its end, with a job pending for that time, and nothing is asked of the sandbox |
| Runs.RunKeeps | services/src/services/action_orchestrator/orchestrator.py:139-712 | every state reached by any interleaving of steps keeps the full invariant of rows, jobs, sandbox and request log, and takes back nothing recorded before |
| Runs.StepKeeps | services/src/services/action_orchestrator/orchestrator.py:139-712 | each single step (run, replay, due row, webhook, claim, release) keeps the invariant |
| Runs.SnapshotsLast | services/src/services/action_orchestrator_service.py:336-364 | a row read at any moment may still be worked on after any number of other steps |
| QueueAgreement.AgreementExactly | services/src/services/action_orchestrator/orchestrator.py:679-688 | from a state in which rows shown as waiting and live jobs coincide, a step keeps that if and only if it is neither a first-delivered non-capture webhook on a case whose newest row has a live job, nor a run, replay or due row whose request (told beforehand) meets an unmapped exception under a key with a live job |
| QueueAgreement.AgreementOverRuns | services/src/services/action_orchestrator/orchestrator.py:139-712 | rows and queue agree in both directions after any run whose steps, each told before it is taken, are none of those |
| QueueAgreement.RanAgrees | services/src/services/action_orchestrator/orchestrator.py:139-391 | a run leaves no live job behind a row that is not waiting, unless one was there before or the run broke off on that key |
| QueueAgreement.RanDueAgrees | services/src/services/action_orchestrator/orchestrator.py:244-273 | the same for a due row, through the close of a wait and its fallback |
| QueueAgreement.WebhookAgrees | services/src/services/action_orchestrator/orchestrator.py:658-688 | a webhook strands a job exactly if it is no capture, is delivered for the first time, and the case's newest row has a live job |
| Settlement.Settles | services/src/services/action_orchestrator/orchestrator.py:426-484 | over any legal run, whatever happens between them, once the due dispatches of an execution that is no wait, under its own key, outnumber the retries its key has left, one of them finds it at rest or leaves it so |
| Settlement.UnsettledCounted | services/src/services/action_orchestrator/orchestrator.py:426-484 | over any legal run, the due dispatches that begin and end with the row waiting are at most the failures its key gained, up to the cap |
| TickSettlement.SettlesOverTicks | services/src/services/action_orchestrator_service.py:321-366 | over ticks that work on any other rows besides, an execution that is no wait, due at each and planned under its own key, comes to rest within one tick more than its key has retries left |
| TickSettlement.RoundsAreARun | services/src/services/action_orchestrator_service.py:321-366 | any number of ticks is a legal run that dispatches the row once per tick, unless it came to rest on the way |
| Settlement.DueDispatch | services/src/services/action_orchestrator/orchestrator.py:273 | one due dispatch brings the row to rest or adds exactly one failure within the cap |
| Settlement.DueRunIgnoresCooldown | services/src/services/action_orchestrator/orchestrator.py:273 | a due row that is no wait reaches the sandbox if and only if its strategy has a request and policy does not block; the cooldown plays no part |
| Settlement.OtherPlanLeaves | services/src/services/action_orchestrator/orchestrator.py:273 | a due row that is no wait, worked on under a plan with another key, keeps its row and job, unless that plan's own run or fallback has its key |
| Tick.OtherPlanStaysDue | services/src/services/planner/scheduler.py:113-119 | and stays due for the next tick |
| Settlement.TerminalUntouched | services/src/services/action_orchestrator/orchestrator.py:160-175 | no run, as its own or as a fallback, changes a row in a terminal state, its job or its histories |
| Settlement.FinishedIsFinal | services/src/services/action_orchestrator/orchestrator.py:160-175 | any number of runs and replays of a finished execution, forced or not, under any policy and at any time, changes nothing at all |
| Settlement.QuietStep | services/src/services/action_orchestrator/orchestrator.py:160-175 | no step changes a row at rest or closes its job, except its own case's webhooks, the release of its job, and the due path of that very row if it is a wait whose time has come |
| Settlement.StrandedForGood | services/src/services/action_orchestrator_service.py:336-364 | a claimed job of a row at rest stays running through every run free of those three kinds of step; the last of them exists for waits only |
| Settlement.StrandedExactly | services/src/services/action_orchestrator/orchestrator.py:244-273 | step by step, such a job stays running if and only if the step is no release of it, no capture on the case's newest row being this one, and no due path of this wait |
| Settlement.DueOverwritesExactly | services/src/services/action_orchestrator/orchestrator.py:252-272 | a due row leaves a row at rest as it was if and only if it is not that row as a wait whose time has come, or stores an equal row over a closed job; otherwise the row is stored as done over what it showed and its job is closed; the label changes iff it was not Success |
| Settlement.OverwrittenIsWait | services/src/services/action_orchestrator/orchestrator.py:252-272 | only waits are overwritten |
| Settlement.StoppedWaitAsksAgain | services/src/services/action_orchestrator/orchestrator.py:252-272 | a waiting wait, cancelled by a webhook, claimed and worked on, is stored as Success, its job closed, and its fallback sent to the sandbox |
| Settlement.StoppedWaitExample | services/src/services/action_orchestrator/orchestrator.py:252-272 | a concrete run from the empty store that does this |
| Settlement.StopWebhookStrands | services/src/services/action_orchestrator/orchestrator.py:679-688 | a cancel or pause webhook on a waiting row followed by a claim at its time reaches that state |
| Settlement.WebhookShownExactly | services/src/services/action_orchestrator/orchestrator.py:658-688 | after a first delivery the row shows what the provider reported if and only if the row is not dead-lettered or the report is a failure |
| Settlement.CaptureStopsExactly | services/src/services/action_orchestrator/orchestrator.py:658-688 | after a captured payment the next permitted run of the plan goes to the sandbox again if and only if the row was dead-lettered |
| Outcomes.OutboundOutcome | services/src/services/action_orchestrator/orchestrator.py:325-391 | a run that reaches the sandbox ends as a table of the reply, the delivery and the failures ever suffered says: a retry after 1, 5, 30 or 120 minutes plus the jitter within its window, a dead letter after the fourth, Failed on rejection, otherwise Success with the key's resource, its link (none for a payment retried) and the delivery reported; an exception only if one was raised |
| Outcomes.QuietOutcome | services/src/services/action_orchestrator/orchestrator.py:177-220 | every run without a request or hand-over ends Cancelled, Scheduled or Success as plan, policy and clock alone decide; a deferral's job is pending for the later of plan time and running cooldown, any other ending leaves no live job; the sandbox hears nothing |
| Outcomes.RunTells | services/src/services/action_orchestrator/orchestrator.py:556-583 | the result of a run is the stored row's, and a result of its own is described by the audit row just appended, with its label, event, resource, delivery and policy decision, through every nesting |
| RunTable.RunIsTabled | services/src/services/action_orchestrator/orchestrator.py:139-391 | from every state that satisfies the invariant, a run does what the flat table says in every respect: row, insertion order, job, audit row, sandbox, log and result, for each of its fourteen kinds, through the hand-over |
| RunTable.ReplayIsTabled | services/src/services/action_orchestrator/orchestrator.py:222-242 | a replay of an id that no row has changes nothing and reports it as not found; any other does what the table says of a run that skips deferrals |
| RunTable.DueIsTabled | services/src/services/action_orchestrator/orchestrator.py:244-273 | the same for a due row, even one read earlier |
| RunTable.WebhookIsTabled | services/src/services/action_orchestrator/orchestrator.py:585-712 | the same for a webhook, with the label, column and audit event of each provider event by name |
| Guarantees.RepeatsExactly | services/src/services/action_orchestrator/orchestrator.py:160-175 | a plain run whose row shows Sent, Success, Cancelled or Expired, and a replay whose row shows one of the last three, returns the stored row's fields and changes nothing; any other answer is the run's own, or its fallback's, which is a repeated one iff the fallback's row shows one of the four |
| Guarantees.HandOverLeaves | services/src/services/action_orchestrator/orchestrator.py:304-317 | a wait that hands over is left shown and stored as done at that time, without a live job, whatever its fallback comes to |
| Guarantees.WebhookReports | services/src/services/action_orchestrator/orchestrator.py:626-712 | the audit row of a webhook: captured iff it is a first PaymentCaptured, PaymentLinkPaid or SubscriptionCharged, stopped iff a first SubscriptionCancelled or SubscriptionPaused, executed otherwise; with provider, duplicate flag and target |
| Guarantees.WebhookLabels | services/src/services/action_orchestrator/orchestrator.py:658-688 | and the label it leaves on the case's newest row, told the same way, unless that row is dead-lettered |
| Outcomes.WaitRequestsExactlyWhen | services/src/services/action_orchestrator/orchestrator.py:304-324 | a wait gets to the sandbox if and only if its row is not finished (nor, for a plain run, sent), policy lets it go ahead (a replay skips its own deferral), its fallback has a request, the fallback's row at that time is not finished or sent, the decision is ALLOW or WAIT and no cooldown is running |
| Outcomes.DueRequestsExactlyWhen | services/src/services/action_orchestrator/orchestrator.py:252-272 | a due wait makes a request if and only if its plan has a case, its fallback has a request, the fallback's row at that time is not finished or sent, the decision is ALLOW or WAIT and no cooldown is running; what its own row shows plays no part |
| Outcomes.RequestTold | services/src/services/action_orchestrator/orchestrator.py:139-391 | whether a run makes a request, under which key, and whether it breaks off, told from the state and inputs before it, through the hand-over of a wait |
| Outcomes.DueRequestTold | services/src/services/action_orchestrator/orchestrator.py:244-273 | the same for a due row, even one read earlier |
| Outcomes.SecondHandOver | services/src/services/action_orchestrator/orchestrator.py:252-272 | two workers on the same due wait make two requests if and only if their clocks differ, since the fallback's key carries the clock |
| Outcomes.FirstHandOver | services/src/services/action_orchestrator/orchestrator.py:252-272 | the first of them makes one request, ends its fallback in Success, and touches no third row |
| Accounting.RanAccounts | services/src/services/action_orchestrator/orchestrator.py:139-391 | every run appends exactly one audit row if its result is its own and none if it is replayed or raises, makes at most one request, and only extends the histories, through any nesting |
| Accounting.RanDueAccounts | services/src/services/action_orchestrator/orchestrator.py:244-273 | the same for a due row, except that a wait without a usable fallback is closed with no audit row |
| Accounting.WebhookAccounts | services/src/services/action_orchestrator/orchestrator.py:585-712 | a webhook appends one audit row, makes no request, and only extends the histories |
| Accounting.RequestsExactlyWhen | services/src/services/action_orchestrator/orchestrator.py:160-220 | a run of a plan that is no wait makes a request if and only if it has a case, its row is not finished (nor, unless replayed, sent), the policy lets it go ahead, told without the gate's branches, and its strategy has one |
| Accounting.TerminalIsFinal | services/src/services/action_orchestrator/orchestrator.py:162-175 | run and replay on a finished execution return the stored result and change nothing at all |
| Accounting.DeferralIsIdempotent | services/src/services/action_orchestrator/orchestrator.py:195-219 | repeating a run that deferred changes nothing but one more audit row, and gives the same result |
| StepInvariants.RanKeeps | services/src/services/action_orchestrator/orchestrator.py:139-391 | a run keeps the invariant and changes at most its own row and, when a wait hands over, its fallback's |
| StepInvariants.RanDueKeeps | services/src/services/action_orchestrator/orchestrator.py:244-273 | a due row, even one read earlier, keeps the invariant and changes at most the due row and those of the fresh plan |
| StepInvariants.WebhookKeeps | services/src/services/action_orchestrator/orchestrator.py:585-712 | a webhook keeps the invariant and changes at most the case's newest row |
| StepInvariants.ReplayedKeeps | services/src/services/action_orchestrator/orchestrator.py:222-242 | a replay keeps the invariant within the same frame as a run |
| StepInvariants.DispatchedKeeps | services/src/services/action_orchestrator/orchestrator.py:275-391 | a permitted dispatch keeps the invariant and its frame, through the mutual recursion with run |
| StepInvariants.RequestedKeeps | services/src/services/action_orchestrator/orchestrator.py:325-337 | a request adds one failure to its key exactly if it fails for transient or delivery reasons, and an accepted one leaves its body cached |
| StepInvariants.RanHandsOver | services/src/services/action_orchestrator/orchestrator.py:304-324 | a run that hands over is the fallback's run from the state the closed wait leaves |
| StepInvariants.NewestOfCase | services/src/services/action_orchestrator/persistence.py:203-210 | the row a webhook lands on is stored under its own key and belongs to the case |
| StepInvariants.ClaimKeeps | services/src/services/scheduler/service.py:68-79 | claiming due jobs keeps the invariant |
| StepInvariants.ReleaseKeeps | services/src/services/scheduler/service.py:81-83 | releasing a job keeps the invariant |
| Invariants.FinalizedKeeps | services/src/services/action_orchestrator/orchestrator.py:515-554 | an ending in Success, Failed or Cancelled restores the invariant at its key and touches no other |
| Invariants.DeferredKeeps | services/src/services/action_orchestrator/orchestrator.py:195-219 | so does a deferral |
| Invariants.BackedOffKeeps | services/src/services/action_orchestrator/orchestrator.py:426-484 | so does a backoff or dead letter, counting the failure just logged |
| Invariants.LocalChange | services/src/services/action_orchestrator/orchestrator.py:509-513 | a change confined to one key keeps the invariant everywhere else |
| Tick.TickDue | services/src/services/action_orchestrator_service.py:321-366 | a tick works once on every row that is due by its columns or by the queue, as stored; its effect is a legal run of steps, so all results above hold across ticks; the results are those of the turns that did not raise |
| Tick.ResultsExactly | services/src/services/action_orchestrator_service.py:346-366 | the k-th answer reported is that of the k-th turn that came to one, and nothing is reported of turns that could not be loaded or raised |
| Tick.WorkOff | services/src/services/action_orchestrator_service.py:346-364 | every row gets its turn from the state the turns before it left, whether they failed or not |
| Tick.TakeTurn | services/src/services/action_orchestrator_service.py:346-364 | one turn is a due run, or the release of the job if loading or running raised |
| Tick.Merge | services/src/services/action_orchestrator_service.py:336-343 | the merged list holds every due row and every claimed job's row exactly once |
| Tick.WorklistExactly | services/src/services/action_orchestrator_service.py:336-343 | a tick works on a row iff it shows Scheduled or Retrying and its time has come, or has a pending job whose time has come |
| Tick.TurnsAreARun | services/src/services/action_orchestrator_service.py:346-364 | any number of turns over rows read beforehand is a legal run |
| Tick.RoundIsARun | services/src/services/action_orchestrator_service.py:336-364 | the claim and the turns of a tick are a legal run |
| Tick.FailedTurnReleases | services/src/services/action_orchestrator_service.py:346-364 | a turn that raised leaves no claimed job for its row |
| Tick.DueRowsAreWaiting | services/src/services/action_orchestrator/persistence.py:251-264 | the due query finds exactly the rows shown as waiting whose time has come |
| Orchestrator.ActionOrchestrator.Run | services/src/services/action_orchestrator/orchestrator.py:139-220 | the method's new state and result are those of the specified run |
| Orchestrator.ActionOrchestrator.Dispatch | services/src/services/action_orchestrator/orchestrator.py:275-391 | the same for a dispatch, down the mutual recursion, which ends because a nested plan is no wait |
| Orchestrator.ActionOrchestrator.CallOut | services/src/services/action_orchestrator/orchestrator.py:325-358 | the same for the request and the mapping of its errors |
| Orchestrator.ActionOrchestrator.Notify | services/src/services/action_orchestrator/orchestrator.py:360-391 | the same for the message and the endings after it |
| Orchestrator.ActionOrchestrator.BackoffOrDeadLetter | services/src/services/action_orchestrator/orchestrator.py:426-484 | the same for the retry or dead letter |
| Orchestrator.ActionOrchestrator.Finalize | services/src/services/action_orchestrator/orchestrator.py:515-554 | the same for an ending |
| Orchestrator.ActionOrchestrator.PersistStatus | services/src/services/action_orchestrator/orchestrator.py:509-513 | the stored row carries label and status that belong together |
| Orchestrator.ActionOrchestrator.Replay | services/src/services/action_orchestrator/orchestrator.py:222-242 | the same for a replay, or NotFound and no change for an unknown id |
| Orchestrator.ActionOrchestrator.RunDue | services/src/services/action_orchestrator/orchestrator.py:244-273 | the same for a due row |
| Orchestrator.ActionOrchestrator.ApplyProviderWebhook | services/src/services/action_orchestrator/orchestrator.py:585-712 | the same for a provider webhook |
| Steps.NewestIsStored | services/src/services/action_orchestrator/persistence.py:203-210 | the first row of a case's history is stored, belongs to the case, and no row inserted later does |
| Gates.GateCharacterisation | services/src/services/action_orchestrator/gates.py:18-98 | exactly one of allow, defer, block; blocked iff the policy blocks; an unforced plan is deferred iff some instant that holds it lies ahead; always to the later of plan time and running cooldown; and the reason given for each |
| Gates.GoesAheadExactly | services/src/services/action_orchestrator/gates.py:37-98 | a plan gets past the gate iff the decision is ALLOW or WAIT (or ESCALATE for an escalation) and, unless replayed, it is not forced, no cooldown is running, and its time has come where the strategy or the decision waits for it |
| Gates.DeferralSettles | services/src/services/action_orchestrator/gates.py:58-98 | an unforced deferral asked again at or after its own time is always allowed |
| Gates.ForcedDeferralNeverSettles | services/src/services/action_orchestrator/gates.py:82-98 | with the force flag an unblocked plan is deferred at every time, for ever |
| Mapping.LabelRoundTrip | services/src/services/action_orchestrator/mapping.py:31-62 | a label survives storage through the metadata always, through the status column alone iff it is not Retrying, and the column survives a display round trip |
| Scheduler.NextBackoff | services/src/services/scheduler/backoff.py:25-49 | there is a next delay iff fewer than 4 attempts were made; it is 1, 5, 30 or 120 minutes moved by the draw, within 15 or 45 seconds, 2 or 5 minutes |
| Scheduler.BackoffGrows | services/src/services/scheduler/backoff.py:8-49 | later attempts wait strictly longer, whatever the jitter draws |
| Scheduler.ActionScheduler.Schedule | services/src/services/scheduler/service.py:24-62 | one job per execution: the new job replaces the old, every enqueue is recorded |
| Scheduler.ActionScheduler.Complete | services/src/services/scheduler/service.py:85-87 | closes the job if there is one, and changes no other |
| Scheduler.ActionScheduler.Release | services/src/services/scheduler/store.py:94-100 | gives back a claimed job and only a claimed one |
| Scheduler.ActionScheduler.Due | services/src/services/scheduler/store.py:64-72 | lists every pending job whose time has come exactly once |
| Scheduler.ActionScheduler.ClaimDue | services/src/services/scheduler/service.py:68-79 | claims every due job exactly once and leaves the others as they were |
| Scheduler.ClaimIsExclusive | services/src/services/scheduler/store.py:64-100 | a claimed job was pending and due, is not due again at any time until it is released, and then is |
| Sandbox.OneResourcePerToken | integrations/src/integrations/razorpay/sandbox_client.py:188-226 | a second request under a token changes nothing whatever it asks for; different tokens never share a resource or link |
| Sandbox.PostKeepsServer | integrations/src/integrations/razorpay/sandbox_client.py:147-186 | a request keeps cache and creation list in agreement and every body handed out as it was |
| Sandbox.SandboxClient.Post | integrations/src/integrations/razorpay/sandbox_client.py:147-186 | an accepted request returns the cached body; a lost reply may or may not have created it |
| Sandbox.SandboxClient.MockBody | integrations/src/integrations/razorpay/sandbox_client.py:188-226 | returns the body cached for the token, creating it only the first time |
| Sandbox.SandboxClient.ExecuteStrategy | services/src/services/razorpay_actions/service.py:90-118 | a strategy makes a request iff it is one of the five outbound ones, with the path, payload and token that belong to it |
| Sandbox.SandboxClient.CreatePaymentLink | integrations/src/integrations/razorpay/sandbox_client.py:90-107 | a link under the plain token |
| Sandbox.SandboxClient.CreateOrder | integrations/src/integrations/razorpay/sandbox_client.py:109-126 | an order under the plain token |
| Sandbox.SandboxClient.CreateMandateSession | integrations/src/integrations/razorpay/sandbox_client.py:128-145 | a session under the suffixed token |
| ActionStore.Store.GetByIdempotency | services/src/services/action_orchestrator/persistence.py:196-201 | finds a row with the key iff there is one |
| ActionStore.Store.Save | services/src/services/action_orchestrator/persistence.py:212-249 | inserts or replaces under the row's id; the insertion order notes first saves only |
| ActionStore.Store.ListForCase | services/src/services/action_orchestrator/persistence.py:203-210 | the case's rows, newest insertion first |
| ActionStore.Store.ListDue | services/src/services/action_orchestrator/persistence.py:251-264 | every due row exactly once, as stored |
| ActionStore.Store.AppendAudit | services/src/services/action_orchestrator/persistence.py:266-295 | the trail grows by one row at the end |
| Ecosystem.BuildLedger | simulator/src/simulator/event_generator.py:1229-1264 | from fresh captured invoices: exactly min(n, invoices) fail, with persistence at most one customer in part and the earliest of each; one case per failure; promises within the quota, and below it every case of insufficient funds has one; suppressed are exactly the harmful reasons, and none of them is retried; one retry payment per recovered case, whose amounts sum to the recovered revenue; recovered plus suppressed fit into the revenue at risk; suppressed revenue and the baseline's counts are those of the failures by reason; the trimmed table keeps all failures and retries and has its target length; the customers' profiles account for every first attempt and every failure; it divides by zero iff nothing fails while actions are asked for |
| Ecosystem.CloseBooks | simulator/src/simulator/event_generator.py:1238-1247 | the same from an already marked table |
| Ecosystem.BooksOfCases | simulator/src/simulator/event_generator.py:966-1026 | cases, retries, metrics and baseline agree in number and in money |
| Ecosystem.TablesAvoidHarm | simulator/src/simulator/event_generator.py:462-585 | a case is suppressed iff its reason is harmful, and then no action or payment of the finished tables retries it |
| Ecosystem.ProfilesBalance | simulator/src/simulator/event_generator.py:1142-1202 | the failed invoices of all profiles are the failures, and their attempts are the table without its retries |
| Failures.MarkFailures | simulator/src/simulator/event_generator.py:334-370 | in place: exactly the chosen rows become failures, with the outage's reason or the drawn one, and every other row is as before; chosen in cluster order if persistence is on |
| Failures.ExactlyThatManyFail | simulator/src/simulator/event_generator.py:334-370 | as many rows fail as asked for, or all first attempts if there are fewer |
| Failures.FailedAreChosen | simulator/src/simulator/event_generator.py:348-370 | a row fails if and only if it is among the chosen candidates, all of them first attempts; it becomes failed and unpaid with the reason of the first outage that covers it, or the drawn one, and nothing else of it changes; other rows stay as they were |
| Failures.FailuresClustered | simulator/src/simulator/event_generator.py:345-370 | in the marked table at most one customer has both failed and unfailed first attempts, and what failed of any customer is no later than what did not |
| Clustering.ClusterFailures | simulator/src/simulator/distributions.py:324-351 | a permutation of the candidates, in order of customer rank and of age within a customer, ranked by the discipline of their oldest row |
| Clustering.PrefixSplitsAtMostOne | simulator/src/simulator/distributions.py:324-351 | customers are contiguous, so a prefix cuts at most one in two and takes the oldest rows of each |
| Clustering.GroupByCustomer | simulator/src/simulator/distributions.py:334-338 | every customer's rows, in the order they came |
| Clustering.ClusteredIsPermutation | simulator/src/simulator/distributions.py:348-351 | sorting the groups and laying them end to end loses and repeats no row |
| Clustering.LeastDisciplinedFirst | simulator/src/simulator/distributions.py:340-351 | of two rows in cluster order the earlier is of the customer with the lower discipline, or at equal discipline with the lower id |
| Simulation.MatchingOutageIsFirst | simulator/src/simulator/distributions.py:239-255 | the match is the first listed outage of the rail that covers the instant, and none iff no outage does |
| Simulation.CoversExactly | simulator/src/simulator/distributions.py:61-63 | an outage covers from its start up to its end, on the rail of the payment's method |
| Recovery.BuildCase | simulator/src/simulator/event_generator.py:388-862 | a case is recovered iff its journey's condition holds; its status, its actions and audit rows in order, each with its time and ending, the time it was completed, its promise as drawn and its retry payment are those of that journey and ending |
| Recovery.CloseSuppressed | simulator/src/simulator/event_generator.py:513-585 | the three suppressed journeys end closed, stopped or escalated with their one action, which is no retry; actions and trail have the times that belong to them |
| Recovery.SettlePromise | simulator/src/simulator/event_generator.py:586-674 | a promise is open, kept or broken, with the amounts and times that belong to it |
| Recovery.TakePromise | simulator/src/simulator/event_generator.py:586-674 | a promised case is recovered iff the promise fell due and was kept, and waits iff it has not fallen due; actions, promise and trail agree, with their times |
| Recovery.Chase | simulator/src/simulator/event_generator.py:675-786 | a payday, switch or retry case is recovered iff payday has come, the segment switches, or the rail slot has come and works; a payday retry never fails; actions and trail agree, with their times |
| Recovery.AwaitPayday | simulator/src/simulator/event_generator.py:687-721 | recovered iff payday has come; the retry is done by then or scheduled, never failed |
| Recovery.AskToSwitch | simulator/src/simulator/event_generator.py:722-746 | recovered iff the customer is trusted or new, six hours after the diagnosis |
| Recovery.RetryRail | simulator/src/simulator/event_generator.py:747-786 | one retry, at the end of the outage that explains the failure plus 25 minutes or after 8 hours; recovered iff that has come and the rail works for them |
| Recovery.KeepsExactly | simulator/src/simulator/event_generator.py:586-596 | a promise is kept iff the customer is of high value, loyal or active, or is paid by salary and promised one of the first ten days of a month |
| Recovery.PromiseRecovers | simulator/src/simulator/event_generator.py:586-620 | it recovers its case iff it is kept and ten in the morning of its day, plus the delay, has come |
| Recovery.PaydayRecovers | simulator/src/simulator/event_generator.py:687-721 | payday does iff the search reaches it within 20 days and 09:15 of that day has come |
| Recovery.ChaseRecovers | simulator/src/simulator/event_generator.py:722-786 | the other journeys, with segments, reasons and delays by name; suppressed ones never recover |
| Recovery.JourneyExactly | simulator/src/simulator/event_generator.py:246-271 | which journey each failure takes, by reason, segment, salary and coin, told in no order |
| Recovery.QuotaExactly | simulator/src/simulator/event_generator.py:465-474 | with the quota: a promise iff it is not used up and the journey was one or funds were lacking; a promise it forbids becomes a retry |
| Recovery.Pursue | simulator/src/simulator/event_generator.py:513-786 | whichever branch is taken, case, actions, promises and trail stay in agreement |
| Recovery.CloseFile | simulator/src/simulator/event_generator.py:788-838 | the trail ends with the capture iff the case was recovered and the closing iff it ended, both at its completion; there is one retry payment iff it was recovered |
| RecoveryTables.GenerateRecovery | simulator/src/simulator/event_generator.py:388-904 | the tables are made of one file per failure and nothing else, then padded with links and heartbeats; as many promises as promise journeys, the retries owed, every action and audit row of some case, the action target reached; it divides by zero iff there is no failure and actions are asked for |
| RecoveryTables.ChooseJourney | simulator/src/simulator/event_generator.py:465-474 | the journey left open by the quota, and the promise counter after it |
| RecoveryTables.PadActions | simulator/src/simulator/event_generator.py:864-879 | pads to the target with backup links round the cases, three hours after each was opened, adding no retry |
| RecoveryTables.PadAudits | simulator/src/simulator/event_generator.py:881-892 | pads the trail to its target if there are cases, with heartbeats round the cases, minute by minute through the fifty after each was opened |
| RecoveryTables.PromiseQuota | simulator/src/simulator/event_generator.py:467-474 | promises never exceed the quota; if it is not used up every case of insufficient funds has one; a payday wait occurs only after it was used up |
| RecoveryTables.SuppressedExactly | simulator/src/simulator/event_generator.py:246-271 | a case is suppressed iff its reason is already paid, dispute, mandate revoked or customer cancelled, whatever the quota does, and then it is not recovered |
| RecoveryTables.SuppressedNeverRetried | simulator/src/simulator/event_generator.py:462-585 | a suppressed case has no retry among the actions, padding included, and no retry payment |
| RecoveryTables.RetriesBelong | simulator/src/simulator/event_generator.py:788-826 | every retry payment belongs to a recovered case, is captured when the case was completed, and repeats customer, subscription, amount and method as a second attempt |
| RecoveryTables.PaddingReachesExactly | simulator/src/simulator/event_generator.py:864-879 | a case has a backup link in the padded table iff its first turn in the round-robin, told from the table's length and the number of cases, comes before the target |
| RecoveryTables.SuppressedIsContactedExactly | simulator/src/simulator/event_generator.py:864-879 | so a case suppressed for a harmful reason gets a link exactly then, and always once a whole round fits |
| RecoveryTables.FirstTurnIsFirst | simulator/src/simulator/event_generator.py:864-866 | that turn is the first place from the table's length on that the remainder gives to the case |
| Ledger.TrimPayments | simulator/src/simulator/event_generator.py:907-963 | failures, retries, as many spare rows as there is room for, then top-ups; the length is the target or failures plus retries, whichever is larger, given a subscription |
| Ledger.TrimKeepsFailuresAndRetries | simulator/src/simulator/event_generator.py:907-963 | trimming keeps every failure and every retry once each and in order, whatever the target |
| Ledger.TrimLosesOnlySpare | simulator/src/simulator/event_generator.py:907-930 | failures, retries and spare rows are all there is, so no row is lost if there is room for all, and otherwise only spare ones are |
| Ledger.TrimKeepsInOrder | simulator/src/simulator/event_generator.py:907-921 | the table begins with the failures, then the retries, then as many of the first spare rows as there is room for |
| Ledger.TopUpAt | simulator/src/simulator/event_generator.py:928-961 | the k-th top-up bills the k-th subscription in turn, at its amount, captured, and never in the future |
| Ledger.RetriesCarryRecovered | simulator/src/simulator/event_generator.py:788-826 | the retry payments sum to the recovered revenue, one per recovered case |
| Ledger.RecoveredAndSuppressedFit | simulator/src/simulator/event_generator.py:966-995 | recovered plus suppressed revenue is at most the revenue at risk |
| Ledger.GenerateBaseline | simulator/src/simulator/event_generator.py:998-1026 | counts and revenue over the cases by the reason of the payment each refers to |
| Ledger.HarmfulIsSuppressed | simulator/src/simulator/event_generator.py:998-1026 | the baseline's harmful retries are exactly the suppressed cases |
| Ledger.SuppressedIsHarmful | simulator/src/simulator/event_generator.py:966-995 | the suppressed revenue is the money of the failures that must not be chased |
| Ledger.BaselineExactly | simulator/src/simulator/event_generator.py:998-1026 | the baseline's recoveries, their revenue and its harmful retries, counted over the failures by reason |
| Behaviour.SummarizeCustomerBehaviour | simulator/src/simulator/event_generator.py:1142-1202 | every customer's profile counts their first attempts and measures the longest contiguous failing and paying blocks in order of age; the streak totals count the profiles that have them |
| Behaviour.HistoryExactly | simulator/src/simulator/event_generator.py:1149-1163 | a history is a rearrangement of the customer's first attempts in order of age |
| Behaviour.StreaksExactly | simulator/src/simulator/event_generator.py:1176-1179 | the totals are the numbers of customers with at least two failures, and at least three payments, in a row |
| Behaviour.ProfilesAddUp | simulator/src/simulator/event_generator.py:1142-1202 | over all customers the profiles account for every first attempt and every failed one once each |
| Streaks.Summarize | simulator/src/simulator/event_generator.py:1158-1175 | the one-pass records are the lengths of the longest failing and paying blocks, and failed plus captured invoices are the attempts |
| Streaks.OneMore | simulator/src/simulator/event_generator.py:1164-1171 | one more invoice extends or restarts the running block, and the record stays the longest |
| Billing.BillingDates | simulator/src/simulator/event_generator.py:127-147 | the two loops leave consecutive dates of the schedule, after those before the window, up to the present, cut by the two caps |
| Billing.ScheduleExactly | simulator/src/simulator/event_generator.py:127-147 | they list exactly the dates of the schedule in the window if and only if neither cap binds |
| Billing.ScheduleOrdered | simulator/src/simulator/event_generator.py:127-147 | the dates are strictly increasing |
| Billing.ScheduleSteps | simulator/src/simulator/event_generator.py:127-147 | consecutive dates are 1, 3 or 12 months apart by frequency, counted from the month of the start |
| Billing.ScheduleOnBillDay | simulator/src/simulator/event_generator.py:118-147 | every date falls on min(bill day, 28) at 07:12 and none is in the future |
| Billing.AddComposes | simulator/src/simulator/event_generator.py:118-124 | adding a months and then b is adding a + b |
| Billing.AddedMonths | simulator/src/simulator/event_generator.py:118-124 | the month count moves by exactly the months added, on a valid date of constant day |
| Billing.SkipToWindow | simulator/src/simulator/event_generator.py:135-141 | the first loop stops at the first date not before the window or at its cap |
| Billing.SkippedSkips | simulator/src/simulator/event_generator.py:135-140 | the dates passed over are exactly those before the window, unless the cap stops the search first |
| Billing.CollectDates | simulator/src/simulator/event_generator.py:141-147 | the second loop lists consecutive dates until the present or its cap |
| Payday.NextPaydayIsFirst | simulator/src/simulator/event_generator.py:687-692 | the next payday is the first day 1 to 5 strictly after the date, at most 27 days later |
| Payday.WaitUntilPayday | simulator/src/simulator/event_generator.py:687-698 | the day-by-day search ends on that day iff the look-ahead allows, and otherwise past the present; at 09:15, keeping the seconds |
| Payday.PaydayRecoversExactly | simulator/src/simulator/event_generator.py:699-721 | the strong-day test never rejects a wait that is over, so the failed retry is unreachable |
| Payday.BoostExactly | simulator/src/simulator/distributions.py:147-153 | both tests made of the boost hold exactly on the first ten days of a month |
| Payday.NextPaydayIso | apps/frontend/src/lib/recoveryMap.ts:352-367 | the web client's search ends on the next payday at 09:15, and hands an unreadable stamp back |
| Payday.SearchesAgreeExactly | apps/frontend/src/lib/recoveryMap.ts:352-367 | run on the same failure, the two searches name the same day iff the look-ahead does not cut the simulator's short, and the same instant iff also the failure fell on a whole minute; a search cut short ends past the present |
| Calendar.NextDayOrdinal | simulator/src/simulator/event_generator.py:687-692 | stepping a day advances the day count by one, across months and leap years |
| Calendar.YearLength | simulator/src/simulator/event_generator.py:118-124 | a year has 365 days, and one more in leap years |
| Calendar.OrdinalInjective | simulator/src/simulator/event_generator.py:118-124 | dates are ordered as year, month and day are |
| Webhooks.GenerateWebhooks | simulator/src/simulator/webhook_generator.py:31-96 | exactly the asked number of rows, originals first; it fails on an index iff there is no original and rows are asked for |
| Webhooks.AddDuplicates | simulator/src/simulator/webhook_generator.py:78-93 | each duplicate repeats the row as many places before it as there are originals, at a strictly later time, although the list it reads grows |
| Webhooks.MakeOriginals | simulator/src/simulator/webhook_generator.py:36-76 | one first delivery per selected payment with the event its state and draws give |
| Webhooks.KindExactly | simulator/src/simulator/webhook_generator.py:36-48 | which event an original reports, by the payment's state and the two draws |
| Webhooks.OriginalsExactly | simulator/src/simulator/webhook_generator.py:36-76 | an original is dated by its payment, processed after its draw, and shares its event with no other |
| Webhooks.EventsCycle | simulator/src/simulator/webhook_generator.py:78-93 | row j carries the event of row j mod u and is later than it |
| Webhooks.DedupUndoesDuplication | simulator/src/simulator/seed_database.py:131 | keeping the first row of every event gives back exactly the originals |

## Left out

- Tick.TickDue: the order in which due rows and claimed jobs are listed is left open.
- Payday.NextPaydayIso: one fixed time zone without clock changes; a date is read and written in the zone of the search.
- Behaviour.SummarizeCustomerBehaviour: leaves out the rounded reliability ratio and the latent discipline copied into the profile.
- Recovery.BuildCase: leaves out diagnosis texts, priority and confidence scores, and the payloads of actions and audit rows.
- Rows that the orchestrator did not write itself: seeded actions, ids not derived from a key, an unknown strategy name in the metadata.
- Interleaving of database statements inside one operation, transactions and rollbacks; each operation is one step, and one that breaks off keeps the writes it made.
- The in-memory store's aliasing of rows after a crash; reads return copies, as with the SQL store.
- Foreign calls: live requests and the choice between live and mock, the mapping of client error classes, the communication router and its channels and rate limit. Replies and deliveries are inputs.
- The planner, policy and diagnosis engines; plans and policies are inputs.
- Message texts, contacts, request and correlation ids, action chips, response messages and summaries.
- The recovery case's own status, which webhooks update beside the action.
- Floating-point ratios, averages and rounding in the metrics and the baseline; escalation and stop counts.
- The drawn delay of a top-up's payment time and the updated_at column.
- The generation of customers, subscriptions, first invoices, outages and communication costs; they are inputs.
- The text order of timestamps, taken as the order of time, and the calendar's end at year 9999.
- The share of unique webhooks computed in floating point; the number of originals is an input. Webhook payloads are left out.
