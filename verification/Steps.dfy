/**
  The orchestrator's operations as functions from the state before to the state after.
  The class in Orchestrator.dfy is proved to compute these; Invariants.dfy and the files
  after it prove what they promise.
 */
module Steps {
  import opened Wrappers
  import opened Domain
  import opened Mapping
  import opened Gates
  import opened Sandbox
  import opened Scheduler

  /**
    The action store (rows, their insertion order and the audit trail), the queue (jobs,
    and every job ever enqueued), the sandbox, and the log of requests made to it.
   */
  datatype State = State(
    actions: map<Key, Record>,
    inserted: seq<Key>,
    audits: seq<Audit>,
    jobs: map<Key, Job>,
    enqueued: seq<Job>,
    server: Server,
    calls: seq<Call>)

  const INITIAL := State(map[], [], [], map[], [], EMPTY, [])

  datatype StepResult = StepResult(state: State, outcome: Outcome)

  function MakeKey(caseId: CaseId, plan: Plan): Key {
    Key(caseId, plan.strategy, plan.scheduledAt)
  }

  // Elementary changes

  function WithDisplay(r: Record, display: Display): Record {
    r.(meta := r.meta.(display := Some(display)), status := DbStatusFor(display))
  }

  function Saved(s: State, r: Record): State {
    s.(actions := s.actions[r.id := r],
       inserted := if r.id in s.actions then s.inserted else s.inserted + [r.id])
  }

  function Enqueued(s: State, job: Job): State {
    s.(jobs := s.jobs[job.id := job], enqueued := s.enqueued + [job])
  }

  function JobClosed(s: State, id: Key, status: JobStatus): State {
    s.(jobs := Completed(s.jobs, id, status))
  }

  function Audited(s: State, row: Audit): State {
    s.(audits := s.audits + [row])
  }

  function ActionRow(ctx: Context, event: AuditEvent, r: Record): Audit {
    ActionAudit(r.caseId, event, ctx.policy.decision, r.id, r.meta.display, r.meta.resource, r.meta.delivery)
  }

  function ResultFrom(r: Record, replayed: bool): Result {
    Result(r.id, DisplayOf(r), r.status, r.scheduledTime, r.executedTime, r.retryNumber,
           r.link, r.meta.delivery, r.meta.resource, r.meta.deadLettered, replayed)
  }

  // Preparation

  function BaseMetadata(ctx: Context, key: Key, gate: Gate): Metadata {
    Metadata(key, Some(ctx.plan.strategy), ctx.plan.fallback, ctx.policy.decision, gate.reason,
             None, false, false, false, false, None, None, None)
  }

  /** The row a run works on: the stored one, or a new one, under fresh metadata. */
  function Prepared(s: State, ctx: Context, key: Key, gate: Gate): Record {
    var base := BaseMetadata(ctx, key, gate);
    if key in s.actions then s.actions[key].(meta := base)
    else Record(key, key.caseId, Some(ctx.plan.scheduledAt), None, DbScheduled, None, 0, None, base)
  }

  predicate AlreadyDone(s: State, key: Key, replay: bool) {
    key in s.actions &&
    var display := DisplayOf(s.actions[key]);
    IsTerminal(display) || (!replay && display.Sent?)
  }

  // Endings of a run

  function Finalized(s: State, r: Record, ctx: Context, display: Display, event: AuditEvent): StepResult {
    var closes := display.Success? || display.Failed? || display.Cancelled?;
    var timed := if closes && r.executedTime.None? then r.(executedTime := Some(ctx.asOf)) else r;
    var stored := WithDisplay(timed, display);
    var s1 := Saved(s, stored);
    var s2 := if closes then JobClosed(s1, stored.id, Finished) else s1;
    StepResult(Audited(s2, ActionRow(ctx, event, stored)), Done(ResultFrom(stored, false)))
  }

  function Deferred(s: State, r: Record, ctx: Context, gate: Gate): StepResult {
    var runAt := gate.runAt.GetOr(ctx.plan.scheduledAt);
    var stored := WithDisplay(r.(scheduledTime := Some(runAt)), Scheduled);
    var s1 := Saved(s, stored);
    var s2 := Enqueued(s1, Job(stored.id, stored.id.caseId, runAt, Deferral(gate.reason), stored.retryNumber, Pending));
    StepResult(Audited(s2, ActionRow(ctx, ActionScheduled, stored)), Done(ResultFrom(stored, false)))
  }

  /** The row after one more transient failure. */
  function Bumped(r: Record): Record {
    r.(retryNumber := r.retryNumber + 1, response := Some(TransientCode))
  }

  function DeadLettered(s: State, failed: Record, ctx: Context): StepResult {
    var stored := WithDisplay(failed.(meta := failed.meta.(deadLettered := true)), Failed);
    var s1 := JobClosed(Saved(s, stored), stored.id, DeadLetter);
    StepResult(Audited(s1, ActionRow(ctx, ActionExecuted, stored)), Done(ResultFrom(stored, false)))
  }

  function Rescheduled(s: State, failed: Record, ctx: Context, runAt: Time): StepResult {
    var retrying := failed.(scheduledTime := Some(runAt), executedTime := None, meta := failed.meta.(retrying := true));
    var stored := WithDisplay(retrying, Retrying);
    var s1 := Enqueued(Saved(s, stored), Job(stored.id, stored.caseId, runAt, Backoff, stored.retryNumber, Pending));
    StepResult(Audited(s1, ActionRow(ctx, ActionScheduled, stored)), Done(ResultFrom(stored, false)))
  }

  function BackedOff(s: State, r: Record, ctx: Context, offset: int): StepResult {
    var delay := NextBackoff(r.retryNumber, offset);
    if delay.None? then DeadLettered(s, Bumped(r), ctx)
    else Rescheduled(s, Bumped(r), ctx, ctx.asOf + delay.value)
  }

  // Dispatch

  predicate Silent(strategy: Strategy) {
    strategy.RetrySilently?
  }

  function DeliveryStatusOf(delivery: Delivery): DeliveryStatus
    requires !delivery.DeliveryRaises?
  {
    if delivery.Sends? then delivery.status else Skipped
  }

  function CallOutcomeOf(env: Env, strategy: Strategy): CallOutcome {
    match env.reply
    case TransientError => CallTransient
    case PermanentError => CallRejected
    case UnexpectedError => CallCrashed
    case Accepted =>
      if env.delivery.DeliveryRaises? then CallCrashed
      else if DeliveryStatusOf(env.delivery).DeliveryFailed? && !Silent(strategy) then CallUndelivered
      else CallSucceeded
  }

  function CallFor(ctx: Context, key: Key, replay: bool, env: Env): Call {
    Call(key, ctx.asOf, ctx.policy.decision, ctx.policy.cooldownUntil, replay, CallOutcomeOf(env, ctx.plan.strategy))
  }

  /** The state once the request has been made: logged, and perhaps taken in by the server. */
  function Requested(s: State, ctx: Context, key: Key, replay: bool, env: Env): State {
    s.(calls := s.calls + [CallFor(ctx, key, replay, env)],
       server := if env.reply.Accepted? || env.applied
                 then Posted(s.server, PathFor(ctx.plan.strategy), PayloadFor(ctx.plan.strategy, ctx.amount),
                             TokenFor(key))
                 else s.server)
  }

  function WithResource(r: Record, body: Body): Record {
    r.(link := body.shortUrl, meta := r.meta.(resource := Some(body.id)))
  }

  /** The message to the customer, once the row carries the sandbox's resource. */
  function Notified(s: State, linked: Record, ctx: Context, env: Env): StepResult {
    if env.delivery.DeliveryRaises? then StepResult(s, Raised(Unexpected))
    else
      var delivery := DeliveryStatusOf(env.delivery);
      var notified := linked.(meta := linked.meta.(delivery := Some(delivery)));
      if delivery.DeliveryFailed? && !Silent(ctx.plan.strategy) then BackedOff(s, notified, ctx, env.offset)
      else Finalized(s, notified.(response := Some(OkCode)), ctx, Success, ActionExecuted)
  }

  /** The row after a permanent error. */
  function Rejected(r: Record): Record {
    r.(response := Some(RejectedCode), meta := r.meta.(rejected := true))
  }

  function Answered(s: State, sent: Record, ctx: Context, key: Key, env: Env): StepResult
    requires env.reply.Accepted? ==> TokenFor(key) in s.server.cache
  {
    match env.reply
    case TransientError => BackedOff(s, sent, ctx, env.offset)
    case PermanentError =>
      Finalized(s, Rejected(sent), ctx, Failed, ActionExecuted)
    case UnexpectedError => StepResult(s, Raised(Unexpected))
    case Accepted => Notified(s, WithResource(sent, s.server.cache[TokenFor(key)]), ctx, env)
  }

  predicate HasFallback(plan: Plan) {
    !IsWait(plan.fallback) && plan.fallback != plan.strategy
  }

  /** The plan a wait hands over to. */
  function FallbackContext(ctx: Context): Context {
    ctx.(plan := ctx.plan.(strategy := ctx.plan.fallback, scheduledAt := ctx.asOf))
  }

  /** A wait that hands over is stored as sent, then as done, and its job is closed. */
  function HandedOver(s: State, sent: Record): State {
    JobClosed(Saved(Saved(s, sent), WithDisplay(sent, Success)), sent.id, Finished)
  }

  /** The row as a dispatch first stores it. */
  function MarkedSent(r: Record, ctx: Context): Record {
    WithDisplay(r.(executedTime := Some(ctx.asOf)), Sent)
  }

  function Dispatched(s: State, r: Record, ctx: Context, key: Key, replay: bool, env: Env): StepResult
    decreases if IsWait(ctx.plan.strategy) then 1 else 0, 0
  {
    var sent := MarkedSent(r, ctx);
    var s1 := Saved(s, sent);
    if ctx.plan.strategy.StopRecovery? then Finalized(s1, sent, ctx, Cancelled, ActionSkipped)
    else if ctx.plan.strategy.EscalateToHuman? then Finalized(s1, sent, ctx, Success, ActionExecuted)
    else if IsWait(ctx.plan.strategy) then
      if HasFallback(ctx.plan) then
        Ran(HandedOver(s, sent), FallbackContext(ctx), false, false, env)
      else
        Finalized(s1, sent, ctx, Success, ActionExecuted)
    else
      Answered(Requested(s1, ctx, key, replay, env), sent, ctx, key, env)
  }

  function Ran(s: State, ctx: Context, force: bool, replay: bool, env: Env): StepResult
    decreases if IsWait(ctx.plan.strategy) then 1 else 0, 1
  {
    if ctx.plan.caseId.None? then StepResult(s, Raised(MissingCase))
    else
      var key := MakeKey(ctx.plan.caseId.value, ctx.plan);
      if AlreadyDone(s, key, replay) then StepResult(s, Done(ResultFrom(s.actions[key], true)))
      else
        var gate := EvaluateGates(ctx.plan, ctx.policy, ctx.asOf, force);
        var r := Prepared(s, ctx, key, gate);
        if gate.block then Finalized(s, r, ctx, Cancelled, ActionSkipped)
        else if gate.defer && !replay then Deferred(s, r, ctx, gate)
        else Dispatched(s, r, ctx, key, replay, env)
  }

  // Entry points beside run

  function Replayed(s: State, id: Key, ctx: Context, env: Env): StepResult {
    if id in s.actions then Ran(s, ctx, false, true, env) else StepResult(s, Raised(NotFound))
  }

  predicate WindowReached(record: Record, ctx: Context) {
    && IsWait(record.meta.strategy.GetOr(ctx.plan.strategy))
    && ctx.asOf >= record.scheduledTime.GetOr(ctx.asOf)
  }

  /** What run_due stores for a wait whose time has come. */
  function WaitOver(record: Record, ctx: Context): Record {
    WithDisplay(record.(executedTime := Some(ctx.asOf)), Success)
  }

  /** The state in which a due wait's fallback runs. */
  function WaitClosed(s: State, record: Record, ctx: Context): State {
    JobClosed(Saved(s, WaitOver(record, ctx)), record.id, Finished)
  }

  function RanDue(s: State, record: Record, ctx: Context, env: Env): StepResult {
    if WindowReached(record, ctx) then
      var s1 := WaitClosed(s, record, ctx);
      if !IsWait(ctx.plan.fallback) && ctx.plan.fallback != record.meta.strategy.GetOr(ctx.plan.strategy) then
        Ran(s1, FallbackContext(ctx), false, false, env)
      else StepResult(s1, Done(ResultFrom(WaitOver(record, ctx), false)))
    else Ran(s, ctx, false, true, env)
  }

  predicate IsCapture(event: ProviderEvent) {
    event.PaymentCaptured? || event.PaymentLinkPaid? || event.SubscriptionCharged?
  }

  predicate IsStop(event: ProviderEvent) {
    event.SubscriptionCancelled? || event.SubscriptionPaused?
  }

  function EventDisplay(event: ProviderEvent): Display {
    if IsCapture(event) then Success
    else if IsStop(event) then Cancelled
    else if event.PaymentFailed? then Failed
    else Sent
  }

  function EventAudit(event: ProviderEvent): AuditEvent {
    if IsCapture(event) then PaymentWasCaptured
    else if IsStop(event) then RecoveryStopped
    else ActionExecuted
  }

  /** The case's rows, newest first. */
  function NewestFirst(actions: map<Key, Record>, inserted: seq<Key>, caseId: CaseId): seq<Record> {
    if inserted == [] then []
    else
      var last := inserted[|inserted| - 1];
      var rest := NewestFirst(actions, inserted[..|inserted| - 1], caseId);
      if last in actions && actions[last].caseId == caseId then [actions[last]] + rest else rest
  }

  function Noted(r: Record, event: ProviderEvent, asOf: Time): Record {
    var display := EventDisplay(event);
    var noted := r.(meta := r.meta.(webhook := Some(event)));
    WithDisplay(if display.Success? && r.executedTime.None? then noted.(executedTime := Some(asOf)) else noted, display)
  }

  function WebhookApplied(s: State, caseId: CaseId, event: ProviderEvent, asOf: Time, replay: bool): State {
    var history := NewestFirst(s.actions, s.inserted, caseId);
    if replay then Audited(s, WebhookAudit(caseId, ActionExecuted, event, true, None))
    else if history == [] then Audited(s, WebhookAudit(caseId, EventAudit(event), event, false, None))
    else
      var r := history[0];
      var s1 := if EventDisplay(event).Success? then JobClosed(s, r.id, Finished) else s;
      Audited(Saved(s1, Noted(r, event, asOf)), WebhookAudit(caseId, EventAudit(event), event, false, Some(r.id)))
  }

  /** The head of a case's history is a stored row of that case, and no later insertion is. */
  lemma {:induction false} NewestIsStored(actions: map<Key, Record>, inserted: seq<Key>, caseId: CaseId)
    ensures var rows := NewestFirst(actions, inserted, caseId);
            rows != [] ==>
              exists i :: 0 <= i < |inserted|
                && inserted[i] in actions && actions[inserted[i]] == rows[0] && rows[0].caseId == caseId
                && forall j :: i < j < |inserted| && inserted[j] in actions ==> actions[inserted[j]].caseId != caseId
  {
    if inserted != [] {
      var n := |inserted| - 1;
      var last := inserted[n];
      if last in actions && actions[last].caseId == caseId {
        assert NewestFirst(actions, inserted, caseId)[0] == actions[inserted[n]];
      } else {
        NewestIsStored(actions, inserted[..n], caseId);
        var rows := NewestFirst(actions, inserted[..n], caseId);
        if rows != [] {
          var i :| 0 <= i < n && inserted[..n][i] in actions && actions[inserted[..n][i]] == rows[0]
            && forall j :: i < j < n && inserted[..n][j] in actions ==> actions[inserted[..n][j]].caseId != caseId;
          forall j | i < j < |inserted| && inserted[j] in actions
            ensures actions[inserted[j]].caseId != caseId
          {
            if j < n { assert inserted[..n][j] == inserted[j]; }
          }
          assert actions[inserted[i]] == rows[0];
        }
      }
    }
  }
}
