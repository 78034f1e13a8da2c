/**
  A run as one flat table. Steps.dfy follows the orchestrator through its nested methods; here
  the same run is told by its kind, with every label, time, link, event and queue entry
  written out. The two are proved equal.
 */
module RunTable {
  import opened Wrappers
  import opened Domain
  import opened Mapping
  import opened Gates
  import opened Sandbox
  import opened Scheduler
  import opened Steps
  import opened Invariants
  import opened StepInvariants
  import opened Units

  datatype Kind =
    | NoCase
    | Stands
    | Blocked
    | Held(until: Time)
    | Stopped
    | Escalated
    | WindowOver
    | HandsOn
    | CallBreaks
    | MessageBreaks
    | Refused
    | Unanswered
    | Undelivered
    | Delivers(delivery: DeliveryStatus)

  /** The label a row shows. */
  function LabelOf(r: Record): Display {
    if r.meta.deadLettered then Failed
    else if r.meta.expired then Expired
    else if r.meta.display.Some? then r.meta.display.value
    else match r.status
      case DbScheduled => Scheduled
      case DbRunning => Sent
      case DbSucceeded => Success
      case DbFailed => Failed
      case DbSkipped => Expired
      case DbCancelled => Cancelled
  }

  predicate WaitsByItself(strategy: Strategy) {
    strategy == WaitForPayday || strategy == HonourPromiseToPay
  }

  function KindOf(s: State, ctx: Context, force: bool, replay: bool, env: Env): Kind {
    if ctx.plan.caseId.None? then NoCase
    else
      var plan, policy, now := ctx.plan, ctx.policy, ctx.asOf;
      var key := Key(plan.caseId.value, plan.strategy, plan.scheduledAt);
      var shown := if key in s.actions then Some(LabelOf(s.actions[key])) else None;
      var cooling := policy.cooldownUntil.Some? && now < policy.cooldownUntil.value;
      if shown == Some(Success) || shown == Some(Cancelled) || shown == Some(Expired) then Stands
      else if shown == Some(Sent) && !replay then Stands
      else if policy.decision == Deny || policy.decision == Decision.Stop then Blocked
      else if policy.decision == Escalate && plan.strategy != EscalateToHuman then Blocked
      else if !replay && cooling then Held(Later(plan.scheduledAt, policy.cooldownUntil.value))
      else if !replay && policy.decision == Wait && policy.cooldownUntil == None && now < plan.scheduledAt then
        Held(plan.scheduledAt)
      else if !replay && (force || (WaitsByItself(plan.strategy) && now < plan.scheduledAt)) then Held(plan.scheduledAt)
      else match plan.strategy
        case StopRecovery => Stopped
        case EscalateToHuman => Escalated
        case WaitForPayday | HonourPromiseToPay => if WaitsByItself(plan.fallback) then WindowOver else HandsOn
        case _ => CallKind(plan.strategy, env)
  }

  function CallKind(strategy: Strategy, env: Env): Kind {
    match env.reply
    case TransientError => Unanswered
    case PermanentError => Refused
    case UnexpectedError => CallBreaks
    case Accepted =>
      match env.delivery
      case DeliveryRaises => MessageBreaks
      case SendsNothing => Delivers(Skipped)
      case Sends(DeliveryFailed) => if strategy == RetrySilently then Delivers(DeliveryFailed) else Undelivered
      case Sends(status) => Delivers(status)
  }

  /** Why the gate answered as it did, noted on the row whether or not a replay went past it. */
  function Why(ctx: Context, force: bool): GateReason {
    if ctx.policy.decision == Deny || ctx.policy.decision == Decision.Stop then PolicyReason
    else if ctx.policy.decision == Escalate && ctx.plan.strategy != EscalateToHuman then PolicyReason
    else if ctx.policy.cooldownUntil.Some? && ctx.asOf < ctx.policy.cooldownUntil.value then PolicyCooldown
    else if ctx.policy.decision == Wait && ctx.policy.cooldownUntil == None && ctx.asOf < ctx.plan.scheduledAt then
      PolicyWait
    else if force || (WaitsByItself(ctx.plan.strategy) && ctx.asOf < ctx.plan.scheduledAt) then PlanSchedule
    else GateAllow
  }

  // The row

  /** The row a run starts from: what it holds beside its metadata is kept from earlier runs. */
  function StartRow(s: State, ctx: Context, key: Key, why: GateReason): Record {
    var meta := Metadata(key, Some(ctx.plan.strategy), ctx.plan.fallback, ctx.policy.decision, why,
                         None, false, false, false, false, None, None, None);
    if key in s.actions then s.actions[key].(meta := meta)
    else
      Record(key, ctx.plan.caseId.GetOr(key.caseId), Some(ctx.plan.scheduledAt), None, DbScheduled, None, 0, None, meta)
  }

  function Labelled(r: Record, status: ExecutionStatus, display: Display): Record {
    r.(status := status, meta := r.meta.(display := Some(display)))
  }

  function Linked(r: Record, key: Key, delivery: DeliveryStatus): Record {
    r.(link := LinkOf(key), meta := r.meta.(resource := Some(ResourceOf(key)), delivery := Some(delivery)))
  }

  /** The delay after so many earlier failures: 1, 5, 30 or 120 minutes, moved by the draw
      within 15 or 45 seconds, 2 or 5 minutes. */
  function DelayAfter(failures: nat, offset: int): Time
    requires failures < 4
  {
    match failures
    case 0 => MINUTE + Within(offset, 15 * SECOND)
    case 1 => 5 * MINUTE + Within(offset, 45 * SECOND)
    case 2 => 30 * MINUTE + Within(offset, 2 * MINUTE)
    case 3 => 2 * HOUR + Within(offset, 5 * MINUTE)
  }

  function Within(offset: int, window: Time): Time {
    if offset < -window then -window else if window < offset then window else offset
  }

  /** The row after one more failure: retried up to four times, then dead-lettered. */
  function AfterFailure(r: Record, now: Time, offset: int): Record {
    var failed := r.(retryNumber := r.retryNumber + 1, response := Some(TransientCode));
    if r.retryNumber < 4 then
      Labelled(failed.(scheduledTime := Some(now + DelayAfter(r.retryNumber, offset)), executedTime := None,
                       meta := failed.meta.(retrying := true)), DbScheduled, Retrying)
    else
      Labelled(failed.(executedTime := Some(now), meta := failed.meta.(deadLettered := true)), DbFailed, Failed)
  }

  function RowAfter(r: Record, key: Key, kind: Kind, now: Time, offset: int): Record {
    var timed := r.(executedTime := Some(now));
    var sent := Labelled(timed, DbRunning, Sent);
    match kind
    case NoCase | Stands => r
    case Blocked => Labelled(if r.executedTime == None then timed else r, DbCancelled, Cancelled)
    case Held(until) => Labelled(r.(scheduledTime := Some(until)), DbScheduled, Scheduled)
    case Stopped => Labelled(timed, DbCancelled, Cancelled)
    case Escalated | WindowOver | HandsOn => Labelled(timed, DbSucceeded, Success)
    case CallBreaks | MessageBreaks => sent
    case Refused =>
      Labelled(sent.(response := Some(RejectedCode), meta := sent.meta.(rejected := true)), DbFailed, Failed)
    case Unanswered => AfterFailure(sent, now, offset)
    case Undelivered => AfterFailure(Linked(sent, key, DeliveryFailed), now, offset)
    case Delivers(delivery) => Labelled(Linked(sent, key, delivery).(response := Some(OkCode)), DbSucceeded, Success)
  }

  // Queue, trail, sandbox, log

  /** The job a run enqueues, if it leaves its row waiting. */
  function JobAfter(row: Record, key: Key, kind: Kind, why: GateReason): Option<Job> {
    match kind
    case Held(until) => Some(Job(key, key.caseId, until, Deferral(why), row.retryNumber, Pending))
    case Unanswered | Undelivered =>
      if row.retryNumber <= 4 then
        Some(Job(key, row.caseId, row.scheduledTime.GetOr(0), Backoff, row.retryNumber, Pending))
      else None
    case _ => None
  }

  /** How a run closes the job of its row, if it does. */
  function ClosedAs(row: Record, kind: Kind): Option<JobStatus> {
    match kind
    case NoCase | Stands | Held(_) | CallBreaks | MessageBreaks => None
    case Unanswered | Undelivered => if row.retryNumber <= 4 then None else Some(DeadLetter)
    case _ => Some(Finished)
  }

  function EventAfter(row: Record, kind: Kind): Option<AuditEvent> {
    match kind
    case NoCase | Stands | HandsOn | CallBreaks | MessageBreaks => None
    case Blocked | Stopped => Some(ActionSkipped)
    case Held(_) => Some(ActionScheduled)
    case Unanswered | Undelivered => Some(if row.retryNumber <= 4 then ActionScheduled else ActionExecuted)
    case _ => Some(ActionExecuted)
  }

  predicate Calls(kind: Kind) {
    match kind
    case CallBreaks | MessageBreaks | Refused | Unanswered | Undelivered | Delivers(_) => true
    case _ => false
  }

  function CallLogged(kind: Kind): CallOutcome
    requires Calls(kind)
  {
    match kind
    case CallBreaks | MessageBreaks => CallCrashed
    case Refused => CallRejected
    case Unanswered => CallTransient
    case Undelivered => CallUndelivered
    case Delivers(_) => CallSucceeded
  }

  function ServerAfter(server: Server, key: Key, amount: int): Server {
    var token := Token(key, key.strategy == RequestNewMandate);
    var entity := match key.strategy case RetryPayment | RetrySilently => OrderEntity
                                     case RequestNewMandate => SessionEntity
                                     case _ => LinkEntity;
    if token in server.cache then server
    else Server(server.cache[token := Body(ResourceOf(key), entity, amount, LinkOf(key))], server.created + [token])
  }

  function QueueAfter(jobs: map<Key, Job>, key: Key, put: Option<Job>, close: Option<JobStatus>): map<Key, Job> {
    if put.Some? then jobs[key := put.value]
    else if close.Some? && key in jobs then jobs[key := jobs[key].(status := close.value)]
    else jobs
  }

  /** Row, queue and trail after a run of the kind. */
  function TableRow(s: State, ctx: Context, key: Key, kind: Kind, row: Record, why: GateReason): State {
    var put, event := JobAfter(row, key, kind, why), EventAfter(row, kind);
    State(
      s.actions[key := row],
      if key in s.actions then s.inserted else s.inserted + [key],
      if event == None then s.audits
      else s.audits + [ActionAudit(row.caseId, event.value, ctx.policy.decision, key,
                                   row.meta.display, row.meta.resource, row.meta.delivery)],
      QueueAfter(s.jobs, key, put, ClosedAs(row, kind)),
      if put == None then s.enqueued else s.enqueued + [put.value],
      s.server,
      s.calls)
  }

  function CallOf(ctx: Context, key: Key, kind: Kind, replay: bool): Call
    requires Calls(kind)
  {
    Call(key, ctx.asOf, ctx.policy.decision, ctx.policy.cooldownUntil, replay, CallLogged(kind))
  }

  /** Everything a run of the kind does beside handing on. */
  function StateAfter(s: State, ctx: Context, key: Key, kind: Kind, row: Record, why: GateReason,
                      replay: bool, env: Env): State {
    var stored := TableRow(s, ctx, key, kind, row, why);
    if !Calls(kind) then stored
    else
      stored.(calls := s.calls + [CallOf(ctx, key, kind, replay)],
              server := if env.reply == Accepted || env.applied then ServerAfter(s.server, key, ctx.amount)
                        else s.server)
  }

  function Answer(r: Record, replayed: bool): Result {
    Result(r.id, LabelOf(r), r.status, r.scheduledTime, r.executedTime, r.retryNumber, r.link, r.meta.delivery,
           r.meta.resource, r.meta.deadLettered, replayed)
  }

  /** A run by the table. A wait that hands on is followed by a plain run of its fallback, at the
      same time, under the same policy, for the same amount. */
  function Tabled(s: State, ctx: Context, force: bool, replay: bool, env: Env): StepResult
    decreases if WaitsByItself(ctx.plan.strategy) then 1 else 0
  {
    var kind := KindOf(s, ctx, force, replay, env);
    if kind == NoCase then StepResult(s, Raised(MissingCase))
    else
      var key := Key(ctx.plan.caseId.value, ctx.plan.strategy, ctx.plan.scheduledAt);
      if kind == Stands then StepResult(s, Done(Answer(s.actions[key], true)))
      else
        var why := Why(ctx, force);
        var row := RowAfter(StartRow(s, ctx, key, why), key, kind, ctx.asOf, env.offset);
        var s' := StateAfter(s, ctx, key, kind, row, why, replay, env);
        match kind
        case CallBreaks | MessageBreaks => StepResult(s', Raised(Unexpected))
        case HandsOn =>
          var plan := Plan(ctx.plan.caseId, ctx.plan.fallback, ctx.plan.fallback, ctx.asOf);
          Tabled(s', Context(ctx.asOf, plan, ctx.policy, ctx.amount), false, false, env)
        case _ => StepResult(s', Done(Answer(row, false)))
  }

  // The two are the same

  lemma LabelsAgree(r: Record)
    ensures LabelOf(r) == DisplayOf(r)
  {
  }

  lemma GateAgrees(ctx: Context, force: bool)
    ensures var gate := EvaluateGates(ctx.plan, ctx.policy, ctx.asOf, force);
            gate.reason == Why(ctx, force) && (gate.block <==> Why(ctx, force).PolicyReason?)
            && (gate.defer <==> !Why(ctx, force).PolicyReason? && !Why(ctx, force).GateAllow?)
  {
  }

  lemma StartAgrees(s: State, ctx: Context, force: bool)
    requires ctx.plan.caseId.Some?
    ensures var key := MakeKey(ctx.plan.caseId.value, ctx.plan);
            Prepared(s, ctx, key, EvaluateGates(ctx.plan, ctx.policy, ctx.asOf, force)) ==
            StartRow(s, ctx, key, Why(ctx, force))
  {
    GateAgrees(ctx, force);
  }

  lemma Resaved(rows: map<Key, Record>, k: Key, first: Record, second: Record)
    ensures rows[k := first][k := second] == rows[k := second]
  {
  }

  /** What the table says of one kind of run, from its starting row. */
  function TableEntry(s: State, r: Record, ctx: Context, key: Key, kind: Kind, why: GateReason,
                      replay: bool, env: Env): State {
    StateAfter(s, ctx, key, kind, RowAfter(r, key, kind, ctx.asOf, env.offset), why, replay, env)
  }

  /** A starting row: its own id, and metadata fresh from the plan. */
  predicate IsStart(r: Record, key: Key) {
    r.id == key && r.meta.key == key && !r.meta.deadLettered && !r.meta.expired && r.meta.display == None
    && r.meta.resource == None && r.meta.delivery == None && !r.meta.rejected && !r.meta.retrying
  }

  lemma BlockedTabled(s: State, r: Record, ctx: Context, key: Key, why: GateReason, replay: bool, env: Env)
    requires IsStart(r, key)
    ensures var row := RowAfter(r, key, Blocked, ctx.asOf, env.offset);
            Finalized(s, r, ctx, Cancelled, ActionSkipped) ==
            StepResult(TableEntry(s, r, ctx, key, Blocked, why, replay, env), Done(Answer(row, false)))
  {
  }

  lemma HeldTabled(s: State, r: Record, ctx: Context, key: Key, gate: Gate, replay: bool, env: Env)
    requires IsStart(r, key) && gate.runAt.Some?
    ensures var row := RowAfter(r, key, Held(gate.runAt.value), ctx.asOf, env.offset);
            Deferred(s, r, ctx, gate) ==
            StepResult(TableEntry(s, r, ctx, key, Held(gate.runAt.value), gate.reason, replay, env),
                       Done(Answer(row, false)))
  {
  }

  lemma QuietTabled(s: State, r: Record, ctx: Context, key: Key, kind: Kind, why: GateReason, replay: bool, env: Env)
    requires IsStart(r, key) && (kind.Stopped? || kind.Escalated? || kind.WindowOver?)
    ensures var row := RowAfter(r, key, kind, ctx.asOf, env.offset);
            var sent := MarkedSent(r, ctx);
            var display := if kind.Stopped? then Cancelled else Success;
            var event := if kind.Stopped? then ActionSkipped else ActionExecuted;
            Finalized(Saved(s, sent), sent, ctx, display, event) ==
            StepResult(TableEntry(s, r, ctx, key, kind, why, replay, env), Done(Answer(row, false)))
  {
    Resaved(s.actions, key, MarkedSent(r, ctx), RowAfter(r, key, kind, ctx.asOf, env.offset));
  }

  lemma HandsOnTabled(s: State, r: Record, ctx: Context, key: Key, why: GateReason, replay: bool, env: Env)
    requires IsStart(r, key)
    ensures HandedOver(s, MarkedSent(r, ctx)) == TableEntry(s, r, ctx, key, HandsOn, why, replay, env)
  {
    Resaved(s.actions, key, MarkedSent(r, ctx), RowAfter(r, key, HandsOn, ctx.asOf, env.offset));
  }

  /** `mid` is `s` with the row stored, and perhaps another sandbox and log. */
  predicate StoredOnly(s: State, mid: State, sent: Record, key: Key) {
    && sent.id == key
    && mid.actions == s.actions[key := sent]
    && mid.inserted == (if key in s.actions then s.inserted else s.inserted + [key])
    && mid.audits == s.audits && mid.jobs == s.jobs && mid.enqueued == s.enqueued
  }

  /** An outbound run at the sandbox: its row is stored as sent, and its request made. */
  ghost predicate IsAsked(s: State, mid: State, r: Record, ctx: Context, key: Key, replay: bool, env: Env) {
    && StoredOnly(s, mid, MarkedSent(r, ctx), key)
    && mid.server == (if env.reply == Accepted || env.applied then ServerAfter(s.server, key, ctx.amount) else s.server)
    && mid.calls == s.calls + [CallOf(ctx, key, CallKind(ctx.plan.strategy, env), replay)]
    && (env.reply == Accepted ==>
          && TokenFor(key) in mid.server.cache
          && mid.server.cache[TokenFor(key)].id == ResourceOf(key)
          && mid.server.cache[TokenFor(key)].shortUrl == LinkOf(key))
  }

  lemma CallAgrees(ctx: Context, key: Key, replay: bool, env: Env)
    requires IsOutbound(ctx.plan.strategy)
    ensures Calls(CallKind(ctx.plan.strategy, env))
    ensures CallFor(ctx, key, replay, env) == CallOf(ctx, key, CallKind(ctx.plan.strategy, env), replay)
  {
  }

  lemma ServerAgrees(server: Server, key: Key, amount: int)
    requires IsOutbound(key.strategy)
    ensures Posted(server, PathFor(key.strategy), PayloadFor(key.strategy, amount), TokenFor(key)) ==
            ServerAfter(server, key, amount)
  {
  }

  lemma RequestTabled(s: State, r: Record, ctx: Context, key: Key, replay: bool, env: Env)
    requires IsStart(r, key) && IsOutbound(ctx.plan.strategy) && key.strategy == ctx.plan.strategy
    requires Global(s)
    ensures IsAsked(s, Requested(Saved(s, MarkedSent(r, ctx)), ctx, key, replay, env), r, ctx, key, replay, env)
  {
    CallAgrees(ctx, key, replay, env);
    ServerAgrees(s.server, key, ctx.amount);
    assert TokenFor(key) in s.server.cache ==> BodyOk(s, TokenFor(key));
  }

  lemma DelayAgrees(failures: nat, offset: int)
    ensures NextBackoff(failures, offset) == if failures < 4 then Some(DelayAfter(failures, offset)) else None
  {
  }

  lemma RetryTabled(s: State, mid: State, sent: Record, failed: Record, ctx: Context, key: Key, kind: Kind,
                    why: GateReason, offset: int)
    requires kind.Unanswered? || kind.Undelivered?
    requires StoredOnly(s, mid, sent, key) && failed.id == key && !failed.meta.deadLettered && !failed.meta.expired
    requires failed.retryNumber < 4
    ensures var row := AfterFailure(failed, ctx.asOf, offset);
            Rescheduled(mid, Bumped(failed), ctx, ctx.asOf + DelayAfter(failed.retryNumber, offset)) ==
            StepResult(TableRow(s, ctx, key, kind, row, why).(server := mid.server, calls := mid.calls),
                       Done(Answer(row, false)))
  {
    Resaved(s.actions, key, sent, AfterFailure(failed, ctx.asOf, offset));
  }

  lemma DeadLetterTabled(s: State, mid: State, sent: Record, failed: Record, ctx: Context, key: Key, kind: Kind,
                         why: GateReason, offset: int)
    requires kind.Unanswered? || kind.Undelivered?
    requires StoredOnly(s, mid, sent, key) && failed.id == key && !failed.meta.expired
    requires failed.executedTime == Some(ctx.asOf) && failed.retryNumber >= 4
    ensures var row := AfterFailure(failed, ctx.asOf, offset);
            DeadLettered(mid, Bumped(failed), ctx) ==
            StepResult(TableRow(s, ctx, key, kind, row, why).(server := mid.server, calls := mid.calls),
                       Done(Answer(row, false)))
  {
    Resaved(s.actions, key, sent, AfterFailure(failed, ctx.asOf, offset));
  }

  /** From there, one more failure. */
  lemma FailureTabled(s: State, mid: State, sent: Record, failed: Record, ctx: Context, key: Key, kind: Kind,
                      why: GateReason, offset: int)
    requires kind.Unanswered? || kind.Undelivered?
    requires StoredOnly(s, mid, sent, key) && failed.id == key && !failed.meta.deadLettered && !failed.meta.expired
    requires failed.executedTime == Some(ctx.asOf)
    ensures var row := AfterFailure(failed, ctx.asOf, offset);
            BackedOff(mid, failed, ctx, offset) ==
            StepResult(TableRow(s, ctx, key, kind, row, why).(server := mid.server, calls := mid.calls),
                       Done(Answer(row, false)))
  {
    DelayAgrees(failed.retryNumber, offset);
    if failed.retryNumber < 4 {
      RetryTabled(s, mid, sent, failed, ctx, key, kind, why, offset);
    } else {
      DeadLetterTabled(s, mid, sent, failed, ctx, key, kind, why, offset);
    }
  }

  /** Or an ending in success or failure. */
  lemma EndingTabled(s: State, mid: State, sent: Record, r: Record, ctx: Context, key: Key, kind: Kind, why: GateReason)
    requires StoredOnly(s, mid, sent, key) && r.id == key && !r.meta.deadLettered && !r.meta.expired
    requires r.executedTime == Some(ctx.asOf) && (kind.Refused? || kind.Delivers?)
    ensures var display := if kind.Refused? then Failed else Success;
            var row := Labelled(r, if kind.Refused? then DbFailed else DbSucceeded, display);
            Finalized(mid, r, ctx, display, ActionExecuted) ==
            StepResult(TableRow(s, ctx, key, kind, row, why).(server := mid.server, calls := mid.calls),
                       Done(Answer(row, false)))
  {
    var display := if kind.Refused? then Failed else Success;
    Resaved(s.actions, key, sent, Labelled(r, if kind.Refused? then DbFailed else DbSucceeded, display));
  }

  /** What an outbound run comes to, by the table. */
  function CallEntry(s: State, r: Record, ctx: Context, key: Key, why: GateReason, replay: bool, env: Env): StepResult {
    var kind := CallKind(ctx.plan.strategy, env);
    StepResult(TableEntry(s, r, ctx, key, kind, why, replay, env),
               if kind.CallBreaks? || kind.MessageBreaks? then Raised(Unexpected)
               else Done(Answer(RowAfter(r, key, kind, ctx.asOf, env.offset), false)))
  }

  /** The sandbox and the log of such a run are those of the state it asked in. */
  lemma EntryFrom(s: State, mid: State, r: Record, ctx: Context, key: Key, why: GateReason, replay: bool, env: Env)
    requires IsAsked(s, mid, r, ctx, key, replay, env) && IsOutbound(ctx.plan.strategy)
    ensures var kind := CallKind(ctx.plan.strategy, env);
            var row := RowAfter(r, key, kind, ctx.asOf, env.offset);
            && CallEntry(s, r, ctx, key, why, replay, env).state ==
               TableRow(s, ctx, key, kind, row, why).(server := mid.server, calls := mid.calls)
            && (kind.CallBreaks? || kind.MessageBreaks? ==> CallEntry(s, r, ctx, key, why, replay, env).state == mid)
  {
  }

  lemma UnacceptedTabled(s: State, mid: State, r: Record, ctx: Context, key: Key, why: GateReason,
                         replay: bool, env: Env)
    requires IsStart(r, key) && IsOutbound(ctx.plan.strategy) && key.strategy == ctx.plan.strategy
    requires IsAsked(s, mid, r, ctx, key, replay, env) && !env.reply.Accepted?
    ensures Answered(mid, MarkedSent(r, ctx), ctx, key, env) == CallEntry(s, r, ctx, key, why, replay, env)
  {
    var sent := MarkedSent(r, ctx);
    EntryFrom(s, mid, r, ctx, key, why, replay, env);
    match env.reply {
      case TransientError => FailureTabled(s, mid, sent, sent, ctx, key, Unanswered, why, env.offset);
      case PermanentError => EndingTabled(s, mid, sent, Rejected(sent), ctx, key, Refused, why);
      case _ =>
    }
  }

  lemma UndeliveredTabled(s: State, mid: State, sent: Record, linked: Record, ctx: Context, key: Key,
                          why: GateReason, env: Env)
    requires StoredOnly(s, mid, sent, key) && CallKind(ctx.plan.strategy, env).Undelivered?
    requires sent.executedTime == Some(ctx.asOf) && !sent.meta.deadLettered && !sent.meta.expired
    requires linked == sent.(link := LinkOf(key), meta := sent.meta.(resource := Some(ResourceOf(key))))
    ensures var row := AfterFailure(Linked(sent, key, DeliveryFailed), ctx.asOf, env.offset);
            Notified(mid, linked, ctx, env) ==
            StepResult(TableRow(s, ctx, key, Undelivered, row, why).(server := mid.server, calls := mid.calls),
                       Done(Answer(row, false)))
  {
    FailureTabled(s, mid, sent, Linked(sent, key, DeliveryFailed), ctx, key, Undelivered, why, env.offset);
  }

  lemma DeliveredTabled(s: State, mid: State, sent: Record, linked: Record, ctx: Context, key: Key,
                        why: GateReason, env: Env)
    requires StoredOnly(s, mid, sent, key) && CallKind(ctx.plan.strategy, env).Delivers?
    requires sent.executedTime == Some(ctx.asOf) && !sent.meta.deadLettered && !sent.meta.expired
    requires linked == sent.(link := LinkOf(key), meta := sent.meta.(resource := Some(ResourceOf(key))))
    ensures var kind := CallKind(ctx.plan.strategy, env);
            var row := Labelled(Linked(sent, key, kind.delivery).(response := Some(OkCode)), DbSucceeded, Success);
            Notified(mid, linked, ctx, env) ==
            StepResult(TableRow(s, ctx, key, kind, row, why).(server := mid.server, calls := mid.calls),
                       Done(Answer(row, false)))
  {
    var kind := CallKind(ctx.plan.strategy, env);
    EndingTabled(s, mid, sent, Linked(sent, key, kind.delivery).(response := Some(OkCode)), ctx, key, kind, why);
  }

  lemma AcceptedTabled(s: State, mid: State, r: Record, ctx: Context, key: Key, why: GateReason, replay: bool, env: Env)
    requires IsStart(r, key) && IsOutbound(ctx.plan.strategy) && key.strategy == ctx.plan.strategy
    requires IsAsked(s, mid, r, ctx, key, replay, env) && env.reply.Accepted?
    ensures Answered(mid, MarkedSent(r, ctx), ctx, key, env) == CallEntry(s, r, ctx, key, why, replay, env)
  {
    var sent := MarkedSent(r, ctx);
    var linked := WithResource(sent, mid.server.cache[TokenFor(key)]);
    EntryFrom(s, mid, r, ctx, key, why, replay, env);
    match CallKind(ctx.plan.strategy, env) {
      case Undelivered => UndeliveredTabled(s, mid, sent, linked, ctx, key, why, env);
      case Delivers(_) => DeliveredTabled(s, mid, sent, linked, ctx, key, why, env);
      case _ =>
    }
  }

  lemma OutboundTabled(s: State, r: Record, ctx: Context, key: Key, why: GateReason, replay: bool, env: Env)
    requires IsStart(r, key) && IsOutbound(ctx.plan.strategy) && key.strategy == ctx.plan.strategy
    requires Global(s)
    ensures Dispatched(s, r, ctx, key, replay, env) == CallEntry(s, r, ctx, key, why, replay, env)
  {
    var mid := Requested(Saved(s, MarkedSent(r, ctx)), ctx, key, replay, env);
    RequestTabled(s, r, ctx, key, replay, env);
    if env.reply.Accepted? {
      AcceptedTabled(s, mid, r, ctx, key, why, replay, env);
    } else {
      UnacceptedTabled(s, mid, r, ctx, key, why, replay, env);
    }
  }

  /** Which kind an unfinished run is, by the gate and the strategy. */
  lemma KindTold(s: State, ctx: Context, force: bool, replay: bool, env: Env)
    requires ctx.plan.caseId.Some?
    ensures var key := MakeKey(ctx.plan.caseId.value, ctx.plan);
            var kind, gate := KindOf(s, ctx, force, replay, env), EvaluateGates(ctx.plan, ctx.policy, ctx.asOf, force);
            && (kind.Stands? <==> AlreadyDone(s, key, replay))
            && (!kind.Stands? ==>
                  && (kind.Blocked? <==> gate.block)
                  && (kind.Held? <==> gate.defer && !replay)
                  && (kind.Held? ==> gate.runAt == Some(kind.until))
                  && (!kind.Blocked? && !kind.Held? ==>
                        && (kind.Stopped? <==> ctx.plan.strategy.StopRecovery?)
                        && (kind.Escalated? <==> ctx.plan.strategy.EscalateToHuman?)
                        && (kind.HandsOn? <==> IsWait(ctx.plan.strategy) && HasFallback(ctx.plan))
                        && (kind.WindowOver? <==> IsWait(ctx.plan.strategy) && !HasFallback(ctx.plan))
                        && (IsOutbound(ctx.plan.strategy) ==> kind == CallKind(ctx.plan.strategy, env))))
  {
    if MakeKey(ctx.plan.caseId.value, ctx.plan) in s.actions {
      LabelsAgree(s.actions[MakeKey(ctx.plan.caseId.value, ctx.plan)]);
    }
  }

  /** A run does what the table says, in every respect, from every state that can be reached. */
  lemma RunIsTabled(s: State, ctx: Context, force: bool, replay: bool, env: Env)
    requires Valid(s)
    ensures Ran(s, ctx, force, replay, env) == Tabled(s, ctx, force, replay, env)
    decreases if IsWait(ctx.plan.strategy) then 1 else 0, 2
  {
    if ctx.plan.caseId.Some? {
      var key := MakeKey(ctx.plan.caseId.value, ctx.plan);
      assert KeyOk(s, key);
      KindTold(s, ctx, force, replay, env);
      if AlreadyDone(s, key, replay) {
        LabelsAgree(s.actions[key]);
      } else {
        UnfinishedIsTabled(s, ctx, force, replay, env);
      }
    }
  }

  lemma HandsOnIsTabled(s: State, ctx: Context, force: bool, replay: bool, env: Env)
    requires Valid(s) && ctx.plan.caseId.Some? && KindOf(s, ctx, force, replay, env).HandsOn?
    ensures Ran(s, ctx, force, replay, env) == Tabled(s, ctx, force, replay, env)
    decreases 0, 3
  {
    var key := MakeKey(ctx.plan.caseId.value, ctx.plan);
    var why := Why(ctx, force);
    var r := StartRow(s, ctx, key, why);
    var mid := TableEntry(s, r, ctx, key, HandsOn, why, replay, env);
    KindTold(s, ctx, force, replay, env);
    StartAgrees(s, ctx, force);
    assert KeyOk(s, key);
    HandsOnTabled(s, r, ctx, key, why, replay, env);
    PreparedReady(s, ctx, key, EvaluateGates(ctx.plan, ctx.policy, ctx.asOf, force));
    HandedOverKeeps(s, MarkedSent(r, ctx));
    RunIsTabled(mid, FallbackContext(ctx), false, false, env);
    HandsOnTold(s, ctx, force, replay, env, mid);
  }

  /** Both sides of such a run are the fallback's, from the state handed over. */
  lemma HandsOnTold(s: State, ctx: Context, force: bool, replay: bool, env: Env, mid: State)
    requires ctx.plan.caseId.Some? && KindOf(s, ctx, force, replay, env).HandsOn?
    requires var key, why := MakeKey(ctx.plan.caseId.value, ctx.plan), Why(ctx, force);
             && mid == TableEntry(s, StartRow(s, ctx, key, why), ctx, key, HandsOn, why, replay, env)
             && mid == HandedOver(s, MarkedSent(StartRow(s, ctx, key, why), ctx))
    ensures Tabled(s, ctx, force, replay, env) == Tabled(mid, FallbackContext(ctx), false, false, env)
    ensures Ran(s, ctx, force, replay, env) == Ran(mid, FallbackContext(ctx), false, false, env)
  {
    KindTold(s, ctx, force, replay, env);
    StartAgrees(s, ctx, force);
  }

  lemma UnfinishedIsTabled(s: State, ctx: Context, force: bool, replay: bool, env: Env)
    requires Valid(s) && ctx.plan.caseId.Some?
    requires !AlreadyDone(s, MakeKey(ctx.plan.caseId.value, ctx.plan), replay)
    ensures Ran(s, ctx, force, replay, env) == Tabled(s, ctx, force, replay, env)
    decreases if IsWait(ctx.plan.strategy) then 1 else 0, 0
  {
    var key := MakeKey(ctx.plan.caseId.value, ctx.plan);
    var why := Why(ctx, force);
    var r := StartRow(s, ctx, key, why);
    assert KeyOk(s, key);
    KindTold(s, ctx, force, replay, env);
    StartAgrees(s, ctx, force);
    assert IsStart(r, key);
    if KindOf(s, ctx, force, replay, env).HandsOn? {
      HandsOnIsTabled(s, ctx, force, replay, env);
    } else if IsOutbound(ctx.plan.strategy) && Permitted(ctx, force, replay) {
      OutboundIsTabled(s, r, ctx, force, replay, env);
    } else {
      RestIsTabled(s, r, ctx, force, replay, env);
    }
  }

  lemma OutboundIsTabled(s: State, r: Record, ctx: Context, force: bool, replay: bool, env: Env)
    requires Global(s) && ctx.plan.caseId.Some? && IsOutbound(ctx.plan.strategy) && Permitted(ctx, force, replay)
    requires var key := MakeKey(ctx.plan.caseId.value, ctx.plan);
             && !AlreadyDone(s, key, replay) && IsStart(r, key)
             && r == Prepared(s, ctx, key, EvaluateGates(ctx.plan, ctx.policy, ctx.asOf, force))
             && r == StartRow(s, ctx, key, Why(ctx, force))
    ensures Ran(s, ctx, force, replay, env) == Tabled(s, ctx, force, replay, env)
  {
    var key := MakeKey(ctx.plan.caseId.value, ctx.plan);
    OutboundTabled(s, r, ctx, key, Why(ctx, force), replay, env);
    OutboundTold(s, r, ctx, force, replay, env);
    assert Ran(s, ctx, force, replay, env) == Dispatched(s, r, ctx, key, replay, env);
  }

  /** The table's side of such a run. */
  lemma OutboundTold(s: State, r: Record, ctx: Context, force: bool, replay: bool, env: Env)
    requires ctx.plan.caseId.Some? && IsOutbound(ctx.plan.strategy) && Permitted(ctx, force, replay)
    requires !AlreadyDone(s, MakeKey(ctx.plan.caseId.value, ctx.plan), replay)
    requires r == StartRow(s, ctx, MakeKey(ctx.plan.caseId.value, ctx.plan), Why(ctx, force))
    ensures var key, why := MakeKey(ctx.plan.caseId.value, ctx.plan), Why(ctx, force);
            Tabled(s, ctx, force, replay, env) == CallEntry(s, r, ctx, key, why, replay, env)
  {
    KindTold(s, ctx, force, replay, env);
  }

  lemma RestIsTabled(s: State, r: Record, ctx: Context, force: bool, replay: bool, env: Env)
    requires ctx.plan.caseId.Some?
    requires var key := MakeKey(ctx.plan.caseId.value, ctx.plan);
             && !AlreadyDone(s, key, replay) && IsStart(r, key)
             && r == Prepared(s, ctx, key, EvaluateGates(ctx.plan, ctx.policy, ctx.asOf, force))
             && r == StartRow(s, ctx, key, Why(ctx, force))
    requires !HandsOver(ctx, force, replay) && !(IsOutbound(ctx.plan.strategy) && Permitted(ctx, force, replay))
    ensures Ran(s, ctx, force, replay, env) == Tabled(s, ctx, force, replay, env)
  {
    var key := MakeKey(ctx.plan.caseId.value, ctx.plan);
    var why := Why(ctx, force);
    KindTold(s, ctx, force, replay, env);
    GateAgrees(ctx, force);
    match KindOf(s, ctx, force, replay, env) {
      case Blocked => BlockedTabled(s, r, ctx, key, why, replay, env);
      case Held(until) =>
        HeldTabled(s, r, ctx, key, EvaluateGates(ctx.plan, ctx.policy, ctx.asOf, force), replay, env);
      case kind => QuietTabled(s, r, ctx, key, kind, why, replay, env);
    }
  }

  // Replays, due rows and webhooks

  /** A replay of an unknown id finds nothing; any other is a run of the fresh plan that skips
      deferrals. */
  lemma ReplayIsTabled(s: State, id: Key, ctx: Context, env: Env)
    requires Valid(s)
    ensures Replayed(s, id, ctx, env) ==
            if id in s.actions then Tabled(s, ctx, false, true, env) else StepResult(s, Raised(NotFound))
  {
    RunIsTabled(s, ctx, false, true, env);
  }

  /** A due row by the table: a wait whose time has come is stored as done, its job closed, and
      its plan's fallback run plainly; anything else is run as a replay. */
  function DueTabled(s: State, record: Record, ctx: Context, env: Env): StepResult {
    var strategy := if record.meta.strategy.Some? then record.meta.strategy.value else ctx.plan.strategy;
    if WaitsByItself(strategy) && (record.scheduledTime == None || record.scheduledTime.value <= ctx.asOf) then
      var row := Labelled(record.(executedTime := Some(ctx.asOf)), DbSucceeded, Success);
      var s' := s.(actions := s.actions[record.id := row],
                   inserted := if record.id in s.actions then s.inserted else s.inserted + [record.id],
                   jobs := QueueAfter(s.jobs, record.id, None, Some(Finished)));
      if WaitsByItself(ctx.plan.fallback) then StepResult(s', Done(Answer(row, false)))
      else
        var plan := Plan(ctx.plan.caseId, ctx.plan.fallback, ctx.plan.fallback, ctx.asOf);
        Tabled(s', Context(ctx.asOf, plan, ctx.policy, ctx.amount), false, false, env)
    else Tabled(s, ctx, false, true, env)
  }

  lemma DueIsTabled(s: State, record: Record, ctx: Context, env: Env)
    requires Valid(s) && Snapshot(s, record)
    ensures RanDue(s, record, ctx, env) == DueTabled(s, record, ctx, env)
  {
    if WindowReached(record, ctx) {
      WaitClosedKeeps(s, record, ctx);
      RunIsTabled(WaitClosed(s, record, ctx), FallbackContext(ctx), false, false, env);
    } else {
      RunIsTabled(s, ctx, false, true, env);
    }
  }

  /** The label each provider event leaves on the row it lands on. */
  function WebhookLabel(event: ProviderEvent): (Display, ExecutionStatus) {
    match event
    case PaymentCaptured | PaymentLinkPaid | SubscriptionCharged => (Success, DbSucceeded)
    case SubscriptionCancelled | SubscriptionPaused => (Cancelled, DbCancelled)
    case PaymentFailed => (Failed, DbFailed)
    case PaymentAuthorized | OtherEvent => (Sent, DbRunning)
  }

  /** And the event it is audited as. */
  function WebhookEvent(event: ProviderEvent): AuditEvent {
    match event
    case PaymentCaptured | PaymentLinkPaid | SubscriptionCharged => PaymentWasCaptured
    case SubscriptionCancelled | SubscriptionPaused => RecoveryStopped
    case PaymentFailed | PaymentAuthorized | OtherEvent => ActionExecuted
  }

  /** A webhook by the table: a duplicate is only noted; a first delivery labels the case's
      newest row, and a capture also times it and closes its job. */
  function WebhookTabled(s: State, caseId: CaseId, event: ProviderEvent, asOf: Time, duplicate: bool): State {
    var history := NewestFirst(s.actions, s.inserted, caseId);
    if duplicate then s.(audits := s.audits + [WebhookAudit(caseId, ActionExecuted, event, true, None)])
    else if history == [] then
      s.(audits := s.audits + [WebhookAudit(caseId, WebhookEvent(event), event, false, None)])
    else
      var r, (shown, status) := history[0], WebhookLabel(event);
      var timed := if shown == Success && r.executedTime == None then r.(executedTime := Some(asOf)) else r;
      var row := Labelled(timed.(meta := r.meta.(webhook := Some(event))), status, shown);
      s.(actions := s.actions[r.id := row],
         inserted := if r.id in s.actions then s.inserted else s.inserted + [r.id],
         jobs := QueueAfter(s.jobs, r.id, None, if shown == Success then Some(Finished) else None),
         audits := s.audits + [WebhookAudit(caseId, WebhookEvent(event), event, false, Some(r.id))])
  }

  lemma WebhookIsTabled(s: State, caseId: CaseId, event: ProviderEvent, asOf: Time, duplicate: bool)
    ensures WebhookApplied(s, caseId, event, asOf, duplicate) == WebhookTabled(s, caseId, event, asOf, duplicate)
  {
  }
}
