/** What a run comes to, told from its inputs, and that result, row and audit trail agree. */
module Outcomes {
  import opened Wrappers
  import opened Domain
  import opened Mapping
  import opened Gates
  import opened Sandbox
  import opened Scheduler
  import opened Steps
  import opened Invariants
  import opened StepInvariants
  import opened Accounting

  // Result, row and audit row say the same

  /** The event an action is audited as goes by the label it ends with. */
  function EventFor(display: Display): AuditEvent {
    if display.Cancelled? then ActionSkipped
    else if IsWaiting(display) then ActionScheduled
    else ActionExecuted
  }

  /** A result repeats its row field by field. */
  predicate Describes(result: Result, r: Record) {
    && result.id == r.id && result.display == DisplayOf(r) && result.status == r.status
    && result.scheduledTime == r.scheduledTime && result.executedTime == r.executedTime
    && result.retryAttempts == r.retryNumber && result.link == r.link
    && result.delivery == r.meta.delivery && result.resource == r.meta.resource
    && result.deadLettered == r.meta.deadLettered
  }

  /** A result describes the stored row, and the last audit row describes the same. */
  ghost predicate Tells(res: StepResult, decision: Decision) {
    res.outcome.Done? ==>
      var result, s := res.outcome.result, res.state;
      && result.id in s.actions
      && Describes(result, s.actions[result.id])
      && (!result.replayed ==>
            && s.audits != []
            && s.audits[|s.audits| - 1] == ActionAudit(s.actions[result.id].caseId, EventFor(result.display), decision,
                                                       result.id, Some(result.display), result.resource,
                                                       result.delivery))
  }

  lemma FinalizedTells(s: State, r: Record, ctx: Context, display: Display)
    requires !IsWaiting(display) && !r.meta.deadLettered && !r.meta.expired
    ensures Tells(Finalized(s, r, ctx, display, EventFor(display)), ctx.policy.decision)
  {
  }

  lemma BackedOffTells(s: State, r: Record, ctx: Context, offset: int)
    requires !r.meta.deadLettered && !r.meta.expired
    ensures Tells(BackedOff(s, r, ctx, offset), ctx.policy.decision)
  {
    if NextBackoff(r.retryNumber, offset).None? {
      assert Tells(DeadLettered(s, Bumped(r), ctx), ctx.policy.decision);
    } else {
      var runAt := ctx.asOf + NextBackoff(r.retryNumber, offset).value;
      assert Tells(Rescheduled(s, Bumped(r), ctx, runAt), ctx.policy.decision);
    }
  }

  lemma DeferredTells(s: State, r: Record, ctx: Context, gate: Gate)
    requires !r.meta.deadLettered && !r.meta.expired
    ensures Tells(Deferred(s, r, ctx, gate), ctx.policy.decision)
  {
  }

  lemma AnsweredTells(s: State, sent: Record, ctx: Context, key: Key, env: Env)
    requires env.reply.Accepted? ==> TokenFor(key) in s.server.cache
    requires !sent.meta.deadLettered && !sent.meta.expired
    ensures Tells(Answered(s, sent, ctx, key, env), ctx.policy.decision)
  {
    match env.reply {
      case TransientError => BackedOffTells(s, sent, ctx, env.offset);
      case PermanentError =>
        FinalizedTells(s, Rejected(sent), ctx, Failed);
      case UnexpectedError =>
      case Accepted =>
        if !env.delivery.DeliveryRaises? {
          var linked := WithResource(sent, s.server.cache[TokenFor(key)]);
          var notified := linked.(meta := linked.meta.(delivery := Some(DeliveryStatusOf(env.delivery))));
          BackedOffTells(s, notified, ctx, env.offset);
          FinalizedTells(s, notified.(response := Some(OkCode)), ctx, Success);
        }
    }
  }

  lemma DispatchedTells(s: State, r: Record, ctx: Context, key: Key, replay: bool, env: Env)
    requires !r.meta.deadLettered && !r.meta.expired && !(IsWait(ctx.plan.strategy) && HasFallback(ctx.plan))
    ensures Tells(Dispatched(s, r, ctx, key, replay, env), ctx.policy.decision)
  {
    var sent := MarkedSent(r, ctx);
    var s1 := Saved(s, sent);
    if IsOutbound(ctx.plan.strategy) {
      OutboundAccounts(s, sent, ctx, key, replay, env);
      AnsweredTells(Requested(s1, ctx, key, replay, env), sent, ctx, key, env);
    } else {
      FinalizedTells(s1, sent, ctx, if ctx.plan.strategy.StopRecovery? then Cancelled else Success);
    }
  }

  /** Whatever path a run takes, its result is the stored row's, and if it is its own, the
      row just appended to the audit trail names that execution, label, resource, delivery
      and policy decision. */
  lemma RunTells(s: State, ctx: Context, force: bool, replay: bool, env: Env)
    requires Valid(s)
    ensures Tells(Ran(s, ctx, force, replay, env), ctx.policy.decision)
    decreases if IsWait(ctx.plan.strategy) then 1 else 0
  {
    if ctx.plan.caseId.Some? {
      var key := MakeKey(ctx.plan.caseId.value, ctx.plan);
      assert KeyOk(s, key);
      if !AlreadyDone(s, key, replay) {
        var gate := EvaluateGates(ctx.plan, ctx.policy, ctx.asOf, force);
        var r := Prepared(s, ctx, key, gate);
        PreparedReady(s, ctx, key, gate);
        if gate.block {
          FinalizedTells(s, r, ctx, Cancelled);
        } else if gate.defer && !replay {
          DeferredTells(s, r, ctx, gate);
        } else if HandsOver(ctx, force, replay) {
          RanHandsOver(s, ctx, force, replay, env);
          HandedOverKeeps(s, MarkedSent(r, ctx));
          RunTells(HandedOver(s, MarkedSent(r, ctx)), FallbackContext(ctx), false, false, env);
        } else {
          DispatchedTells(s, r, ctx, key, replay, env);
        }
      }
    }
  }

  // What a run will ask of the sandbox, seen before it

  /** The key of the request a run makes by itself, if it makes one. */
  function OwnRequest(s: State, ctx: Context, force: bool, replay: bool): Option<Key> {
    if ctx.plan.caseId.None? then None
    else
      var key := Key(ctx.plan.caseId.value, ctx.plan.strategy, ctx.plan.scheduledAt);
      if !Stands(s, key, replay) && GoesAhead(ctx.plan, ctx.policy, ctx.asOf, force, replay)
         && IsOutbound(ctx.plan.strategy)
      then Some(key) else None
  }

  /** The key of the request a plan's fallback makes now, if it makes one: the fallback is keyed
      by the clock, and subject to the plan's own policy. */
  function FallbackRequest(s: State, ctx: Context): Option<Key> {
    if ctx.plan.caseId.None? then None
    else
      var key := Key(ctx.plan.caseId.value, ctx.plan.fallback, ctx.asOf);
      if !Stands(s, key, false) && LetsCall(ctx.policy, ctx.asOf) && IsOutbound(ctx.plan.fallback)
      then Some(key) else None
  }

  /** The run is a wait that hands over to its fallback. */
  predicate PassesOn(s: State, ctx: Context, force: bool, replay: bool) {
    && ctx.plan.caseId.Some?
    && !Stands(s, Key(ctx.plan.caseId.value, ctx.plan.strategy, ctx.plan.scheduledAt), replay)
    && GoesAhead(ctx.plan, ctx.policy, ctx.asOf, force, replay)
    && IsWait(ctx.plan.strategy) && !IsWait(ctx.plan.fallback)
  }

  lemma PassesOnExactly(s: State, ctx: Context, force: bool, replay: bool)
    ensures PassesOn(s, ctx, force, replay) <==>
            && ctx.plan.caseId.Some?
            && !AlreadyDone(s, MakeKey(ctx.plan.caseId.value, ctx.plan), replay)
            && HandsOver(ctx, force, replay)
  {
    GoesAheadExactly(ctx.plan, ctx.policy, ctx.asOf, force, replay);
  }

  lemma FallbackAsks(s: State, ctx: Context)
    requires !IsWait(ctx.plan.fallback)
    ensures FallbackRequest(s, ctx) == OwnRequest(s, FallbackContext(ctx), false, false)
  {
  }

  /** The key of the request a run makes, by itself or through its fallback. */
  function RequestKey(s: State, ctx: Context, force: bool, replay: bool): Option<Key> {
    if PassesOn(s, ctx, force, replay) then FallbackRequest(s, ctx) else OwnRequest(s, ctx, force, replay)
  }

  /** The key of the request a due row makes. */
  function DueRequestKey(s: State, record: Record, ctx: Context): Option<Key> {
    if WindowReached(record, ctx) then FallbackRequest(s, ctx) else RequestKey(s, ctx, false, true)
  }

  // The label of an outbound run

  /** The request failed in a way worth retrying. */
  predicate Retryable(env: Env, strategy: Strategy) {
    || env.reply.TransientError?
    || (env.reply.Accepted? && env.delivery == Sends(DeliveryFailed) && !strategy.RetrySilently?)
  }

  predicate Breaks(env: Env) {
    env.reply.UnexpectedError? || (env.reply.Accepted? && env.delivery.DeliveryRaises?)
  }

  /** What must come of a dispatch after `failures` earlier ones failed. */
  ghost predicate OutcomeTable(res: StepResult, key: Key, failures: nat, asOf: Time, env: Env) {
    if Breaks(env) then res.outcome == Raised(Unexpected)
    else
      res.outcome.Done? &&
      var result := res.outcome.result;
      result.id == key && !result.replayed &&
      if Retryable(env, key.strategy) then
        && result.retryAttempts == failures + 1
        && (failures < MAX_RETRY_ATTEMPTS ==>
              result.display == Retrying && !result.deadLettered && result.executedTime == None
              && result.scheduledTime.Some?
              && RetryDelay(failures, result.scheduledTime.value - asOf, env.offset))
        && (failures >= MAX_RETRY_ATTEMPTS ==> result.display == Failed && result.deadLettered)
      else
        && result.retryAttempts == failures && !result.deadLettered && result.executedTime == Some(asOf)
        && result.display == (if env.reply.PermanentError? then Failed else Success)
        && (result.display.Success? ==>
              && result.resource == Some(ResourceOf(key))
              && result.link == LinkOf(key)
              && result.delivery == Some(match env.delivery case Sends(status) => status case _ => Skipped))
  }

  lemma AnsweredOutcome(s: State, sent: Record, ctx: Context, env: Env)
    requires env.reply.Accepted? ==>
               && TokenFor(sent.id) in s.server.cache
               && s.server.cache[TokenFor(sent.id)].id == ResourceOf(sent.id)
               && s.server.cache[TokenFor(sent.id)].shortUrl == LinkOf(sent.id)
    requires !sent.meta.deadLettered && !sent.meta.expired && sent.executedTime == Some(ctx.asOf)
    requires sent.id.strategy == ctx.plan.strategy
    ensures OutcomeTable(Answered(s, sent, ctx, sent.id, env), sent.id, sent.retryNumber, ctx.asOf, env)
  {
    if env.reply.TransientError? {
      BackedOffOutcome(s, sent, ctx, env.offset);
    } else if env.reply.Accepted? && !env.delivery.DeliveryRaises? {
      var linked := WithResource(sent, s.server.cache[TokenFor(sent.id)]);
      var notified := linked.(meta := linked.meta.(delivery := Some(DeliveryStatusOf(env.delivery))));
      BackedOffOutcome(s, notified, ctx, env.offset);
    }
  }

  lemma BackedOffOutcome(s: State, r: Record, ctx: Context, offset: int)
    requires !r.meta.deadLettered && !r.meta.expired
    ensures var res := BackedOff(s, r, ctx, offset);
            && res.outcome.Done?
            && var result := res.outcome.result;
            && result.id == r.id && !result.replayed && result.retryAttempts == r.retryNumber + 1
            && (r.retryNumber < MAX_RETRY_ATTEMPTS ==>
                  result.display == Retrying && !result.deadLettered && result.executedTime == None
                  && result.scheduledTime.Some?
                  && RetryDelay(r.retryNumber, result.scheduledTime.value - ctx.asOf, offset))
            && (r.retryNumber >= MAX_RETRY_ATTEMPTS ==> result.display == Failed && result.deadLettered)
  {
    var delay := NextBackoff(r.retryNumber, offset);
    if delay.Some? {
      assert BackedOff(s, r, ctx, offset) == Rescheduled(s, Bumped(r), ctx, ctx.asOf + delay.value);
    } else {
      assert BackedOff(s, r, ctx, offset) == DeadLettered(s, Bumped(r), ctx);
    }
  }

  /** A run that reaches the sandbox ends as the table says, counting from the failures the
      key has ever suffered; earlier rows, webhooks and dead letters make no difference. */
  lemma OutboundOutcome(s: State, ctx: Context, force: bool, replay: bool, env: Env)
    requires Valid(s) && OwnRequest(s, ctx, force, replay).Some?
    ensures var key := OwnRequest(s, ctx, force, replay).value;
            OutcomeTable(Ran(s, ctx, force, replay, env), key, Failures(s.calls, key), ctx.asOf, env)
  {
    var key := OwnRequest(s, ctx, force, replay).value;
    var sent := SentRow(s, ctx, key, force);
    OwnRunAnswers(s, ctx, key, force, replay, env);
    DispatchOutcome(s, sent, ctx, key, force, replay, env);
  }

  /** The row of an outbound run as it is marked sent. */
  function SentRow(s: State, ctx: Context, key: Key, force: bool): Record {
    MarkedSent(Prepared(s, ctx, key, EvaluateGates(ctx.plan, ctx.policy, ctx.asOf, force)), ctx)
  }

  lemma OwnRunAnswers(s: State, ctx: Context, key: Key, force: bool, replay: bool, env: Env)
    requires Valid(s) && OwnRequest(s, ctx, force, replay) == Some(key)
    ensures var sent := SentRow(s, ctx, key, force);
            var asked := Requested(Saved(s, sent), ctx, key, replay, env);
            && Permitted(ctx, force, replay) && key == MakeKey(ctx.plan.caseId.value, ctx.plan)
            && sent.id == key && !sent.meta.deadLettered && !sent.meta.expired
            && sent.executedTime == Some(ctx.asOf) && sent.retryNumber == Failures(s.calls, key)
            && (env.reply.Accepted? ==> TokenFor(key) in asked.server.cache)
            && Ran(s, ctx, force, replay, env) == Answered(asked, sent, ctx, key, env)
  {
    GoesAheadExactly(ctx.plan, ctx.policy, ctx.asOf, force, replay);
    PreparedReady(s, ctx, key, EvaluateGates(ctx.plan, ctx.policy, ctx.asOf, force));
    OutboundAccounts(s, SentRow(s, ctx, key, force), ctx, key, replay, env);
  }

  lemma DispatchOutcome(s: State, sent: Record, ctx: Context, key: Key, force: bool, replay: bool, env: Env)
    requires Valid(s) && sent.id == key && IsOutbound(ctx.plan.strategy) && Permitted(ctx, force, replay)
    requires ctx.plan.caseId.Some? && key == MakeKey(ctx.plan.caseId.value, ctx.plan)
    requires !sent.meta.deadLettered && !sent.meta.expired && sent.executedTime == Some(ctx.asOf)
    ensures var asked := Requested(Saved(s, sent), ctx, key, replay, env);
            && (env.reply.Accepted? ==> TokenFor(key) in asked.server.cache)
            && OutcomeTable(Answered(asked, sent, ctx, key, env), key, sent.retryNumber, ctx.asOf, env)
  {
    BodyGiven(s, sent, ctx, key, force, replay, env);
    AnsweredOutcome(Requested(Saved(s, sent), ctx, key, replay, env), sent, ctx, env);
  }

  lemma BodyGiven(s: State, sent: Record, ctx: Context, key: Key, force: bool, replay: bool, env: Env)
    requires Valid(s) && sent.id == key && IsOutbound(ctx.plan.strategy) && Permitted(ctx, force, replay)
    requires ctx.plan.caseId.Some? && key == MakeKey(ctx.plan.caseId.value, ctx.plan)
    ensures var server := Requested(Saved(s, sent), ctx, key, replay, env).server;
            env.reply.Accepted? ==>
              && TokenFor(key) in server.cache
              && server.cache[TokenFor(key)].id == ResourceOf(key)
              && server.cache[TokenFor(key)].shortUrl == LinkOf(key)
  {
    SavedGlobal(s, sent);
    PermittedCallOk(ctx, key, force, replay, env);
    RequestedGlobal(Saved(s, sent), ctx, key, replay, env);
    if env.reply.Accepted? {
      assert BodyOk(Requested(Saved(s, sent), ctx, key, replay, env), TokenFor(key));
    }
  }

  // The outcome of every other run

  /** The label of a run that makes no request of its own and hands over to nobody. */
  ghost function QuietLabel(ctx: Context, force: bool, replay: bool): Display {
    if Blocks(ctx.plan, ctx.policy) then Cancelled
    else if !replay && (force || exists t :: HoldsUntil(ctx.plan, ctx.policy, t) && ctx.asOf < t) then Scheduled
    else if ctx.plan.strategy.StopRecovery? then Cancelled
    else Success
  }

  /** The result shows the label and the failures so far, the sandbox hears nothing, and the
      queue holds what the label asks for: a deferral's job, pending for the time of the
      gate, or no live job. */
  ghost predicate EndsQuietly(s: State, res: StepResult, key: Key, shown: Display, runAt: Option<Time>) {
    && res.outcome.Done?
    && res.outcome.result.id == key && res.outcome.result.display == shown && !res.outcome.result.replayed
    && res.outcome.result.retryAttempts == Failures(s.calls, key)
    && (shown.Scheduled? || res.outcome.result.executedTime.Some?)
    && res.state.calls == s.calls && res.state.server == s.server
    && if shown.Scheduled? then
         && key in res.state.jobs && res.state.jobs[key].status.Pending?
         && res.state.jobs[key].attempt == Failures(s.calls, key)
         && runAt == Some(res.state.jobs[key].runAt)
       else key !in res.state.jobs || !IsLive(res.state.jobs[key])
  }

  lemma FinalizedQuietly(s: State, r: Record, ctx: Context, display: Display, event: AuditEvent, runAt: Option<Time>)
    requires display.Success? || display.Cancelled?
    requires !r.meta.deadLettered && !r.meta.expired && r.retryNumber == Failures(s.calls, r.id)
    ensures EndsQuietly(s, Finalized(s, r, ctx, display, event), r.id, display, runAt)
  {
  }

  lemma DeferredQuietly(s: State, r: Record, ctx: Context, gate: Gate)
    requires !r.meta.deadLettered && !r.meta.expired && r.retryNumber == Failures(s.calls, r.id) && gate.runAt.Some?
    ensures EndsQuietly(s, Deferred(s, r, ctx, gate), r.id, Scheduled, gate.runAt)
  {
  }

  /** A run that is blocked, held back, stopped, escalated or is a wait without a fallback:
      its label follows from the plan and the policy alone, the queue follows from the label,
      and the sandbox hears nothing. */
  lemma QuietOutcome(s: State, ctx: Context, force: bool, replay: bool, env: Env)
    requires Valid(s) && ctx.plan.caseId.Some?
    requires !Stands(s, Key(ctx.plan.caseId.value, ctx.plan.strategy, ctx.plan.scheduledAt), replay)
    requires !PassesOn(s, ctx, force, replay) && OwnRequest(s, ctx, force, replay).None?
    ensures EndsQuietly(s, Ran(s, ctx, force, replay, env),
                        Key(ctx.plan.caseId.value, ctx.plan.strategy, ctx.plan.scheduledAt),
                        QuietLabel(ctx, force, replay), Some(PutOffTo(ctx.plan, ctx.policy, ctx.asOf)))
  {
    PassesOnExactly(s, ctx, force, replay);
    GoesAheadExactly(ctx.plan, ctx.policy, ctx.asOf, force, replay);
    QuietEnding(s, ctx, force, replay, env);
  }

  lemma QuietEnding(s: State, ctx: Context, force: bool, replay: bool, env: Env)
    requires Valid(s) && ctx.plan.caseId.Some?
    requires !AlreadyDone(s, MakeKey(ctx.plan.caseId.value, ctx.plan), replay)
    requires !HandsOver(ctx, force, replay)
    requires !(Permitted(ctx, force, replay) && IsOutbound(ctx.plan.strategy))
    ensures EndsQuietly(s, Ran(s, ctx, force, replay, env), MakeKey(ctx.plan.caseId.value, ctx.plan),
                        QuietLabel(ctx, force, replay), Some(PutOffTo(ctx.plan, ctx.policy, ctx.asOf)))
  {
    var key := MakeKey(ctx.plan.caseId.value, ctx.plan);
    var gate := EvaluateGates(ctx.plan, ctx.policy, ctx.asOf, force);
    var r := Prepared(s, ctx, key, gate);
    GateCharacterisation(ctx.plan, ctx.policy, ctx.asOf, force);
    PreparedReady(s, ctx, key, gate);
    if gate.block {
      FinalizedQuietly(s, r, ctx, Cancelled, ActionSkipped, Some(PutOffTo(ctx.plan, ctx.policy, ctx.asOf)));
    } else if gate.defer && !replay {
      DeferredQuietly(s, r, ctx, gate);
    } else {
      var sent := MarkedSent(r, ctx);
      var display := if ctx.plan.strategy.StopRecovery? then Cancelled else Success;
      var event := if ctx.plan.strategy.StopRecovery? then ActionSkipped else ActionExecuted;
      FinalizedQuietly(Saved(s, sent), sent, ctx, display, event, Some(PutOffTo(ctx.plan, ctx.policy, ctx.asOf)));
      assert Ran(s, ctx, force, replay, env) == Finalized(Saved(s, sent), sent, ctx, display, event);
    }
  }

  // The request of a step, told before it

  /** The step ended in an exception nobody maps. */
  predicate Broke(res: StepResult) {
    res.outcome == Raised(Unexpected)
  }

  /** The key of the last request made. */
  function LastKey(s: State): Key
    requires s.calls != []
  {
    s.calls[|s.calls| - 1].key
  }

  /** One request under the key, or none; and an unmapped exception exactly if there is one
      and the outside world breaks it off. */
  ghost predicate AsksFor(s: State, res: StepResult, key: Option<Key>, env: Env) {
    && s.calls <= res.state.calls
    && |res.state.calls| == |s.calls| + (if key.Some? then 1 else 0)
    && (key.Some? ==> LastKey(res.state) == key.value)
    && (Broke(res) <==> key.Some? && Breaks(env))
  }

  lemma AnsweredBreaks(s: State, sent: Record, ctx: Context, key: Key, env: Env)
    requires env.reply.Accepted? ==> TokenFor(key) in s.server.cache
    ensures Broke(Answered(s, sent, ctx, key, env)) <==> Breaks(env)
  {
  }

  lemma OutboundTold(s: State, ctx: Context, force: bool, replay: bool, env: Env)
    requires Valid(s) && OwnRequest(s, ctx, force, replay).Some?
    ensures AsksFor(s, Ran(s, ctx, force, replay, env), OwnRequest(s, ctx, force, replay), env)
  {
    var key := OwnRequest(s, ctx, force, replay).value;
    OwnRunAnswers(s, ctx, key, force, replay, env);
    AnsweredAsks(s, SentRow(s, ctx, key, force), ctx, key, replay, env);
  }

  lemma AnsweredAsks(s: State, sent: Record, ctx: Context, key: Key, replay: bool, env: Env)
    ensures var asked := Requested(Saved(s, sent), ctx, key, replay, env);
            && (env.reply.Accepted? ==> TokenFor(key) in asked.server.cache)
            && AsksFor(s, Answered(asked, sent, ctx, key, env), Some(key), env)
  {
    OutboundAccounts(s, sent, ctx, key, replay, env);
    AnsweredBreaks(Requested(Saved(s, sent), ctx, key, replay, env), sent, ctx, key, env);
  }

  lemma OwnRequestTold(s: State, ctx: Context, force: bool, replay: bool, env: Env)
    requires Valid(s) && !PassesOn(s, ctx, force, replay)
    ensures AsksFor(s, Ran(s, ctx, force, replay, env), OwnRequest(s, ctx, force, replay), env)
  {
    PassesOnExactly(s, ctx, force, replay);
    GoesAheadExactly(ctx.plan, ctx.policy, ctx.asOf, force, replay);
    if OwnRequest(s, ctx, force, replay).Some? {
      OutboundTold(s, ctx, force, replay, env);
    } else if ctx.plan.caseId.Some? && !AlreadyDone(s, MakeKey(ctx.plan.caseId.value, ctx.plan), replay) {
      QuietOutcome(s, ctx, force, replay, env);
    }
  }

  /** Whether a run gets to the sandbox, under which key, and whether it breaks off there. */
  lemma RequestTold(s: State, ctx: Context, force: bool, replay: bool, env: Env)
    requires Valid(s)
    ensures AsksFor(s, Ran(s, ctx, force, replay, env), RequestKey(s, ctx, force, replay), env)
  {
    PassesOnExactly(s, ctx, force, replay);
    if PassesOn(s, ctx, force, replay) {
      var key := MakeKey(ctx.plan.caseId.value, ctx.plan);
      var gate := EvaluateGates(ctx.plan, ctx.policy, ctx.asOf, force);
      var sent := MarkedSent(Prepared(s, ctx, key, gate), ctx);
      PreparedReady(s, ctx, key, gate);
      RanHandsOver(s, ctx, force, replay, env);
      HandedOverKeeps(s, sent);
      assert Untouched(s, HandedOver(s, sent), MakeKey(ctx.plan.caseId.value, FallbackContext(ctx).plan));
      FallbackAsks(HandedOver(s, sent), ctx);
      OwnRequestTold(HandedOver(s, sent), FallbackContext(ctx), false, false, env);
    } else {
      OwnRequestTold(s, ctx, force, replay, env);
    }
  }

  /** The same for a due row, which may be a snapshot. What a wait shows by then, cancelled
      or done, plays no part: only its fallback's own row and gate do. */
  lemma DueRequestTold(s: State, record: Record, ctx: Context, env: Env)
    requires Valid(s) && Snapshot(s, record)
    ensures AsksFor(s, RanDue(s, record, ctx, env), DueRequestKey(s, record, ctx), env)
  {
    if !WindowReached(record, ctx) {
      RequestTold(s, ctx, false, true, env);
    } else if DueFallback(record, ctx) {
      var s1 := WaitClosed(s, record, ctx);
      WaitClosedKeeps(s, record, ctx);
      if ctx.plan.caseId.Some? {
        assert Untouched(s, s1, MakeKey(ctx.plan.caseId.value, FallbackContext(ctx).plan));
      }
      FallbackAsks(s1, ctx);
      OwnRequestTold(s1, FallbackContext(ctx), false, false, env);
    }
  }

  /** A due wait gets to the sandbox exactly through its fallback, whatever its own row shows
      by then: a wait that was cancelled or is already done asks again all the same. */
  lemma DueRequestsExactlyWhen(s: State, record: Record, ctx: Context, env: Env)
    requires Valid(s) && Snapshot(s, record) && WindowReached(record, ctx)
    ensures |RanDue(s, record, ctx, env).state.calls| == |s.calls| + 1 <==>
            && ctx.plan.caseId.Some?
            && IsOutbound(ctx.plan.fallback)
            && !Stands(s, Key(ctx.plan.caseId.value, ctx.plan.fallback, ctx.asOf), false)
            && LetsCall(ctx.policy, ctx.asOf)
  {
    DueRequestTold(s, record, ctx, env);
  }

  // Waits

  /** A run of a wait gets to the sandbox exactly through its fallback: the gate lets the
      wait go, the fallback is outbound and not done, and the gate lets it through too. A
      replay ignores the wait's own deferral, but never the fallback's. */
  lemma WaitRequestsExactlyWhen(s: State, ctx: Context, force: bool, replay: bool, env: Env)
    requires Valid(s) && IsWait(ctx.plan.strategy)
    ensures |Ran(s, ctx, force, replay, env).state.calls| == |s.calls| + 1 <==>
            && ctx.plan.caseId.Some?
            && !Stands(s, Key(ctx.plan.caseId.value, ctx.plan.strategy, ctx.plan.scheduledAt), replay)
            && GoesAhead(ctx.plan, ctx.policy, ctx.asOf, force, replay)
            && IsOutbound(ctx.plan.fallback)
            && !Stands(s, Key(ctx.plan.caseId.value, ctx.plan.fallback, ctx.asOf), false)
            && LetsCall(ctx.policy, ctx.asOf)
  {
    RequestTold(s, ctx, force, replay, env);
  }

  /** Two workers that act on the same due wait: the key of the fallback is stamped with the
      worker's clock, so the second makes a request of its own exactly when its clock reads
      differently. Exactly-once is per key, not per wait. */
  lemma SecondHandOver(s: State, record: Record, ctx: Context, env: Env, later: Context, env': Env)
    requires Valid(s) && Snapshot(s, record) && WindowReached(record, ctx) && WindowReached(record, later)
    requires later == ctx.(asOf := later.asOf) && ctx.plan.caseId.Some? && IsOutbound(ctx.plan.fallback)
    requires LetsCall(ctx.policy, ctx.asOf) && LetsCall(ctx.policy, later.asOf)
    requires env.reply.Accepted? && !Breaks(env) && !Retryable(env, ctx.plan.fallback)
    requires Key(ctx.plan.caseId.value, ctx.plan.fallback, ctx.asOf) !in s.actions
    requires Key(ctx.plan.caseId.value, ctx.plan.fallback, later.asOf) !in s.actions
    ensures var first := RanDue(s, record, ctx, env).state;
            && |first.calls| == |s.calls| + 1
            && (|RanDue(first, record, later, env').state.calls| == |first.calls| + 1 <==> later.asOf != ctx.asOf)
  {
    var first := RanDue(s, record, ctx, env).state;
    FirstHandOver(s, record, ctx, env);
    RanDueKeeps(s, record, ctx, env);
    RanDueAccounts(s, record, ctx, env);
    if later.asOf != ctx.asOf {
      assert Untouched(s, first, Key(ctx.plan.caseId.value, ctx.plan.fallback, later.asOf));
    }
    SnapshotKept(s, first, record);
    DueRequestsExactlyWhen(first, record, later, env');
  }

  lemma SnapshotKept(s: State, s': State, record: Record)
    requires Snapshot(s, record) && Extends(s, s')
    ensures Snapshot(s', record)
  {
  }

  lemma FirstHandOver(s: State, record: Record, ctx: Context, env: Env)
    requires Valid(s) && Snapshot(s, record) && WindowReached(record, ctx)
    requires ctx.plan.caseId.Some? && IsOutbound(ctx.plan.fallback) && LetsCall(ctx.policy, ctx.asOf)
    requires env.reply.Accepted? && !Breaks(env) && !Retryable(env, ctx.plan.fallback)
    requires Key(ctx.plan.caseId.value, ctx.plan.fallback, ctx.asOf) !in s.actions
    ensures var s' := RanDue(s, record, ctx, env).state;
            var key := Key(ctx.plan.caseId.value, ctx.plan.fallback, ctx.asOf);
            && |s'.calls| == |s.calls| + 1
            && key in s'.actions && DisplayOf(s'.actions[key]) == Success
            && Frame(s, s', {record.id, key})
  {
    var key := Key(ctx.plan.caseId.value, ctx.plan.fallback, ctx.asOf);
    var s1 := WaitClosed(s, record, ctx);
    DueRequestsExactlyWhen(s, record, ctx, env);
    RanDueAccounts(s, record, ctx, env);
    WaitClosedKeeps(s, record, ctx);
    assert Untouched(s, s1, key);
    FallbackAsks(s1, ctx);
    FirstIsDone(s1, FallbackContext(ctx), env, key);
    DueFrame(s, record, ctx, env, key);
  }

  lemma DueFrame(s: State, record: Record, ctx: Context, env: Env, key: Key)
    requires Valid(s) && Snapshot(s, record) && WindowReached(record, ctx)
    requires ctx.plan.caseId.Some? && IsOutbound(ctx.plan.fallback)
    requires key == Key(ctx.plan.caseId.value, ctx.plan.fallback, ctx.asOf)
    ensures Frame(s, RanDue(s, record, ctx, env).state, {record.id, key})
  {
    RanDueKeeps(s, record, ctx, env);
    assert DueKeysOf(record, ctx) == {record.id, key};
  }

  /** A first successful outbound run leaves its own row at rest. */
  lemma FirstIsDone(s: State, ctx: Context, env: Env, key: Key)
    requires Valid(s) && OwnRequest(s, ctx, false, false) == Some(key)
    requires env.reply.Accepted? && !Breaks(env) && !Retryable(env, ctx.plan.strategy)
    ensures var s' := Ran(s, ctx, false, false, env).state;
            key in s'.actions && DisplayOf(s'.actions[key]) == Success
  {
    OutboundOutcome(s, ctx, false, false, env);
    RunTells(s, ctx, false, false, env);
  }
}
