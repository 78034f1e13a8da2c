/** What follows from the table: when a run only repeats an answer, what every request carries,
    what a hand-over leaves behind, and what a webhook reports. */
module Guarantees {
  import opened Wrappers
  import opened Domain
  import opened Mapping
  import opened Gates
  import opened Steps
  import opened Invariants
  import opened StepInvariants
  import opened Accounting
  import opened Outcomes
  import opened RunTable
  import opened Runs

  // Sending twice

  predicate Replays(outcome: Outcome) {
    outcome.Done? && outcome.result.replayed
  }

  /** A plain run of an execution that shows Sent, Success, Cancelled or Expired repeats the
      stored answer and changes nothing; a replay does so for all of these but Sent. Any other
      run works: its answer is its own, or, for a wait that hands over, its fallback's, which
      is a repeated one exactly if the fallback shows one of the four. */
  lemma RepeatsExactly(s: State, ctx: Context, force: bool, replay: bool, env: Env)
    requires Valid(s) && ctx.plan.caseId.Some?
    ensures var key := Key(ctx.plan.caseId.value, ctx.plan.strategy, ctx.plan.scheduledAt);
            var next := Key(ctx.plan.caseId.value, ctx.plan.fallback, ctx.asOf);
            var res := Ran(s, ctx, force, replay, env);
            if key in s.actions
               && (DisplayOf(s.actions[key]) in {Success, Cancelled, Expired}
                   || (!replay && DisplayOf(s.actions[key]) == Sent))
            then res == StepResult(s, Done(ResultFrom(s.actions[key], true)))
                 && Describes(res.outcome.result, s.actions[key])
            else if PassesOn(s, ctx, force, replay) then
              Replays(res.outcome) <==>
              next in s.actions && DisplayOf(s.actions[next]) in {Sent, Success, Cancelled, Expired}
            else !Replays(res.outcome)
  {
    var key := Key(ctx.plan.caseId.value, ctx.plan.strategy, ctx.plan.scheduledAt);
    RunIsTabled(s, ctx, force, replay, env);
    KindTold(s, ctx, force, replay, env);
    PassesOnExactly(s, ctx, force, replay);
    if key in s.actions {
      LabelsAgree(s.actions[key]);
    }
    if PassesOn(s, ctx, force, replay) {
      FallbackRepeats(s, ctx, force, replay, env);
    }
  }

  lemma FallbackRepeats(s: State, ctx: Context, force: bool, replay: bool, env: Env)
    requires Valid(s) && PassesOn(s, ctx, force, replay)
    ensures var next := Key(ctx.plan.caseId.value, ctx.plan.fallback, ctx.asOf);
            Replays(Ran(s, ctx, force, replay, env).outcome) <==>
            next in s.actions && DisplayOf(s.actions[next]) in {Sent, Success, Cancelled, Expired}
  {
    var key := MakeKey(ctx.plan.caseId.value, ctx.plan);
    var gate := EvaluateGates(ctx.plan, ctx.policy, ctx.asOf, force);
    var handed := HandedOver(s, MarkedSent(Prepared(s, ctx, key, gate), ctx));
    PassesOnExactly(s, ctx, force, replay);
    RanHandsOver(s, ctx, force, replay, env);
    PreparedReady(s, ctx, key, gate);
    HandedOverKeeps(s, MarkedSent(Prepared(s, ctx, key, gate), ctx));
    assert Untouched(s, handed, Key(ctx.plan.caseId.value, ctx.plan.fallback, ctx.asOf));
    PlainRepeats(handed, FallbackContext(ctx), env);
  }

  lemma PlainRepeats(s: State, ctx: Context, env: Env)
    requires Valid(s) && ctx.plan.caseId.Some? && !IsWait(ctx.plan.strategy)
    ensures var key := Key(ctx.plan.caseId.value, ctx.plan.strategy, ctx.plan.scheduledAt);
            Replays(Ran(s, ctx, false, false, env).outcome) <==>
            key in s.actions && DisplayOf(s.actions[key]) in {Sent, Success, Cancelled, Expired}
  {
    RunIsTabled(s, ctx, false, false, env);
    KindTold(s, ctx, false, false, env);
  }

  // What a request carries

  /** At most one request, which carries the clock, decision and cooldown the run was given, and
      is made under the plan's own key or, as a plain run, under that of its fallback now. */
  ghost predicate CallsCarry(before: seq<Call>, after: seq<Call>, ctx: Context, replay: bool) {
    after == before ||
    (|after| == |before| + 1 && before <= after && ctx.plan.caseId.Some? &&
     var call := after[|before|];
     && call.at == ctx.asOf && call.decision == ctx.policy.decision && call.cooldownUntil == ctx.policy.cooldownUntil
     && ((call.key == Key(ctx.plan.caseId.value, ctx.plan.strategy, ctx.plan.scheduledAt) && call.replay == replay)
         || (call.key == Key(ctx.plan.caseId.value, ctx.plan.fallback, ctx.asOf) && !call.replay)))
  }

  lemma EntryCarries(s: State, ctx: Context, key: Key, kind: Kind, row: Record, why: GateReason, replay: bool, env: Env)
    requires ctx.plan.caseId.Some? && key == Key(ctx.plan.caseId.value, ctx.plan.strategy, ctx.plan.scheduledAt)
    ensures CallsCarry(s.calls, StateAfter(s, ctx, key, kind, row, why, replay, env).calls, ctx, replay)
    ensures kind.HandsOn? ==> StateAfter(s, ctx, key, kind, row, why, replay, env).calls == s.calls
  {
  }

  lemma TableCarries(s: State, ctx: Context, force: bool, replay: bool, env: Env)
    ensures CallsCarry(s.calls, Tabled(s, ctx, force, replay, env).state.calls, ctx, replay)
    decreases if WaitsByItself(ctx.plan.strategy) then 1 else 0
  {
    var kind := RunTable.KindOf(s, ctx, force, replay, env);
    if !kind.NoCase? && !kind.Stands? {
      var key := Key(ctx.plan.caseId.value, ctx.plan.strategy, ctx.plan.scheduledAt);
      var why := Why(ctx, force);
      var row := RowAfter(StartRow(s, ctx, key, why), key, kind, ctx.asOf, env.offset);
      EntryCarries(s, ctx, key, kind, row, why, replay, env);
      if kind.HandsOn? {
        var plan := Plan(ctx.plan.caseId, ctx.plan.fallback, ctx.plan.fallback, ctx.asOf);
        TableCarries(StateAfter(s, ctx, key, kind, row, why, replay, env),
                     Context(ctx.asOf, plan, ctx.policy, ctx.amount), false, false, env);
      }
    }
  }

  lemma DueTableCarries(s: State, record: Record, ctx: Context, env: Env)
    ensures CallsCarry(s.calls, DueTabled(s, record, ctx, env).state.calls, ctx, true)
  {
    TableCarries(s, ctx, false, true, env);
    var plan := Plan(ctx.plan.caseId, ctx.plan.fallback, ctx.plan.fallback, ctx.asOf);
    var row := Labelled(record.(executedTime := Some(ctx.asOf)), DbSucceeded, Success);
    var s' := s.(actions := s.actions[record.id := row],
                 inserted := if record.id in s.actions then s.inserted else s.inserted + [record.id],
                 jobs := QueueAfter(s.jobs, record.id, None, Some(Finished)));
    TableCarries(s', Context(ctx.asOf, plan, ctx.policy, ctx.amount), false, false, env);
  }

  /** Steps that may make a request. */
  predicate Works(step: Step) {
    step.RunStep? || step.ReplayStep? || step.DueStep?
  }

  /** What a step logs about a request is what it was given, however deeply the request nests. */
  lemma StepCarries(s: State, step: Step)
    requires Valid(s) && Enabled(s, step)
    ensures Apply(s, step).calls == s.calls
            || (Works(step) && CallsCarry(s.calls, Apply(s, step).calls, step.ctx, !step.RunStep?))
  {
    match step {
      case RunStep(ctx, force, env) =>
        RunIsTabled(s, ctx, force, false, env);
        TableCarries(s, ctx, force, false, env);
      case ReplayStep(id, ctx, env) =>
        RunIsTabled(s, ctx, false, true, env);
        TableCarries(s, ctx, false, true, env);
      case DueStep(record, ctx, env) =>
        DueIsTabled(s, record, ctx, env);
        DueTableCarries(s, record, ctx, env);
      case WebhookStep(caseId, event, asOf, replay) => WebhookAccounts(s, caseId, event, asOf, replay);
      case _ =>
    }
  }

  /** The step made the call, with its own clock, decision and cooldown. */
  ghost predicate MadeBy(call: Call, step: Step) {
    && Works(step)
    && call.at == step.ctx.asOf
    && call.decision == step.ctx.policy.decision
    && call.cooldownUntil == step.ctx.policy.cooldownUntil
    && step.ctx.plan.caseId == Some(call.key.caseId)
    && (call.key.strategy == step.ctx.plan.strategy || call.key.strategy == step.ctx.plan.fallback)
  }

  /** Every request ever logged was made by some step of the run with that step's own policy. */
  lemma {:induction false} CallsAreTrue(steps: seq<Step>, i: int)
    requires Legal(INITIAL, steps) && 0 <= i < |Execute(INITIAL, steps).calls|
    ensures exists j :: 0 <= j < |steps| && MadeBy(Execute(INITIAL, steps).calls[i], steps[j])
  {
    if steps == [] {
    } else {
      var n := |steps| - 1;
      var before := Execute(INITIAL, steps[..n]);
      InitialValid();
      RunKeeps(INITIAL, steps[..n]);
      StepCarries(before, steps[n]);
      if i < |before.calls| {
        CallsAreTrue(steps[..n], i);
        var j :| 0 <= j < n && MadeBy(before.calls[i], steps[..n][j]);
        assert steps[j] == steps[..n][j] && Execute(INITIAL, steps).calls[i] == before.calls[i];
      } else {
        assert MadeBy(Execute(INITIAL, steps).calls[i], steps[n]);
      }
    }
  }

  // Fallbacks answer to the policy of their wait

  /** A request made through a fallback, by a run or replay of a wait or by a due wait, was made
      under ALLOW or WAIT and after the cooldown the step was given, never inside it. */
  lemma FallbackAnswersToPolicy(s: State, step: Step)
    requires Valid(s) && Enabled(s, step) && Works(step)
    requires if step.DueStep? then WindowReached(step.record, step.ctx) else IsWait(step.ctx.plan.strategy)
    requires Apply(s, step).calls != s.calls
    ensures step.ctx.policy.decision == Allow || step.ctx.policy.decision == Wait
    ensures step.ctx.policy.cooldownUntil.Some? ==> step.ctx.policy.cooldownUntil.value <= step.ctx.asOf
  {
    match step {
      case RunStep(ctx, force, env) => RequestTold(s, ctx, force, false, env);
      case ReplayStep(id, ctx, env) => RequestTold(s, ctx, false, true, env);
      case DueStep(record, ctx, env) => DueRequestTold(s, record, ctx, env);
    }
  }

  /** Inside a cooldown a due wait's fallback is put off to its end: its row shows Scheduled, a
      job is pending for that time, and nothing is asked of the sandbox. */
  lemma FallbackIsPutOff(s: State, record: Record, ctx: Context, env: Env)
    requires Valid(s) && Snapshot(s, record) && WindowReached(record, ctx)
    requires ctx.plan.caseId.Some? && IsOutbound(ctx.plan.fallback)
    requires ctx.policy.decision == Allow || ctx.policy.decision == Wait
    requires ctx.policy.cooldownUntil.Some? && ctx.asOf < ctx.policy.cooldownUntil.value
    requires Key(ctx.plan.caseId.value, ctx.plan.fallback, ctx.asOf) !in s.actions
    ensures var key := Key(ctx.plan.caseId.value, ctx.plan.fallback, ctx.asOf);
            var until := ctx.policy.cooldownUntil.value;
            var s' := RanDue(s, record, ctx, env).state;
            && s'.calls == s.calls && s'.server == s.server
            && key in s'.actions && DisplayOf(s'.actions[key]) == Scheduled
            && s'.actions[key].scheduledTime == Some(until)
            && key in s'.jobs && s'.jobs[key].status == Pending && s'.jobs[key].runAt == until
  {
    var s1 := WaitClosed(s, record, ctx);
    assert RanDue(s, record, ctx, env) == Ran(s1, FallbackContext(ctx), false, false, env);
    PlainIsPutOff(s1, FallbackContext(ctx), env);
  }

  lemma PlainIsPutOff(s: State, ctx: Context, env: Env)
    requires ctx.plan.caseId.Some? && IsOutbound(ctx.plan.strategy) && ctx.plan.scheduledAt == ctx.asOf
    requires ctx.policy.decision == Allow || ctx.policy.decision == Wait
    requires ctx.policy.cooldownUntil.Some? && ctx.asOf < ctx.policy.cooldownUntil.value
    requires Key(ctx.plan.caseId.value, ctx.plan.strategy, ctx.asOf) !in s.actions
    ensures var key := Key(ctx.plan.caseId.value, ctx.plan.strategy, ctx.asOf);
            var until := ctx.policy.cooldownUntil.value;
            var s' := Ran(s, ctx, false, false, env).state;
            && s'.calls == s.calls && s'.server == s.server
            && key in s'.actions && DisplayOf(s'.actions[key]) == Scheduled
            && s'.actions[key].scheduledTime == Some(until)
            && key in s'.jobs && s'.jobs[key].status == Pending && s'.jobs[key].runAt == until
  {
    GateCharacterisation(ctx.plan, ctx.policy, ctx.asOf, false);
  }

  /** A wait that hands over is itself done: shown and stored as a success at that time, without
      a live job, whatever comes of its fallback. */
  lemma HandOverLeaves(s: State, ctx: Context, force: bool, replay: bool, env: Env)
    requires Valid(s) && PassesOn(s, ctx, force, replay)
    ensures var key := Key(ctx.plan.caseId.value, ctx.plan.strategy, ctx.plan.scheduledAt);
            var s' := Ran(s, ctx, force, replay, env).state;
            && key in s'.actions
            && DisplayOf(s'.actions[key]) == Success && s'.actions[key].status == DbSucceeded
            && s'.actions[key].executedTime == Some(ctx.asOf)
            && (key in s'.jobs ==> s'.jobs[key].status == Finished)
  {
    var key := MakeKey(ctx.plan.caseId.value, ctx.plan);
    var gate := EvaluateGates(ctx.plan, ctx.policy, ctx.asOf, force);
    var sent := MarkedSent(Prepared(s, ctx, key, gate), ctx);
    var handed := HandedOver(s, sent);
    PassesOnExactly(s, ctx, force, replay);
    RanHandsOver(s, ctx, force, replay, env);
    PreparedReady(s, ctx, key, gate);
    HandedOverKeeps(s, sent);
    RanKeeps(handed, FallbackContext(ctx), false, false, env);
    assert Untouched(handed, Ran(s, ctx, force, replay, env).state, key);
  }

  // Webhooks

  /** The audit row a webhook appends: captures, stops and everything else, each event by name. */
  lemma WebhookReports(s: State, caseId: CaseId, event: ProviderEvent, asOf: Time, duplicate: bool)
    ensures var s' := WebhookApplied(s, caseId, event, asOf, duplicate);
            var history := NewestFirst(s.actions, s.inserted, caseId);
            && |s'.audits| == |s.audits| + 1 && s.audits <= s'.audits
            && var row := s'.audits[|s.audits|];
            && row.WebhookAudit? && row.caseId == caseId && row.provider == event && row.duplicate == duplicate
            && row.target == (if duplicate || history == [] then None else Some(history[0].id))
            && (row.event == PaymentWasCaptured <==>
                  !duplicate && event in {PaymentCaptured, PaymentLinkPaid, SubscriptionCharged})
            && (row.event == RecoveryStopped <==> !duplicate && event in {SubscriptionCancelled, SubscriptionPaused})
            && (row.event == ActionExecuted <==>
                  duplicate || event in {PaymentFailed, PaymentAuthorized, OtherEvent})
  {
  }

  /** And the label it leaves on the case's newest row, unless that is dead-lettered. */
  lemma WebhookLabels(s: State, caseId: CaseId, event: ProviderEvent, asOf: Time)
    requires Valid(s)
    requires var history := NewestFirst(s.actions, s.inserted, caseId); history != [] && !history[0].meta.deadLettered
    ensures var k := NewestFirst(s.actions, s.inserted, caseId)[0].id;
            var s' := WebhookApplied(s, caseId, event, asOf, false);
            && k in s'.actions && s'.actions[k].meta.webhook == Some(event)
            && LabelReports(DisplayOf(s'.actions[k]), event)
  {
    NewestOfCase(s, caseId);
    NewestFits(s, caseId);
    WebhookShown(NewestFirst(s.actions, s.inserted, caseId)[0], event, asOf);
  }

  /** Captures show Success, stops Cancelled, failures Failed, and all else Sent. */
  predicate LabelReports(shown: Display, event: ProviderEvent) {
    && (shown == Success <==> event in {PaymentCaptured, PaymentLinkPaid, SubscriptionCharged})
    && (shown == Cancelled <==> event in {SubscriptionCancelled, SubscriptionPaused})
    && (shown == Failed <==> event == PaymentFailed)
    && (shown == Sent <==> event in {PaymentAuthorized, OtherEvent})
  }

  lemma NewestFits(s: State, caseId: CaseId)
    requires Valid(s) && NewestFirst(s.actions, s.inserted, caseId) != []
    ensures !NewestFirst(s.actions, s.inserted, caseId)[0].meta.expired
  {
    NewestOfCase(s, caseId);
    assert KeyOk(s, NewestFirst(s.actions, s.inserted, caseId)[0].id);
  }

  lemma WebhookShown(r: Record, event: ProviderEvent, asOf: Time)
    requires !r.meta.deadLettered && !r.meta.expired
    ensures LabelReports(DisplayOf(Noted(r, event, asOf)), event) && Noted(r, event, asOf).meta.webhook == Some(event)
    ensures Noted(r, event, asOf).id == r.id
  {
  }
}
