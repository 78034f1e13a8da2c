/** Audit rows and sandbox requests, counted over every path through a run. */
module Accounting {
  import opened Wrappers
  import opened Domain
  import opened Mapping
  import opened Gates
  import opened Sandbox
  import opened Scheduler
  import opened Steps
  import opened Invariants
  import opened StepInvariants

  /** Nothing recorded is ever taken back: histories grow at the end, rows stay, and the
      sandbox keeps every body it has handed out. */
  ghost predicate Extends(s: State, s': State) {
    && s.actions.Keys <= s'.actions.Keys
    && s.inserted <= s'.inserted
    && s.audits <= s'.audits
    && s.enqueued <= s'.enqueued
    && s.calls <= s'.calls
    && Grows(s.server, s'.server)
  }

  lemma ExtendsTrans(s: State, s1: State, s2: State)
    requires Extends(s, s1) && Extends(s1, s2)
    ensures Extends(s, s2)
  {
  }

  /** One audit row for a result of its own, none for a replayed one or an error. */
  function RowsOwed(outcome: Outcome): nat {
    if outcome.Done? && !outcome.result.replayed then 1 else 0
  }

  ghost predicate Accounts(s: State, res: StepResult) {
    && Extends(s, res.state)
    && |res.state.audits| == |s.audits| + RowsOwed(res.outcome)
    && |res.state.calls| <= |s.calls| + 1
  }

  /** An ending appends one row and makes no request. */
  ghost predicate Ends(s: State, res: StepResult) {
    && Extends(s, res.state)
    && res.state.calls == s.calls
    && |res.state.audits| == |s.audits| + RowsOwed(res.outcome)
  }

  lemma FinalizedEnds(s: State, r: Record, ctx: Context, display: Display, event: AuditEvent)
    ensures Ends(s, Finalized(s, r, ctx, display, event))
  {
  }

  lemma BackedOffEnds(s: State, r: Record, ctx: Context, offset: int)
    ensures Ends(s, BackedOff(s, r, ctx, offset))
  {
    if NextBackoff(r.retryNumber, offset).None? {
      assert Ends(s, DeadLettered(s, Bumped(r), ctx));
    } else {
      assert Ends(s, Rescheduled(s, Bumped(r), ctx, ctx.asOf + NextBackoff(r.retryNumber, offset).value));
    }
  }

  lemma NotifiedEnds(s: State, linked: Record, ctx: Context, env: Env)
    ensures Ends(s, Notified(s, linked, ctx, env))
  {
    if !env.delivery.DeliveryRaises? {
      var notified := linked.(meta := linked.meta.(delivery := Some(DeliveryStatusOf(env.delivery))));
      BackedOffEnds(s, notified, ctx, env.offset);
      FinalizedEnds(s, notified.(response := Some(OkCode)), ctx, Success, ActionExecuted);
    }
  }

  lemma AnsweredAccounts(s: State, sent: Record, ctx: Context, key: Key, env: Env)
    requires env.reply.Accepted? ==> TokenFor(key) in s.server.cache
    ensures Ends(s, Answered(s, sent, ctx, key, env))
  {
    match env.reply {
      case TransientError => BackedOffEnds(s, sent, ctx, env.offset);
      case PermanentError =>
        FinalizedEnds(s, Rejected(sent), ctx, Failed, ActionExecuted);
      case UnexpectedError =>
      case Accepted => NotifiedEnds(s, WithResource(sent, s.server.cache[TokenFor(key)]), ctx, env);
    }
  }

  lemma OutboundAccounts(s: State, sent: Record, ctx: Context, key: Key, replay: bool, env: Env)
    ensures var s2 := Requested(Saved(s, sent), ctx, key, replay, env);
            && (env.reply.Accepted? ==> TokenFor(key) in s2.server.cache)
            && Accounts(s, Answered(s2, sent, ctx, key, env))
            && Answered(s2, sent, ctx, key, env).state.calls == s.calls + [CallFor(ctx, key, replay, env)]
  {
    var s2 := Requested(Saved(s, sent), ctx, key, replay, env);
    assert Extends(s, s2);
    AnsweredAccounts(s2, sent, ctx, key, env);
    ExtendsTrans(s, s2, Answered(s2, sent, ctx, key, env).state);
  }

  /** Steps that leave audits and requests alone do not disturb the account. */
  lemma AccountsAfter(s: State, s1: State, res: StepResult)
    requires Extends(s, s1) && s1.audits == s.audits && s1.calls == s.calls
    requires Accounts(s1, res)
    ensures Accounts(s, res)
  {
    ExtendsTrans(s, s1, res.state);
  }

  lemma DispatchedAccounts(s: State, r: Record, ctx: Context, key: Key, replay: bool, env: Env)
    ensures Accounts(s, Dispatched(s, r, ctx, key, replay, env))
    decreases if IsWait(ctx.plan.strategy) then 1 else 0, 0
  {
    var sent := MarkedSent(r, ctx);
    var s1 := Saved(s, sent);
    if IsOutbound(ctx.plan.strategy) {
      OutboundAccounts(s, sent, ctx, key, replay, env);
    } else if IsWait(ctx.plan.strategy) && HasFallback(ctx.plan) {
      var s2 := HandedOver(s, sent);
      RanAccounts(s2, FallbackContext(ctx), false, false, env);
      AccountsAfter(s, s2, Ran(s2, FallbackContext(ctx), false, false, env));
    } else {
      var display := if ctx.plan.strategy.StopRecovery? then Cancelled else Success;
      var event := if ctx.plan.strategy.StopRecovery? then ActionSkipped else ActionExecuted;
      FinalizedEnds(s1, sent, ctx, display, event);
      AccountsAfter(s, s1, Finalized(s1, sent, ctx, display, event));
    }
  }

  /** Every run appends exactly one audit row when its result is its own, and none when it
      hands back a stored result or fails, however deep the fallback; it makes at most one
      request to the sandbox. */
  lemma RanAccounts(s: State, ctx: Context, force: bool, replay: bool, env: Env)
    ensures Accounts(s, Ran(s, ctx, force, replay, env))
    decreases if IsWait(ctx.plan.strategy) then 1 else 0, 1
  {
    if ctx.plan.caseId.Some? {
      var key := MakeKey(ctx.plan.caseId.value, ctx.plan);
      if !AlreadyDone(s, key, replay) {
        var gate := EvaluateGates(ctx.plan, ctx.policy, ctx.asOf, force);
        if !gate.block && (!gate.defer || replay) {
          DispatchedAccounts(s, Prepared(s, ctx, key, gate), ctx, key, replay, env);
        }
      }
    }
  }

  /** The fallback a due wait hands over to. */
  predicate DueFallback(record: Record, ctx: Context) {
    !IsWait(ctx.plan.fallback) && ctx.plan.fallback != record.meta.strategy.GetOr(ctx.plan.strategy)
  }

  /** run_due: as a run, except that a wait without a usable fallback is closed in silence. */
  lemma RanDueAccounts(s: State, record: Record, ctx: Context, env: Env)
    ensures var res := RanDue(s, record, ctx, env);
            if WindowReached(record, ctx) && !DueFallback(record, ctx)
            then Extends(s, res.state) && res.state.audits == s.audits && res.state.calls == s.calls
            else Accounts(s, res)
  {
    if WindowReached(record, ctx) {
      var s1 := WaitClosed(s, record, ctx);
      if DueFallback(record, ctx) {
        RanAccounts(s1, FallbackContext(ctx), false, false, env);
        AccountsAfter(s, s1, RanDue(s, record, ctx, env));
      }
    } else {
      RanAccounts(s, ctx, false, true, env);
    }
  }

  lemma WebhookAccounts(s: State, caseId: CaseId, event: ProviderEvent, asOf: Time, replay: bool)
    ensures var s' := WebhookApplied(s, caseId, event, asOf, replay);
            Extends(s, s') && |s'.audits| == |s.audits| + 1 && s'.calls == s.calls
  {
  }

  /** The execution of the key is finished, or, for a plain run, already on its way. */
  predicate Stands(s: State, key: Key, replay: bool) {
    key in s.actions &&
    match DisplayOf(s.actions[key])
    case Success | Cancelled | Expired => true
    case Sent => !replay
    case Scheduled | Failed | Retrying => false
  }

  /** Whether an unforced or forced run of a plan that is no wait gets to the sandbox,
      decided before the run: not done already, let through by the gate (a replay
      ignores deferrals), and backed by a request. */
  lemma RequestsExactlyWhen(s: State, ctx: Context, force: bool, replay: bool, env: Env)
    requires !IsWait(ctx.plan.strategy)
    ensures |Ran(s, ctx, force, replay, env).state.calls| == |s.calls| + 1 <==>
            && ctx.plan.caseId.Some?
            && !Stands(s, Key(ctx.plan.caseId.value, ctx.plan.strategy, ctx.plan.scheduledAt), replay)
            && GoesAhead(ctx.plan, ctx.policy, ctx.asOf, force, replay)
            && IsOutbound(ctx.plan.strategy)
  {
    GoesAheadExactly(ctx.plan, ctx.policy, ctx.asOf, force, replay);
    if ctx.plan.caseId.Some? {
      var key := MakeKey(ctx.plan.caseId.value, ctx.plan);
      var gate := EvaluateGates(ctx.plan, ctx.policy, ctx.asOf, force);
      if !AlreadyDone(s, key, replay) && Permitted(ctx, force, replay) && IsOutbound(ctx.plan.strategy) {
        var sent := MarkedSent(Prepared(s, ctx, key, gate), ctx);
        OutboundAccounts(s, sent, ctx, key, replay, env);
      }
    }
  }

  // Running the same thing twice

  /** A finished execution answers every further run and replay from the store alone. */
  lemma TerminalIsFinal(s: State, ctx: Context, force: bool, replay: bool, env: Env)
    requires ctx.plan.caseId.Some?
    requires var key := MakeKey(ctx.plan.caseId.value, ctx.plan);
             key in s.actions && IsTerminal(DisplayOf(s.actions[key]))
    ensures var key := MakeKey(ctx.plan.caseId.value, ctx.plan);
            Ran(s, ctx, force, replay, env) == StepResult(s, Done(ResultFrom(s.actions[key], true)))
  {
  }

  /** A run that deferred can be repeated with no effect but one more audit row. */
  lemma DeferralIsIdempotent(s: State, ctx: Context, force: bool, env: Env)
    requires Valid(s) && ctx.plan.caseId.Some?
    requires !Stands(s, Key(ctx.plan.caseId.value, ctx.plan.strategy, ctx.plan.scheduledAt), false)
    requires !GoesAhead(ctx.plan, ctx.policy, ctx.asOf, force, false) && !Blocks(ctx.plan, ctx.policy)
    ensures var first := Ran(s, ctx, force, false, env);
            var second := Ran(first.state, ctx, force, false, env);
            && first.outcome == second.outcome
            && second.state.actions == first.state.actions
            && second.state.inserted == first.state.inserted
            && second.state.jobs == first.state.jobs
            && second.state.server == first.state.server
            && second.state.calls == first.state.calls
            && |second.state.audits| == |first.state.audits| + 1
  {
    GoesAheadExactly(ctx.plan, ctx.policy, ctx.asOf, force, false);
    DeferralRepeats(s, ctx, force, env);
  }

  /** Deferring the row a deferral has left leaves it as it is. */
  lemma DeferTwice(s: State, r: Record, ctx: Context, gate: Gate)
    requires gate.runAt.Some?
    ensures var first := Deferred(s, r, ctx, gate);
            var again := first.state.actions[r.id].(meta := r.meta);
            var second := Deferred(first.state, again, ctx, gate);
            && first.outcome == second.outcome
            && second.state.actions == first.state.actions
            && second.state.inserted == first.state.inserted
            && second.state.jobs == first.state.jobs
            && second.state.server == first.state.server
            && second.state.calls == first.state.calls
            && |second.state.audits| == |first.state.audits| + 1
  {
    var first := Deferred(s, r, ctx, gate).state;
    assert first.actions[r.id := first.actions[r.id]] == first.actions;
    assert first.jobs[r.id := first.jobs[r.id]] == first.jobs;
  }

  lemma DeferralRepeats(s: State, ctx: Context, force: bool, env: Env)
    requires Valid(s) && ctx.plan.caseId.Some?
    requires !AlreadyDone(s, MakeKey(ctx.plan.caseId.value, ctx.plan), false)
    requires EvaluateGates(ctx.plan, ctx.policy, ctx.asOf, force).defer
    ensures var first := Ran(s, ctx, force, false, env);
            var second := Ran(first.state, ctx, force, false, env);
            && first.outcome == second.outcome
            && second.state.actions == first.state.actions
            && second.state.inserted == first.state.inserted
            && second.state.jobs == first.state.jobs
            && second.state.server == first.state.server
            && second.state.calls == first.state.calls
            && |second.state.audits| == |first.state.audits| + 1
  {
    var key := MakeKey(ctx.plan.caseId.value, ctx.plan);
    var gate := EvaluateGates(ctx.plan, ctx.policy, ctx.asOf, force);
    var r := Prepared(s, ctx, key, gate);
    GateCharacterisation(ctx.plan, ctx.policy, ctx.asOf, force);
    assert KeyOk(s, key);
    DeferTwice(s, r, ctx, gate);
    DeferralIsOpen(s, ctx, force, env);
  }

  /** A deferred row is not done, and the next run starts from it. */
  lemma DeferralIsOpen(s: State, ctx: Context, force: bool, env: Env)
    requires Valid(s) && ctx.plan.caseId.Some?
    requires !AlreadyDone(s, MakeKey(ctx.plan.caseId.value, ctx.plan), false)
    requires EvaluateGates(ctx.plan, ctx.policy, ctx.asOf, force).defer
    ensures var key := MakeKey(ctx.plan.caseId.value, ctx.plan);
            var gate := EvaluateGates(ctx.plan, ctx.policy, ctx.asOf, force);
            var r := Prepared(s, ctx, key, gate);
            var first := Deferred(s, r, ctx, gate).state;
            && Ran(s, ctx, force, false, env) == Deferred(s, r, ctx, gate)
            && key in first.actions
            && Ran(first, ctx, force, false, env) == Deferred(first, first.actions[key].(meta := r.meta), ctx, gate)
  {
    GateCharacterisation(ctx.plan, ctx.policy, ctx.asOf, force);
    assert KeyOk(s, MakeKey(ctx.plan.caseId.value, ctx.plan));
  }
}
