/** Every operation keeps the invariant, and touches only its own rows. */
module StepInvariants {
  import opened Wrappers
  import opened Domain
  import opened Gates
  import opened Sandbox
  import opened Scheduler
  import opened Steps
  import opened Invariants

  lemma FrameTrans(s: State, s1: State, s2: State, first: set<Key>, second: set<Key>)
    requires Frame(s, s1, first) && Frame(s1, s2, second)
    ensures Frame(s, s2, first + second)
  {
    forall k: Key | k !in first + second
      ensures Untouched(s, s2, k)
    {
      assert Untouched(s, s1, k) && Untouched(s1, s2, k);
    }
  }

  lemma FrameWiden(s: State, s': State, keys: set<Key>, wider: set<Key>)
    requires Frame(s, s', keys) && keys <= wider
    ensures Frame(s, s', wider)
  {
  }

  /** Storing a row by itself, before its label has settled. */
  lemma SavedBut(s: State, r: Record)
    requires ValidBut(s, r.id)
    ensures ValidBut(Saved(s, r), r.id) && Frame(s, Saved(s, r), {r.id})
  {
    SavedGlobal(s, r);
    LocalChange(s, Saved(s, r), r.id);
  }

  /** The gate let the plan through. */
  predicate Permitted(ctx: Context, force: bool, replay: bool) {
    var gate := EvaluateGates(ctx.plan, ctx.policy, ctx.asOf, force);
    !gate.block && (replay || !gate.defer)
  }

  lemma PermittedCallOk(ctx: Context, key: Key, force: bool, replay: bool, env: Env)
    requires Permitted(ctx, force, replay) && IsOutbound(ctx.plan.strategy)
    requires ctx.plan.caseId == Some(key.caseId) && key == MakeKey(key.caseId, ctx.plan)
    ensures CallOk(CallFor(ctx, key, replay, env))
  {
  }

  lemma RequestedGlobal(s: State, ctx: Context, key: Key, replay: bool, env: Env)
    requires Global(s) && key in s.actions && key.strategy == ctx.plan.strategy
    requires CallOk(CallFor(ctx, key, replay, env))
    ensures var s' := Requested(s, ctx, key, replay, env);
            && Global(s') && Grows(s.server, s'.server)
            && (env.reply.Accepted? ==> TokenFor(key) in s'.server.cache)
  {
    PostKeepsServer(s.server, PathFor(ctx.plan.strategy), PayloadFor(ctx.plan.strategy, ctx.amount), TokenFor(key));
  }

  lemma RequestedKeeps(s: State, ctx: Context, key: Key, replay: bool, env: Env)
    requires ValidBut(s, key) && key in s.actions && key.strategy == ctx.plan.strategy
    requires CallOk(CallFor(ctx, key, replay, env))
    ensures var s' := Requested(s, ctx, key, replay, env);
            && ValidBut(s', key) && Frame(s, s', {key}) && Grows(s.server, s'.server)
            && Failures(s'.calls, key) ==
               Failures(s.calls, key) + (if IsFailure(CallFor(ctx, key, replay, env)) then 1 else 0)
            && (env.reply.Accepted? ==> TokenFor(key) in s'.server.cache)
  {
    var s' := Requested(s, ctx, key, replay, env);
    RequestedGlobal(s, ctx, key, replay, env);
    forall k: Key {
      FailuresAppend(s.calls, CallFor(ctx, key, replay, env), k);
    }
    assert Frame(s, s', {key});
    LocalChange(s, s', key);
  }

  /** A row keeps fitting while the server grows. */
  lemma FitsLater(s: State, s': State, r: Record)
    requires RowFits(s, r) && Grows(s.server, s'.server)
    ensures RowFits(s', r)
  {
  }

  lemma NotifiedKeeps(s: State, linked: Record, ctx: Context, env: Env)
    requires Ready(s, linked) && IsOutbound(linked.id.strategy) && linked.id.strategy == ctx.plan.strategy
    requires env.reply.Accepted?
    requires linked.id in s.actions && s.actions[linked.id].meta.display == Some(Sent)
    requires s.actions[linked.id].status.DbRunning? && s.actions[linked.id].id == linked.id
    requires RowFits(s, s.actions[linked.id]) && !s.actions[linked.id].meta.deadLettered
    requires s.actions[linked.id].retryNumber == linked.retryNumber
    requires Failures(s.calls, linked.id) == linked.retryNumber
               + if CallOutcomeOf(env, ctx.plan.strategy).CallUndelivered? then 1 else 0
    ensures var s' := Notified(s, linked, ctx, env).state;
            Valid(s') && Frame(s, s', {linked.id}) && linked.id in s'.actions
  {
    if !env.delivery.DeliveryRaises? {
      var delivery := DeliveryStatusOf(env.delivery);
      var notified := linked.(meta := linked.meta.(delivery := Some(delivery)));
      if delivery.DeliveryFailed? && !Silent(ctx.plan.strategy) {
        BackedOffKeeps(s, notified, ctx, env.offset);
      } else {
        FinalizedKeeps(s, notified.(response := Some(OkCode)), ctx, Success, ActionExecuted);
      }
    }
  }

  /** The outbound half of a dispatch, from the row marked sent to its ending. */
  lemma OutboundKeeps(s: State, sent: Record, ctx: Context, replay: bool, env: Env)
    requires Ready(s, sent) && sent.retryNumber == Failures(s.calls, sent.id)
    requires IsOutbound(ctx.plan.strategy) && sent.id.strategy == ctx.plan.strategy
    requires sent.meta.display == Some(Sent) && sent.status.DbRunning?
    requires CallOk(CallFor(ctx, sent.id, replay, env))
    ensures var s2 := Requested(Saved(s, sent), ctx, sent.id, replay, env);
            && (env.reply.Accepted? ==> TokenFor(sent.id) in s2.server.cache)
            && var s' := Answered(s2, sent, ctx, sent.id, env).state;
            Valid(s') && Frame(s, s', {sent.id}) && sent.id in s'.actions
  {
    var s1 := Saved(s, sent);
    SavedBut(s, sent);
    var s2 := Requested(s1, ctx, sent.id, replay, env);
    RequestedKeeps(s1, ctx, sent.id, replay, env);
    FrameTrans(s, s1, s2, {sent.id}, {sent.id});
    FitsLater(s, s2, sent);
    AnsweredKeeps(s2, sent, ctx, env);
    FrameTrans(s, s2, Answered(s2, sent, ctx, sent.id, env).state, {sent.id}, {sent.id});
    assert {sent.id} + {sent.id} == {sent.id};
  }

  lemma AnsweredKeeps(s: State, sent: Record, ctx: Context, env: Env)
    requires Ready(s, sent) && IsOutbound(sent.id.strategy) && sent.id.strategy == ctx.plan.strategy
    requires sent.id in s.actions && s.actions[sent.id] == sent
    requires sent.meta.display == Some(Sent) && sent.status.DbRunning?
    requires env.reply.Accepted? ==> TokenFor(sent.id) in s.server.cache
    requires var outcome := CallOutcomeOf(env, ctx.plan.strategy);
             Failures(s.calls, sent.id) ==
             sent.retryNumber + if outcome.CallTransient? || outcome.CallUndelivered? then 1 else 0
    ensures var s' := Answered(s, sent, ctx, sent.id, env).state;
            Valid(s') && Frame(s, s', {sent.id}) && sent.id in s'.actions
  {
    match env.reply {
      case TransientError =>
        BackedOffKeeps(s, sent, ctx, env.offset);
      case PermanentError =>
        FinalizedKeeps(s, Rejected(sent), ctx, Failed, ActionExecuted);
      case UnexpectedError =>
      case Accepted =>
        NotifiedKeeps(s, WithResource(sent, s.server.cache[TokenFor(sent.id)]), ctx, env);
    }
  }

  /** The gate lets a wait through and its fallback takes over. */
  predicate HandsOver(ctx: Context, force: bool, replay: bool) {
    Permitted(ctx, force, replay) && IsWait(ctx.plan.strategy) && HasFallback(ctx.plan)
  }

  /** The rows a run may change: its own and, for a wait that hands over, the fallback's. */
  function RunKeys(ctx: Context, force: bool, replay: bool): set<Key> {
    if ctx.plan.caseId.None? then {}
    else {MakeKey(ctx.plan.caseId.value, ctx.plan)} +
         if HandsOver(ctx, force, replay)
         then {MakeKey(ctx.plan.caseId.value, FallbackContext(ctx).plan)} else {}
  }

  lemma PreparedReady(s: State, ctx: Context, key: Key, gate: Gate)
    requires Valid(s) && key.strategy == ctx.plan.strategy
    ensures var r := Prepared(s, ctx, key, gate);
            Ready(s, r) && r.id == key && r.retryNumber == Failures(s.calls, key)
  {
    assert KeyOk(s, key);
  }

  /** Handing a wait over: its own row is done before the fallback runs. */
  lemma HandedOverKeeps(s: State, sent: Record)
    requires Ready(s, sent) && sent.retryNumber == Failures(s.calls, sent.id)
    ensures var s' := HandedOver(s, sent);
            Valid(s') && Frame(s, s', {sent.id}) && sent.id in s'.actions
  {
    var done := WithDisplay(sent, Success);
    var s' := JobClosed(Saved(Saved(s, sent), done), sent.id, Finished);
    assert s'.actions == Saved(s, done).actions;
    StoringKeeps(s, s', done);
  }

  /** A dispatch that stops, escalates, or is a wait without a fallback. */
  lemma FinalDispatchKeeps(s: State, r: Record, ctx: Context, replay: bool, env: Env)
    requires Valid(s) && Ready(s, r) && r.retryNumber == Failures(s.calls, r.id)
    requires !IsOutbound(ctx.plan.strategy) && !(IsWait(ctx.plan.strategy) && HasFallback(ctx.plan))
    ensures var s' := Dispatched(s, r, ctx, r.id, replay, env).state;
            Valid(s') && Frame(s, s', {r.id}) && r.id in s'.actions
  {
    var sent := MarkedSent(r, ctx);
    var s1 := Saved(s, sent);
    var display := if ctx.plan.strategy.StopRecovery? then Cancelled else Success;
    var event := if ctx.plan.strategy.StopRecovery? then ActionSkipped else ActionExecuted;
    SavedBut(s, sent);
    FinalizedKeeps(s1, sent, ctx, display, event);
    FrameTrans(s, s1, Finalized(s1, sent, ctx, display, event).state, {r.id}, {r.id});
    assert {r.id} + {r.id} == {r.id};
  }

  lemma HandOverKeeps(s: State, r: Record, ctx: Context, replay: bool, env: Env)
    requires Valid(s) && Ready(s, r) && r.retryNumber == Failures(s.calls, r.id)
    requires ctx.plan.caseId == Some(r.id.caseId) && r.id == MakeKey(r.id.caseId, ctx.plan)
    requires IsWait(ctx.plan.strategy) && HasFallback(ctx.plan)
    ensures var s' := Dispatched(s, r, ctx, r.id, replay, env).state;
            Valid(s') && Frame(s, s', {r.id} + RunKeys(FallbackContext(ctx), false, false)) && r.id in s'.actions
    decreases 0, 2
  {
    var sent := MarkedSent(r, ctx);
    var s2 := HandedOver(s, sent);
    var s' := Dispatched(s, r, ctx, r.id, replay, env).state;
    HandedOverKeeps(s, sent);
    RanKeeps(s2, FallbackContext(ctx), false, false, env);
    FrameTrans(s, s2, s', {r.id}, RunKeys(FallbackContext(ctx), false, false));
    assert Untouched(s2, s', r.id);
  }

  lemma DispatchedKeeps(s: State, r: Record, ctx: Context, force: bool, replay: bool, env: Env)
    requires Valid(s) && Ready(s, r) && r.retryNumber == Failures(s.calls, r.id)
    requires ctx.plan.caseId == Some(r.id.caseId) && r.id == MakeKey(r.id.caseId, ctx.plan)
    requires Permitted(ctx, force, replay)
    ensures var s' := Dispatched(s, r, ctx, r.id, replay, env).state;
            Valid(s') && Frame(s, s', RunKeys(ctx, force, replay)) && r.id in s'.actions
    decreases if IsWait(ctx.plan.strategy) then 1 else 0, 0
  {
    var s' := Dispatched(s, r, ctx, r.id, replay, env).state;
    if IsOutbound(ctx.plan.strategy) {
      PermittedCallOk(ctx, r.id, force, replay, env);
      OutboundKeeps(s, MarkedSent(r, ctx), ctx, replay, env);
      FrameWiden(s, s', {r.id}, RunKeys(ctx, force, replay));
    } else if IsWait(ctx.plan.strategy) && HasFallback(ctx.plan) {
      HandOverKeeps(s, r, ctx, replay, env);
      FrameWiden(s, s', {r.id} + RunKeys(FallbackContext(ctx), false, false), RunKeys(ctx, force, replay));
    } else {
      FinalDispatchKeeps(s, r, ctx, replay, env);
      FrameWiden(s, s', {r.id}, RunKeys(ctx, force, replay));
    }
  }

  /** A run that hands over is the fallback's run from the state the wait leaves. */
  lemma RanHandsOver(s: State, ctx: Context, force: bool, replay: bool, env: Env)
    requires ctx.plan.caseId.Some? && HandsOver(ctx, force, replay)
    requires !AlreadyDone(s, MakeKey(ctx.plan.caseId.value, ctx.plan), replay)
    ensures var key := MakeKey(ctx.plan.caseId.value, ctx.plan);
            var r := Prepared(s, ctx, key, EvaluateGates(ctx.plan, ctx.policy, ctx.asOf, force));
            Ran(s, ctx, force, replay, env) ==
            Ran(HandedOver(s, MarkedSent(r, ctx)), FallbackContext(ctx), false, false, env)
  {
  }

  lemma RanKeeps(s: State, ctx: Context, force: bool, replay: bool, env: Env)
    requires Valid(s)
    ensures var s' := Ran(s, ctx, force, replay, env).state;
            Valid(s') && Frame(s, s', RunKeys(ctx, force, replay))
            && (ctx.plan.caseId.Some? ==> MakeKey(ctx.plan.caseId.value, ctx.plan) in s'.actions)
    decreases if IsWait(ctx.plan.strategy) then 1 else 0, 1
  {
    if ctx.plan.caseId.Some? {
      var key := MakeKey(ctx.plan.caseId.value, ctx.plan);
      if !AlreadyDone(s, key, replay) {
        var gate := EvaluateGates(ctx.plan, ctx.policy, ctx.asOf, force);
        var r := Prepared(s, ctx, key, gate);
        PreparedReady(s, ctx, key, gate);
        var s' := Ran(s, ctx, force, replay, env).state;
        if gate.block {
          FinalizedKeeps(s, r, ctx, Cancelled, ActionSkipped);
          FrameWiden(s, s', {key}, RunKeys(ctx, force, replay));
        } else if gate.defer && !replay {
          DeferredKeeps(s, r, ctx, gate);
          FrameWiden(s, s', {key}, RunKeys(ctx, force, replay));
        } else {
          DispatchedKeeps(s, r, ctx, force, replay, env);
        }
      }
    }
  }

  lemma ReplayedKeeps(s: State, id: Key, ctx: Context, env: Env)
    requires Valid(s)
    ensures var s' := Replayed(s, id, ctx, env).state;
            Valid(s') && Frame(s, s', RunKeys(ctx, false, true))
  {
    if id in s.actions {
      RanKeeps(s, ctx, false, true, env);
    }
  }

  /** A copy of a stored row, possibly out of date. */
  ghost predicate Snapshot(s: State, r: Record) {
    r.id in s.actions && RowOk(s, r)
  }

  /** The rows run_due may change: the due one when it is a wait, and those of the fresh plan. */
  function DueKeysOf(record: Record, ctx: Context): set<Key> {
    if WindowReached(record, ctx) then {record.id} + RunKeys(FallbackContext(ctx), false, false)
    else RunKeys(ctx, false, true)
  }

  lemma WaitClosedKeeps(s: State, record: Record, ctx: Context)
    requires Valid(s) && Snapshot(s, record) && WindowReached(record, ctx)
    ensures var s1 := WaitClosed(s, record, ctx);
            Valid(s1) && Frame(s, s1, {record.id}) && record.id in s1.actions
  {
    assert KeyOk(s, record.id);
    StoringKeeps(s, WaitClosed(s, record, ctx), WaitOver(record, ctx));
  }

  lemma RanDueKeeps(s: State, record: Record, ctx: Context, env: Env)
    requires Valid(s) && Snapshot(s, record)
    ensures var s' := RanDue(s, record, ctx, env).state;
            Valid(s') && Frame(s, s', DueKeysOf(record, ctx))
  {
    var s' := RanDue(s, record, ctx, env).state;
    if WindowReached(record, ctx) {
      var s1 := WaitClosed(s, record, ctx);
      WaitClosedKeeps(s, record, ctx);
      var next := FallbackContext(ctx);
      if !IsWait(ctx.plan.fallback) && ctx.plan.fallback != record.meta.strategy.GetOr(ctx.plan.strategy) {
        RanKeeps(s1, next, false, false, env);
        FrameTrans(s, s1, s', {record.id}, RunKeys(next, false, false));
      }
      FrameWiden(s, s1, {record.id}, DueKeysOf(record, ctx));
    } else {
      RanKeeps(s, ctx, false, true, env);
    }
  }

  // Webhooks and the queue's own moves

  lemma AuditedKeeps(s: State, row: Audit)
    requires Valid(s)
    ensures Valid(Audited(s, row)) && Frame(s, Audited(s, row), {})
  {
    forall k: Key ensures KeyOk(Audited(s, row), k) {
      assert KeyOk(s, k);
    }
  }

  function NotedState(s: State, r: Record, event: ProviderEvent, asOf: Time): State {
    Saved(if EventDisplay(event).Success? then JobClosed(s, r.id, Finished) else s, Noted(r, event, asOf))
  }

  lemma NotedRowOk(s: State, r: Record, event: ProviderEvent, asOf: Time)
    requires Valid(s) && r.id in s.actions && s.actions[r.id] == r
    ensures KeyOk(NotedState(s, r, event, asOf), r.id)
  {
    assert KeyOk(s, r.id);
  }

  lemma NotedKeeps(s: State, r: Record, event: ProviderEvent, asOf: Time)
    requires Valid(s) && r.id in s.actions && s.actions[r.id] == r
    ensures Valid(NotedState(s, r, event, asOf)) && Frame(s, NotedState(s, r, event, asOf), {r.id})
  {
    assert KeyOk(s, r.id);
    NotedRowOk(s, r, event, asOf);
    assert RowStored(s, NotedState(s, r, event, asOf), Noted(r, event, asOf));
    StoringKeeps(s, NotedState(s, r, event, asOf), Noted(r, event, asOf));
  }

  /** The row a webhook lands on is the case's newest stored row. */
  lemma NewestOfCase(s: State, caseId: CaseId)
    requires Valid(s)
    ensures var history := NewestFirst(s.actions, s.inserted, caseId);
            history != [] ==>
              var r := history[0]; r.id in s.actions && s.actions[r.id] == r && r.caseId == caseId
  {
    var history := NewestFirst(s.actions, s.inserted, caseId);
    NewestIsStored(s.actions, s.inserted, caseId);
    if history != [] {
      var i :| 0 <= i < |s.inserted| && s.inserted[i] in s.actions && s.actions[s.inserted[i]] == history[0];
      assert KeyOk(s, s.inserted[i]);
    }
  }

  lemma WebhookKeeps(s: State, caseId: CaseId, event: ProviderEvent, asOf: Time, replay: bool)
    requires Valid(s)
    ensures var s' := WebhookApplied(s, caseId, event, asOf, replay);
            var history := NewestFirst(s.actions, s.inserted, caseId);
            && Valid(s')
            && Frame(s, s', if replay || history == [] then {} else {history[0].id})
  {
    var history := NewestFirst(s.actions, s.inserted, caseId);
    if replay {
      AuditedKeeps(s, WebhookAudit(caseId, ActionExecuted, event, true, None));
    } else if history == [] {
      AuditedKeeps(s, WebhookAudit(caseId, EventAudit(event), event, false, None));
    } else {
      var r := history[0];
      var s1 := NotedState(s, r, event, asOf);
      NewestOfCase(s, caseId);
      NotedKeeps(s, r, event, asOf);
      AuditedKeeps(s1, WebhookAudit(caseId, EventAudit(event), event, false, Some(r.id)));
      FrameTrans(s, s1, WebhookApplied(s, caseId, event, asOf, replay), {r.id}, {});
      assert {r.id} + {} == {r.id};
    }
  }

  function AfterClaim(s: State, asOf: Time): State {
    s.(jobs := Claimed(s.jobs, DueKeys(s.jobs, asOf)))
  }

  function AfterRelease(s: State, id: Key): State {
    s.(jobs := Released(s.jobs, id))
  }

  lemma ClaimKeeps(s: State, asOf: Time)
    requires Valid(s)
    ensures Valid(AfterClaim(s, asOf))
  {
    forall k: Key ensures KeyOk(AfterClaim(s, asOf), k) {
      assert KeyOk(s, k);
    }
  }

  lemma ReleaseKeeps(s: State, id: Key)
    requires Valid(s)
    ensures Valid(AfterRelease(s, id))
  {
    forall k: Key ensures KeyOk(AfterRelease(s, id), k) {
      assert KeyOk(s, k);
    }
  }
}
