/**
  The other half of the agreement between rows and jobs: a live job belongs to a row that
  is shown as waiting. Runs keep it; two kinds of step can strand a job, and do so exactly
  when the job is live.
 */
module QueueAgreement {
  import opened Wrappers
  import opened Domain
  import opened Mapping
  import opened Gates
  import opened Sandbox
  import opened Scheduler
  import opened Steps
  import opened Invariants
  import opened StepInvariants
  import opened Accounting
  import opened Outcomes
  import opened Runs

  predicate LiveJob(s: State, k: Key) {
    k in s.jobs && IsLive(s.jobs[k])
  }

  predicate Waiting(s: State, k: Key) {
    k in s.actions && IsWaiting(DisplayOf(s.actions[k]))
  }

  /** A live job whose row is not shown as waiting. */
  predicate Stranded(s: State, k: Key) {
    LiveJob(s, k) && !Waiting(s, k)
  }

  /** Rows shown as waiting and live jobs are the same thing. */
  ghost predicate Agreement(s: State) {
    forall k: Key :: Waiting(s, k) <==> LiveJob(s, k)
  }

  ghost predicate NoneStranded(s: State) {
    forall k: Key :: !Stranded(s, k)
  }

  lemma AgreementIsNoStrandedJob(s: State)
    requires Valid(s)
    ensures Agreement(s) <==> NoneStranded(s)
  {
    forall k: Key ensures Waiting(s, k) <==> LiveJob(s, k) && !Stranded(s, k) {
      assert KeyOk(s, k);
    }
  }

  ghost predicate QueueOutcome(s: State, res: StepResult) {
    && (Broke(res) ==> res.state.calls != [] && !IsWait(LastKey(res.state).strategy))
    && (forall k: Key :: Stranded(res.state, k) ==>
          Stranded(s, k) || (Broke(res) && k == LastKey(res.state) && LiveJob(s, k)))
    && (Broke(res) && LiveJob(s, LastKey(res.state)) ==> Stranded(res.state, LastKey(res.state)))
    && (res.outcome.Done? && !res.outcome.result.replayed ==> !Stranded(res.state, res.outcome.result.id))
  }

  lemma FinalizedAgrees(s: State, r: Record, ctx: Context, display: Display, event: AuditEvent)
    requires IsTerminal(display) && !display.Expired?
    ensures var res := Finalized(s, r, ctx, display, event);
            !Stranded(res.state, r.id) && res.outcome.Done? && res.outcome.result.id == r.id
  {
  }

  lemma BackedOffAgrees(s: State, r: Record, ctx: Context, offset: int)
    requires !r.meta.deadLettered && !r.meta.expired
    ensures var res := BackedOff(s, r, ctx, offset);
            !Stranded(res.state, r.id) && res.outcome.Done? && res.outcome.result.id == r.id
  {
    if NextBackoff(r.retryNumber, offset).Some? {
      assert DisplayOf(BackedOff(s, r, ctx, offset).state.actions[r.id]) == Retrying;
    }
  }

  lemma NotifiedAgrees(s: State, linked: Record, ctx: Context, env: Env)
    requires !linked.meta.deadLettered && !linked.meta.expired
    ensures var res := Notified(s, linked, ctx, env);
            if Broke(res) then res.state == s
            else res.outcome.Done? && !Stranded(res.state, linked.id) && res.outcome.result.id == linked.id
  {
    if !env.delivery.DeliveryRaises? {
      var notified := linked.(meta := linked.meta.(delivery := Some(DeliveryStatusOf(env.delivery))));
      BackedOffAgrees(s, notified, ctx, env.offset);
    }
  }

  lemma OutboundAgrees(s: State, sent: Record, ctx: Context, replay: bool, env: Env)
    requires !sent.meta.deadLettered && !sent.meta.expired && sent.meta.display == Some(Sent)
    ensures var s2 := Requested(Saved(s, sent), ctx, sent.id, replay, env);
            && (env.reply.Accepted? ==> TokenFor(sent.id) in s2.server.cache)
            && var res := Answered(s2, sent, ctx, sent.id, env);
            if Broke(res) then
              res.state.calls != [] && LastKey(res.state) == sent.id
              && (Stranded(res.state, sent.id) <==> LiveJob(s, sent.id))
            else res.outcome.Done? && !Stranded(res.state, sent.id) && res.outcome.result.id == sent.id
  {
    var s2 := Requested(Saved(s, sent), ctx, sent.id, replay, env);
    match env.reply {
      case TransientError => BackedOffAgrees(s2, sent, ctx, env.offset);
      case Accepted => NotifiedAgrees(s2, WithResource(sent, s2.server.cache[TokenFor(sent.id)]), ctx, env);
      case _ =>
    }
  }

  /** The ending of a run at its own key. */
  ghost predicate OwnOutcome(s: State, res: StepResult, key: Key) {
    if Broke(res) then
      res.state.calls != [] && LastKey(res.state) == key && (Stranded(res.state, key) <==> LiveJob(s, key))
    else res.outcome.Done? && !Stranded(res.state, key) && res.outcome.result.id == key
  }

  lemma OtherKeys(s: State, s': State, key: Key)
    requires Frame(s, s', {key})
    ensures forall k: Key :: k != key ==> (Stranded(s', k) <==> Stranded(s, k)) && (LiveJob(s', k) <==> LiveJob(s, k))
  {
    forall k: Key | k != key
      ensures (Stranded(s', k) <==> Stranded(s, k)) && (LiveJob(s', k) <==> LiveJob(s, k))
    {
      assert Untouched(s, s', k);
    }
  }

  lemma OwnKeyAgrees(s: State, res: StepResult, key: Key)
    requires Frame(s, res.state, {key}) && OwnOutcome(s, res, key)
    requires Broke(res) ==> !IsWait(key.strategy)
    ensures QueueOutcome(s, res)
  {
    OtherKeys(s, res.state, key);
  }

  lemma HandOverAgrees(s: State, s2: State, res: StepResult, key: Key)
    requires Frame(s, s2, {key}) && !LiveJob(s2, key) && IsWait(key.strategy)
    requires QueueOutcome(s2, res)
    ensures QueueOutcome(s, res)
  {
    OtherKeys(s, s2, key);
  }

  /** A dispatch that does not hand over. */
  lemma DispatchedAgrees(s: State, r: Record, ctx: Context, replay: bool, env: Env)
    requires !r.meta.deadLettered && !r.meta.expired
    requires !(IsWait(ctx.plan.strategy) && HasFallback(ctx.plan))
    ensures OwnOutcome(s, Dispatched(s, r, ctx, r.id, replay, env), r.id)
    ensures Broke(Dispatched(s, r, ctx, r.id, replay, env)) ==> IsOutbound(ctx.plan.strategy)
  {
    var sent := MarkedSent(r, ctx);
    if IsOutbound(ctx.plan.strategy) {
      OutboundAgrees(s, sent, ctx, replay, env);
    } else {
      FinalizedAgrees(Saved(s, sent), sent, ctx, Cancelled, ActionSkipped);
      FinalizedAgrees(Saved(s, sent), sent, ctx, Success, ActionExecuted);
    }
  }

  lemma RanAgrees(s: State, ctx: Context, force: bool, replay: bool, env: Env)
    requires Valid(s)
    ensures QueueOutcome(s, Ran(s, ctx, force, replay, env))
    decreases if IsWait(ctx.plan.strategy) then 1 else 0
  {
    if ctx.plan.caseId.Some? {
      var key := MakeKey(ctx.plan.caseId.value, ctx.plan);
      if !AlreadyDone(s, key, replay) {
        var gate := EvaluateGates(ctx.plan, ctx.policy, ctx.asOf, force);
        var r := Prepared(s, ctx, key, gate);
        var res := Ran(s, ctx, force, replay, env);
        PreparedReady(s, ctx, key, gate);
        if HandsOver(ctx, force, replay) {
          var sent := MarkedSent(r, ctx);
          HandedOverKeeps(s, sent);
          RanHandsOver(s, ctx, force, replay, env);
          RanAgrees(HandedOver(s, sent), FallbackContext(ctx), false, false, env);
          HandOverAgrees(s, HandedOver(s, sent), res, key);
        } else {
          OwnRunOutcome(s, ctx, force, replay, env);
        }
      }
    }
  }

  lemma OwnRunOutcome(s: State, ctx: Context, force: bool, replay: bool, env: Env)
    requires Valid(s) && ctx.plan.caseId.Some?
    requires !AlreadyDone(s, MakeKey(ctx.plan.caseId.value, ctx.plan), replay)
    requires !HandsOver(ctx, force, replay)
    ensures QueueOutcome(s, Ran(s, ctx, force, replay, env))
  {
    RanKeeps(s, ctx, force, replay, env);
    OwnRunAgrees(s, ctx, force, replay, env);
    OwnKeyAgrees(s, Ran(s, ctx, force, replay, env), MakeKey(ctx.plan.caseId.value, ctx.plan));
  }

  lemma OwnRunAgrees(s: State, ctx: Context, force: bool, replay: bool, env: Env)
    requires Valid(s) && ctx.plan.caseId.Some?
    requires !AlreadyDone(s, MakeKey(ctx.plan.caseId.value, ctx.plan), replay)
    requires !HandsOver(ctx, force, replay)
    ensures var res := Ran(s, ctx, force, replay, env);
            && OwnOutcome(s, res, MakeKey(ctx.plan.caseId.value, ctx.plan))
            && (Broke(res) ==> IsOutbound(ctx.plan.strategy))
  {
    var key := MakeKey(ctx.plan.caseId.value, ctx.plan);
    var gate := EvaluateGates(ctx.plan, ctx.policy, ctx.asOf, force);
    PreparedReady(s, ctx, key, gate);
    if Permitted(ctx, force, replay) {
      DispatchedAgrees(s, Prepared(s, ctx, key, gate), ctx, replay, env);
    }
  }

  lemma RanDueAgrees(s: State, record: Record, ctx: Context, env: Env)
    requires Valid(s) && Snapshot(s, record)
    ensures var res := RanDue(s, record, ctx, env);
            QueueOutcome(s, res)
  {
    if WindowReached(record, ctx) {
      var s1 := WaitClosed(s, record, ctx);
      WaitClosedKeeps(s, record, ctx);
      if DueFallback(record, ctx) {
        RanAgrees(s1, FallbackContext(ctx), false, false, env);
        HandOverAgrees(s, s1, RanDue(s, record, ctx, env), record.id);
      } else {
        OtherKeys(s, s1, record.id);
      }
    } else {
      RanAgrees(s, ctx, false, true, env);
    }
  }

  lemma {:induction false} WebhookAgrees(s: State, caseId: CaseId, event: ProviderEvent, asOf: Time, replay: bool)
    requires Valid(s)
    ensures var s' := WebhookApplied(s, caseId, event, asOf, replay);
            var history := NewestFirst(s.actions, s.inserted, caseId);
            if replay || history == [] then forall k: Key :: Stranded(s', k) <==> Stranded(s, k)
            else
              && (forall k: Key :: k != history[0].id ==> (Stranded(s', k) <==> Stranded(s, k)))
              && (Stranded(s', history[0].id) <==> !IsCapture(event) && LiveJob(s, history[0].id))
  {
    var history := NewestFirst(s.actions, s.inserted, caseId);
    var s' := WebhookApplied(s, caseId, event, asOf, replay);
    if !replay && history != [] {
      NotedAgrees(s, caseId, event, asOf);
      WebhookKeeps(s, caseId, event, asOf, replay);
      OtherKeys(s, s', history[0].id);
    }
  }

  lemma NotedAgrees(s: State, caseId: CaseId, event: ProviderEvent, asOf: Time)
    requires Valid(s) && NewestFirst(s.actions, s.inserted, caseId) != []
    ensures var k := NewestFirst(s.actions, s.inserted, caseId)[0].id;
            Stranded(WebhookApplied(s, caseId, event, asOf, false), k) <==> !IsCapture(event) && LiveJob(s, k)
  {
    NewestOfCase(s, caseId);
    assert KeyOk(s, NewestFirst(s.actions, s.inserted, caseId)[0].id);
  }

  /** The key of the request a step makes, if it makes one, and whether it breaks off there. */
  function StepRequest(s: State, step: Step): Option<Key> {
    match step
    case RunStep(ctx, force, env) => RequestKey(s, ctx, force, false)
    case ReplayStep(id, ctx, env) => if id in s.actions then RequestKey(s, ctx, false, true) else None
    case DueStep(record, ctx, env) => DueRequestKey(s, record, ctx)
    case _ => None
  }

  predicate StepBreaks(step: Step) {
    (step.RunStep? || step.ReplayStep? || step.DueStep?) && Breaks(step.env)
  }

  /** The steps that strand a job, told before they are taken: a webhook other than a capture
      on a row whose job is live, and a request that breaks off under a key whose job is. */
  ghost predicate Strands(s: State, step: Step) {
    if step.WebhookStep? then
      var history := NewestFirst(s.actions, s.inserted, step.caseId);
      !step.replay && !IsCapture(step.event) && history != [] && LiveJob(s, history[0].id)
    else
      StepBreaks(step) && StepRequest(s, step).Some? && LiveJob(s, StepRequest(s, step).value)
  }

  /** From a run's queue outcome and its request, the jobs it strands. */
  lemma StrandsExactly(s: State, res: StepResult, key: Option<Key>, env: Env)
    requires NoneStranded(s)
    requires QueueOutcome(s, res) && AsksFor(s, res, key, env)
    ensures NoneStranded(res.state) <==> !(Breaks(env) && key.Some? && LiveJob(s, key.value))
  {
    if Breaks(env) && key.Some? && LiveJob(s, key.value) {
      assert Stranded(res.state, LastKey(res.state));
    }
  }

  /** From a state in agreement, a step leads to a state in agreement exactly when it does
      not strand a job. */
  lemma AgreementExactly(s: State, step: Step)
    requires Valid(s) && Enabled(s, step) && Agreement(s)
    ensures Agreement(Apply(s, step)) <==> !Strands(s, step)
  {
    var s' := Apply(s, step);
    StepKeeps(s, step);
    AgreementIsNoStrandedJob(s);
    AgreementIsNoStrandedJob(s');
    match step {
      case RunStep(ctx, force, env) =>
        RunStrandsExactly(s, ctx, force, false, env);
      case ReplayStep(id, ctx, env) =>
        if id in s.actions {
          RunStrandsExactly(s, ctx, false, true, env);
        } else {
          assert s' == s;
        }
      case DueStep(record, ctx, env) =>
        RanDueAgrees(s, record, ctx, env);
        DueRequestTold(s, record, ctx, env);
        StrandsExactly(s, RanDue(s, record, ctx, env), DueRequestKey(s, record, ctx), env);
      case WebhookStep(caseId, event, asOf, replay) => WebhookAgrees(s, caseId, event, asOf, replay);
      case ClaimStep(asOf) =>
        forall k: Key ensures Stranded(s', k) <==> Stranded(s, k) {}
      case ReleaseStep(id) =>
        forall k: Key ensures Stranded(s', k) <==> Stranded(s, k) {}
    }
  }

  lemma RunStrandsExactly(s: State, ctx: Context, force: bool, replay: bool, env: Env)
    requires Valid(s) && NoneStranded(s)
    ensures var key := RequestKey(s, ctx, force, replay);
            NoneStranded(Ran(s, ctx, force, replay, env).state) <==>
            !(Breaks(env) && key.Some? && LiveJob(s, key.value))
  {
    RanAgrees(s, ctx, force, replay, env);
    RequestTold(s, ctx, force, replay, env);
    StrandsExactly(s, Ran(s, ctx, force, replay, env), RequestKey(s, ctx, force, replay), env);
  }

  lemma {:induction false} AgreementOverRuns(s: State, steps: seq<Step>)
    requires Valid(s) && Agreement(s) && Legal(s, steps)
    requires forall i :: 0 <= i < |steps| ==> !Strands(Execute(s, steps[..i]), steps[i])
    ensures Agreement(Execute(s, steps))
  {
    if steps != [] {
      var n := |steps| - 1;
      forall i | 0 <= i < n ensures !Strands(Execute(s, steps[..n][..i]), steps[..n][i]) {
        assert steps[..n][..i] == steps[..i];
      }
      AgreementOverRuns(s, steps[..n]);
      RunKeeps(s, steps[..n]);
      AgreementExactly(Execute(s, steps[..n]), steps[n]);
    }
  }
}
