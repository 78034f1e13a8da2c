/** How executions come to rest, and two ways in which they do not. */
module Settlement {
  import opened Wrappers
  import opened Domain
  import opened Mapping
  import opened Gates
  import opened Sandbox
  import opened Scheduler
  import opened Steps
  import opened Invariants
  import opened StepInvariants
  import opened Accounting
  import opened Outcomes
  import opened Runs
  import opened QueueAgreement

  // A retried execution settles

  /** The scheduler works on the row of `k`, and the fresh plan still has that key. */
  ghost predicate DueOn(s: State, step: Step, k: Key) {
    && step.DueStep?
    && Snapshot(s, step.record)
    && step.record.id == k
    && step.ctx.plan.caseId == Some(k.caseId)
    && MakeKey(k.caseId, step.ctx.plan) == k
  }

  /** The ways an ending leaves its row: at rest, or waiting after one more failure. */
  ghost predicate RestsOrRetries(s: State, r: Record) {
    && r.id in s.actions
    && (IsWaiting(DisplayOf(s.actions[r.id])) ==>
          DisplayOf(s.actions[r.id]).Retrying? && s.actions[r.id].retryNumber == r.retryNumber + 1)
  }

  lemma BackedOffRests(s: State, r: Record, ctx: Context, offset: int)
    ensures RestsOrRetries(BackedOff(s, r, ctx, offset).state, r)
  {
    if NextBackoff(r.retryNumber, offset).None? {
      assert DeadLettered(s, Bumped(r), ctx).state.actions[r.id].meta.deadLettered;
    } else {
      var s' := Rescheduled(s, Bumped(r), ctx, ctx.asOf + NextBackoff(r.retryNumber, offset).value).state;
      assert s'.actions[r.id].meta.display == Some(Retrying);
    }
  }

  lemma FinalizedRests(s: State, r: Record, ctx: Context, display: Display, event: AuditEvent)
    requires !IsWaiting(display) && !r.meta.deadLettered && !r.meta.expired
    ensures RestsOrRetries(Finalized(s, r, ctx, display, event).state, r)
  {
  }

  lemma AnsweredRests(s: State, sent: Record, ctx: Context, env: Env)
    requires sent.id in s.actions && s.actions[sent.id] == sent && DisplayOf(sent) == Sent
    requires env.reply.Accepted? ==> TokenFor(sent.id) in s.server.cache
    ensures RestsOrRetries(Answered(s, sent, ctx, sent.id, env).state, sent)
  {
    match env.reply {
      case TransientError => BackedOffRests(s, sent, ctx, env.offset);
      case PermanentError =>
        FinalizedRests(s, Rejected(sent), ctx, Failed, ActionExecuted);
      case UnexpectedError =>
      case Accepted =>
        if !env.delivery.DeliveryRaises? {
          var linked := WithResource(sent, s.server.cache[TokenFor(sent.id)]);
          var notified := linked.(meta := linked.meta.(delivery := Some(DeliveryStatusOf(env.delivery))));
          BackedOffRests(s, notified, ctx, env.offset);
          FinalizedRests(s, notified.(response := Some(OkCode)), ctx, Success, ActionExecuted);
        }
    }
  }

  lemma DispatchedRests(s: State, r: Record, ctx: Context, env: Env)
    requires !IsWait(ctx.plan.strategy) && !r.meta.deadLettered && !r.meta.expired
    ensures RestsOrRetries(Dispatched(s, r, ctx, r.id, true, env).state, r)
  {
    var sent := MarkedSent(r, ctx);
    var s1 := Saved(s, sent);
    if IsOutbound(ctx.plan.strategy) {
      OutboundAccounts(s, sent, ctx, r.id, true, env);
      AnsweredRests(Requested(s1, ctx, r.id, true, env), sent, ctx, env);
    } else if ctx.plan.strategy.StopRecovery? {
      FinalizedRests(s1, sent, ctx, Cancelled, ActionSkipped);
    } else {
      FinalizedRests(s1, sent, ctx, Success, ActionExecuted);
    }
  }

  lemma RanRests(s: State, ctx: Context, env: Env, k: Key)
    requires Valid(s) && !IsWait(k.strategy) && Waiting(s, k)
    requires ctx.plan.caseId == Some(k.caseId) && MakeKey(k.caseId, ctx.plan) == k
    ensures RestsOrRetries(Ran(s, ctx, false, true, env).state, s.actions[k])
  {
    var gate := EvaluateGates(ctx.plan, ctx.policy, ctx.asOf, false);
    var r := Prepared(s, ctx, k, gate);
    PreparedReady(s, ctx, k, gate);
    if gate.block {
      FinalizedRests(s, r, ctx, Cancelled, ActionSkipped);
    } else {
      DispatchedRests(s, r, ctx, env);
    }
  }

  /** A due dispatch of a plan that is no wait either brings its row to rest or counts one
      more failure within the cap. */
  lemma DueDispatch(s: State, step: Step, k: Key)
    requires Valid(s) && DueOn(s, step, k) && !IsWait(k.strategy) && Waiting(s, k)
    ensures var s' := Apply(s, step);
            && k in s'.actions
            && (Waiting(s', k) ==>
                  && s'.actions[k].retryNumber == s.actions[k].retryNumber + 1
                  && s'.actions[k].retryNumber <= MAX_RETRY_ATTEMPTS)
  {
    assert KeyOk(s, k);
    assert Apply(s, step) == Ran(s, step.ctx, false, true, step.env).state;
    RanRests(s, step.ctx, step.env, k);
    RanKeeps(s, step.ctx, false, true, step.env);
    assert KeyOk(Apply(s, step), k);
  }

  lemma {:induction false} FailuresGrow(calls: seq<Call>, later: seq<Call>, k: Key)
    requires calls <= later
    ensures Failures(calls, k) <= Failures(later, k)
  {
    if calls == later {
    } else {
      FailuresGrow(calls, later[..|later| - 1], k);
    }
  }

  /** How many due dispatches of `k` a run holds, among whatever else it does. */
  ghost function Dispatches(s: State, steps: seq<Step>, k: Key): nat {
    if steps == [] then 0
    else
      var n := |steps| - 1;
      Dispatches(s, steps[..n], k) + if DueOn(Execute(s, steps[..n]), steps[n], k) then 1 else 0
  }

  /** The i-th step of the run is a due dispatch of `k` that begins and ends with `k` waiting. */
  ghost predicate UnsettledAt(s: State, steps: seq<Step>, k: Key, i: int)
    requires 0 <= i < |steps|
  {
    && DueOn(Execute(s, steps[..i]), steps[i], k)
    && Waiting(Execute(s, steps[..i]), k)
    && Waiting(Execute(s, steps[..i + 1]), k)
  }

  /** How many due dispatches of a run leave `k` waiting that was waiting. */
  ghost function Unsettled(s: State, steps: seq<Step>, k: Key): nat {
    if steps == [] then 0
    else
      var n := |steps| - 1;
      Unsettled(s, steps[..n], k) + if UnsettledAt(s, steps, k, n) then 1 else 0
  }

  /** Over any legal run, with claims, webhooks and other rows' turns in between, every due
      dispatch that leaves the row waiting uses up one of the retries left to its key. */
  lemma {:induction false} UnsettledCounted(s: State, steps: seq<Step>, k: Key)
    requires Valid(s) && Legal(s, steps) && !IsWait(k.strategy)
    ensures Unsettled(s, steps, k) <= AtMostCap(Failures(Execute(s, steps).calls, k)) - AtMostCap(Failures(s.calls, k))
  {
    if steps != [] {
      var n := |steps| - 1;
      var before := Execute(s, steps[..n]);
      UnsettledCounted(s, steps[..n], k);
      RunKeeps(s, steps[..n]);
      StepKeeps(before, steps[n]);
      StepExtends(before, steps[n]);
      FailuresGrow(before.calls, Execute(s, steps).calls, k);
      assert steps[..n + 1] == steps;
      if UnsettledAt(s, steps, k, n) {
        DueDispatch(before, steps[n], k);
        assert KeyOk(before, k) && KeyOk(Execute(s, steps), k);
      }
    }
  }

  lemma {:induction false} AllUnsettled(s: State, steps: seq<Step>, k: Key)
    requires forall i :: 0 <= i < |steps| && DueOn(Execute(s, steps[..i]), steps[i], k) ==> UnsettledAt(s, steps, k, i)
    ensures Unsettled(s, steps, k) == Dispatches(s, steps, k)
  {
    if steps != [] {
      var n := |steps| - 1;
      forall i | 0 <= i < n && DueOn(Execute(s, steps[..n][..i]), steps[..n][i], k)
        ensures UnsettledAt(s, steps[..n], k, i)
      {
        assert steps[..n][..i] == steps[..i] && steps[..n][..i + 1] == steps[..i + 1];
        assert UnsettledAt(s, steps, k, i);
      }
      AllUnsettled(s, steps[..n], k);
    }
  }

  /** Some due dispatch of the run finds `k` at rest, or leaves it so. */
  ghost predicate Settled(s: State, steps: seq<Step>, k: Key) {
    exists i :: 0 <= i < |steps| && DueOn(Execute(s, steps[..i]), steps[i], k) && !UnsettledAt(s, steps, k, i)
  }

  /** While its fresh plan keeps its key, an execution that is no wait leaves Scheduled and
      Retrying within one due dispatch more than its key has retries left, whatever the
      sandbox and the messages do and whatever happens between the dispatches. */
  lemma Settles(s: State, steps: seq<Step>, k: Key)
    requires Valid(s) && Legal(s, steps) && !IsWait(k.strategy)
    requires Dispatches(s, steps, k) + AtMostCap(Failures(s.calls, k)) > MAX_RETRY_ATTEMPTS
    ensures Settled(s, steps, k)
  {
    if !Settled(s, steps, k) {
      AllUnsettled(s, steps, k);
      UnsettledCounted(s, steps, k);
      assert false;
    }
  }

  /** A worker that acts on a due row ignores deferrals: whether it gets to the sandbox does
      not depend on the cooldown, only on the blocking decisions. */
  lemma DueRunIgnoresCooldown(s: State, step: Step, k: Key)
    requires Valid(s) && DueOn(s, step, k) && !IsWait(k.strategy) && Waiting(s, k)
    ensures |Apply(s, step).calls| == |s.calls| + 1 <==>
            IsOutbound(k.strategy) && !Blocks(step.ctx.plan, step.ctx.policy)
  {
    assert Apply(s, step) == Ran(s, step.ctx, false, true, step.env).state;
    RequestsExactlyWhen(s, step.ctx, false, true, step.env);
    GateCharacterisation(step.ctx.plan, step.ctx.policy, step.ctx.asOf, false);
  }

  // A job stranded on a terminal row stays for good

  ghost predicate TerminalAt(s: State, k: Key) {
    k in s.actions && IsTerminal(DisplayOf(s.actions[k]))
  }

  /** No run touches a row at rest, as its own or as a fallback. */
  lemma TerminalUntouched(s: State, ctx: Context, force: bool, replay: bool, env: Env, k: Key)
    requires Valid(s) && TerminalAt(s, k)
    ensures Untouched(s, Ran(s, ctx, force, replay, env).state, k)
    decreases if IsWait(ctx.plan.strategy) then 1 else 0
  {
    RanKeeps(s, ctx, force, replay, env);
    if k in RunKeys(ctx, force, replay) {
      var key := MakeKey(ctx.plan.caseId.value, ctx.plan);
      if k != key && !AlreadyDone(s, key, replay) {
        var r := Prepared(s, ctx, key, EvaluateGates(ctx.plan, ctx.policy, ctx.asOf, force));
        var sent := MarkedSent(r, ctx);
        PreparedReady(s, ctx, key, EvaluateGates(ctx.plan, ctx.policy, ctx.asOf, force));
        RanHandsOver(s, ctx, force, replay, env);
        HandedOverKeeps(s, sent);
        assert Untouched(s, HandedOver(s, sent), k);
        TerminalUntouched(HandedOver(s, sent), FallbackContext(ctx), false, false, env, k);
      }
    }
  }

  /** The step runs or replays the plan of `k`. */
  predicate AsksAgain(step: Step, k: Key) {
    && (step.RunStep? || step.ReplayStep?)
    && step.ctx.plan.caseId == Some(k.caseId)
    && MakeKey(k.caseId, step.ctx.plan) == k
  }

  /** Any number of runs and replays of a finished execution, forced or not, under any policy
      and at any time, leaves rows, queue, audit trail, sandbox and requests as they were. */
  lemma {:induction false} FinishedIsFinal(s: State, steps: seq<Step>, k: Key)
    requires TerminalAt(s, k) && forall i :: 0 <= i < |steps| ==> AsksAgain(steps[i], k)
    ensures Execute(s, steps) == s
  {
    if steps != [] {
      var n := |steps| - 1;
      FinishedIsFinal(s, steps[..n], k);
      var step := steps[n];
      assert AsksAgain(step, k);
      TerminalIsFinal(s, step.ctx, if step.RunStep? then step.force else false, step.ReplayStep?, step.env);
    }
  }

  /** The due path closes a wait with no look at what its row shows by then. */
  predicate Overwrites(record: Record, ctx: Context, k: Key) {
    record.id == k && WindowReached(record, ctx)
  }

  /** A due row leaves a row at rest alone unless it is that row, a wait whose time has come;
      then it is stored as done over whatever it showed, and its job is closed. */
  lemma DueOverwritesExactly(s: State, record: Record, ctx: Context, env: Env, k: Key)
    requires Valid(s) && Snapshot(s, record) && TerminalAt(s, k)
    ensures var s' := RanDue(s, record, ctx, env).state;
            && TerminalAt(s', k)
            && (Overwrites(record, ctx, k) ==> s'.actions[k] == WaitOver(record, ctx) && !LiveJob(s', k))
            && (Untouched(s, s', k) <==>
                  || !Overwrites(record, ctx, k)
                  || (s.actions[k] == WaitOver(record, ctx) && (k in s.jobs ==> s.jobs[k].status.Finished?)))
            && (DisplayOf(s'.actions[k]) != DisplayOf(s.actions[k]) <==>
                  Overwrites(record, ctx, k) && !DisplayOf(s.actions[k]).Success?)
  {
    if WindowReached(record, ctx) {
      var s1 := WaitClosed(s, record, ctx);
      WaitClosedKeeps(s, record, ctx);
      assert record.id != k ==> Untouched(s, s1, k);
      if DueFallback(record, ctx) {
        TerminalUntouched(s1, FallbackContext(ctx), false, false, env, k);
      }
    } else {
      TerminalUntouched(s, ctx, false, true, env, k);
    }
  }

  /** Only a wait can be overwritten. */
  lemma OverwrittenIsWait(s: State, record: Record, ctx: Context, k: Key)
    requires Snapshot(s, record) && Overwrites(record, ctx, k)
    ensures IsWait(k.strategy)
  {
  }

  /** The steps that could still reach a row at rest: its case's webhooks, the release of its
      job by a worker that failed, and the due path of a wait. */
  predicate Reaches(step: Step, k: Key) {
    match step
    case WebhookStep(caseId, event, asOf, replay) => caseId == k.caseId && !replay
    case ReleaseStep(id) => id == k
    case DueStep(record, ctx, env) => Overwrites(record, ctx, k)
    case _ => false
  }

  /** Neither a run, a replay, another due row nor a foreign webhook moves a row at rest or its
      job; a claim can only mark the job running. */
  lemma QuietStep(s: State, step: Step, k: Key)
    requires Valid(s) && Enabled(s, step) && TerminalAt(s, k) && LiveJob(s, k)
    requires !Reaches(step, k)
    ensures var s' := Apply(s, step);
            && TerminalAt(s', k) && LiveJob(s', k)
            && (s.jobs[k].status.Running? ==> s'.jobs[k].status.Running?)
  {
    match step {
      case RunStep(ctx, force, env) => TerminalUntouched(s, ctx, force, false, env, k);
      case ReplayStep(id, ctx, env) => if id in s.actions { TerminalUntouched(s, ctx, false, true, env, k); }
      case DueStep(record, ctx, env) => DueOverwritesExactly(s, record, ctx, env, k);
      case WebhookStep(caseId, event, asOf, replay) => QuietWebhook(s, caseId, event, asOf, replay, k);
      case _ =>
    }
  }

  /** What ends the claim on a row at rest: a release, a capture on the case's newest row, or
      the due path of a wait. */
  ghost predicate EndsClaim(s: State, step: Step, k: Key) {
    match step
    case WebhookStep(caseId, event, asOf, replay) =>
      var history := NewestFirst(s.actions, s.inserted, caseId);
      !replay && IsCapture(event) && history != [] && history[0].id == k
    case ReleaseStep(id) => id == k
    case DueStep(record, ctx, env) => Overwrites(record, ctx, k)
    case _ => false
  }

  /** Step by step, the claimed job of a row at rest stays claimed exactly if none of those
      happens. */
  lemma StrandedExactly(s: State, step: Step, k: Key)
    requires Valid(s) && Enabled(s, step) && TerminalAt(s, k) && k in s.jobs && s.jobs[k].status.Running?
    ensures var s' := Apply(s, step);
            k in s'.jobs && s'.jobs[k].status.Running? <==> !EndsClaim(s, step, k)
  {
    match step {
      case RunStep(ctx, force, env) => QuietStep(s, step, k);
      case ReplayStep(id, ctx, env) => QuietStep(s, step, k);
      case DueStep(record, ctx, env) => DueOverwritesExactly(s, record, ctx, env, k);
      case WebhookStep(caseId, event, asOf, replay) =>
        var history := NewestFirst(s.actions, s.inserted, caseId);
        WebhookKeeps(s, caseId, event, asOf, replay);
        if replay || history == [] || history[0].id != k {
          assert Untouched(s, Apply(s, step), k);
        }
      case _ =>
    }
  }

  lemma QuietWebhook(s: State, caseId: CaseId, event: ProviderEvent, asOf: Time, replay: bool, k: Key)
    requires Valid(s) && k in s.actions && (caseId != k.caseId || replay)
    ensures Untouched(s, WebhookApplied(s, caseId, event, asOf, replay), k)
  {
    assert KeyOk(s, k);
    WebhookKeeps(s, caseId, event, asOf, replay);
    NewestOfCase(s, caseId);
  }

  /** Once a worker has claimed the job of a row at rest (a stop webhook leaves one behind),
      nothing completes it but the steps above: for an execution that is no wait it counts
      as running for good, unless a webhook of its case or a failing worker intervenes. */
  lemma {:induction false} StrandedForGood(s: State, steps: seq<Step>, k: Key)
    requires Valid(s) && Legal(s, steps)
    requires TerminalAt(s, k) && k in s.jobs && s.jobs[k].status.Running?
    requires forall i :: 0 <= i < |steps| ==> !Reaches(steps[i], k)
    ensures var s' := Execute(s, steps);
            TerminalAt(s', k) && k in s'.jobs && s'.jobs[k].status.Running?
  {
    if steps != [] {
      var n := |steps| - 1;
      forall i | 0 <= i < n ensures !Reaches(steps[..n][i], k) {
        assert steps[..n][i] == steps[i];
      }
      StrandedForGood(s, steps[..n], k);
      RunKeeps(s, steps[..n]);
      QuietStep(Execute(s, steps[..n]), steps[n], k);
    }
  }

  /** A cancellation webhook on a waiting row, and the next claim at its time, lead there. */
  lemma StopWebhookStrands(s: State, caseId: CaseId, event: ProviderEvent, asOf: Time, clock: Time)
    requires Valid(s) && IsStop(event) && NewestFirst(s.actions, s.inserted, caseId) != []
    requires var k := NewestFirst(s.actions, s.inserted, caseId)[0].id;
             Waiting(s, k) && k in s.jobs && s.jobs[k].runAt <= clock
    ensures var k := NewestFirst(s.actions, s.inserted, caseId)[0].id;
            var s' := AfterClaim(WebhookApplied(s, caseId, event, asOf, false), clock);
            TerminalAt(s', k) && k in s'.jobs && s'.jobs[k].status.Running?
  {
    NewestOfCase(s, caseId);
    assert KeyOk(s, NewestFirst(s.actions, s.inserted, caseId)[0].id);
    WebhookShownExactly(s, caseId, event, asOf);
  }

  /** A wait stopped that way does not stay stopped: the due path finds it through its job,
      stores it as done, closes the job and sends its fallback to the sandbox. */
  lemma StoppedWaitAsksAgain(s: State, caseId: CaseId, event: ProviderEvent, asOf: Time, clock: Time, ctx: Context,
                             env: Env)
    requires Valid(s) && IsStop(event) && NewestFirst(s.actions, s.inserted, caseId) != []
    requires var k := NewestFirst(s.actions, s.inserted, caseId)[0].id;
             Waiting(s, k) && IsWait(k.strategy) && k in s.jobs && s.jobs[k].runAt <= clock <= ctx.asOf
    requires ctx.plan.caseId.Some? && IsOutbound(ctx.plan.fallback) && LetsCall(ctx.policy, ctx.asOf)
    requires !Stands(s, Key(ctx.plan.caseId.value, ctx.plan.fallback, ctx.asOf), false)
    ensures var k := NewestFirst(s.actions, s.inserted, caseId)[0].id;
            var stopped := AfterClaim(WebhookApplied(s, caseId, event, asOf, false), clock);
            && k in stopped.actions && DisplayOf(stopped.actions[k]) == Cancelled
            && Snapshot(stopped, stopped.actions[k])
            && var s' := RanDue(stopped, stopped.actions[k], ctx, env).state;
            && |s'.calls| == |stopped.calls| + 1
            && k in s'.actions && DisplayOf(s'.actions[k]) == Success && !LiveJob(s', k)
  {
    var k := NewestFirst(s.actions, s.inserted, caseId)[0].id;
    var stopped := AfterClaim(WebhookApplied(s, caseId, event, asOf, false), clock);
    StoppedWaitIsDue(s, caseId, event, asOf, clock, ctx);
    OtherRowKept(s, caseId, event, asOf, Key(ctx.plan.caseId.value, ctx.plan.fallback, ctx.asOf));
    DueWaitAsksAgain(stopped, k, ctx, env);
  }

  lemma DueWaitAsksAgain(s: State, k: Key, ctx: Context, env: Env)
    requires Valid(s) && TerminalAt(s, k) && Snapshot(s, s.actions[k]) && Overwrites(s.actions[k], ctx, k)
    requires ctx.plan.caseId.Some? && IsOutbound(ctx.plan.fallback) && LetsCall(ctx.policy, ctx.asOf)
    requires !Stands(s, Key(ctx.plan.caseId.value, ctx.plan.fallback, ctx.asOf), false)
    ensures var s' := RanDue(s, s.actions[k], ctx, env).state;
            && |s'.calls| == |s.calls| + 1
            && k in s'.actions && DisplayOf(s'.actions[k]) == Success && !LiveJob(s', k)
  {
    DueRequestsExactlyWhen(s, s.actions[k], ctx, env);
    DueOverwritesExactly(s, s.actions[k], ctx, env, k);
  }

  lemma OtherRowKept(s: State, caseId: CaseId, event: ProviderEvent, asOf: Time, key: Key)
    requires Valid(s) && NewestFirst(s.actions, s.inserted, caseId) != []
    requires key != NewestFirst(s.actions, s.inserted, caseId)[0].id
    ensures Stands(WebhookApplied(s, caseId, event, asOf, false), key, false) <==> Stands(s, key, false)
  {
    WebhookKeeps(s, caseId, event, asOf, false);
    assert Untouched(s, WebhookApplied(s, caseId, event, asOf, false), key);
  }

  /** After the stop webhook: the row is cancelled, and keeps its time, its job and the rest. */
  lemma StoppedKeepsTime(s: State, caseId: CaseId, event: ProviderEvent, asOf: Time)
    requires Valid(s) && IsStop(event) && NewestFirst(s.actions, s.inserted, caseId) != []
    requires Waiting(s, NewestFirst(s.actions, s.inserted, caseId)[0].id)
    ensures var k := NewestFirst(s.actions, s.inserted, caseId)[0].id;
            var stopped := WebhookApplied(s, caseId, event, asOf, false);
            && Valid(stopped) && TerminalAt(stopped, k) && DisplayOf(stopped.actions[k]) == Cancelled
            && stopped.actions[k].scheduledTime == s.actions[k].scheduledTime && stopped.jobs == s.jobs
  {
    WebhookShownExactly(s, caseId, event, asOf);
    NewestOfCase(s, caseId);
    WebhookKeeps(s, caseId, event, asOf, false);
    assert KeyOk(s, NewestFirst(s.actions, s.inserted, caseId)[0].id);
  }

  lemma StoppedWaitIsDue(s: State, caseId: CaseId, event: ProviderEvent, asOf: Time, clock: Time, ctx: Context)
    requires Valid(s) && IsStop(event) && NewestFirst(s.actions, s.inserted, caseId) != []
    requires var k := NewestFirst(s.actions, s.inserted, caseId)[0].id;
             Waiting(s, k) && IsWait(k.strategy) && k in s.jobs && s.jobs[k].runAt <= clock <= ctx.asOf
    ensures var k := NewestFirst(s.actions, s.inserted, caseId)[0].id;
            var stopped := AfterClaim(WebhookApplied(s, caseId, event, asOf, false), clock);
            && Valid(stopped)
            && TerminalAt(stopped, k) && DisplayOf(stopped.actions[k]) == Cancelled
            && Snapshot(stopped, stopped.actions[k]) && Overwrites(stopped.actions[k], ctx, k)
  {
    var k := NewestFirst(s.actions, s.inserted, caseId)[0].id;
    var webhooked := WebhookApplied(s, caseId, event, asOf, false);
    StoppedKeepsTime(s, caseId, event, asOf);
    ClaimKeeps(webhooked, clock);
    assert KeyOk(s, k) && KeyOk(AfterClaim(webhooked, clock), k);
  }

  // Such a run from the empty store: planned for 10, cancelled at 1, claimed and worked on at 10

  const WAIT_PLAN := Plan(Some(0), WaitForPayday, SendPaymentLink, 10)

  const SMOOTH := Env(Accepted, true, Sends(Delivered), 0)

  function AtTime(t: Time): Context {
    Context(t, WAIT_PLAN, Policy(Allow, None), 100)
  }

  lemma ExampleDefers()
    ensures var k := MakeKey(0, WAIT_PLAN);
            var waiting := Ran(INITIAL, AtTime(0), false, false, SMOOTH).state;
            && waiting.actions.Keys == {k} && waiting.inserted == [k] && waiting.calls == []
            && waiting.actions[k].id == k && waiting.actions[k].caseId == 0
            && DisplayOf(waiting.actions[k]) == Scheduled
            && k in waiting.jobs && waiting.jobs[k].runAt == 10
  {
    var k := MakeKey(0, WAIT_PLAN);
    var gate := EvaluateGates(WAIT_PLAN, AtTime(0).policy, 0, false);
    assert gate == Gate(false, true, false, PlanSchedule, Some(10));
    assert !AlreadyDone(INITIAL, k, false);
    var r := Prepared(INITIAL, AtTime(0), k, gate);
    assert Ran(INITIAL, AtTime(0), false, false, SMOOTH) == Deferred(INITIAL, r, AtTime(0), gate);
  }

  lemma ExampleWaits()
    ensures var k := MakeKey(0, WAIT_PLAN);
            var waiting := Ran(INITIAL, AtTime(0), false, false, SMOOTH).state;
            && Valid(waiting) && k in waiting.actions
            && NewestFirst(waiting.actions, waiting.inserted, 0) == [waiting.actions[k]]
  {
    var waiting := Ran(INITIAL, AtTime(0), false, false, SMOOTH).state;
    ExampleDefers();
    InitialValid();
    RanKeeps(INITIAL, AtTime(0), false, false, SMOOTH);
    assert waiting.inserted[..0] == [];
  }

  lemma StoppedWaitExample()
    ensures var k := MakeKey(0, WAIT_PLAN);
            var waiting := Ran(INITIAL, AtTime(0), false, false, SMOOTH).state;
            var stopped := AfterClaim(WebhookApplied(waiting, 0, SubscriptionCancelled, 1, false), 10);
            && k in stopped.actions && DisplayOf(stopped.actions[k]) == Cancelled && stopped.calls == []
            && var s' := RanDue(stopped, stopped.actions[k], AtTime(10), SMOOTH).state;
            |s'.calls| == 1 && k in s'.actions && DisplayOf(s'.actions[k]) == Success
  {
    var waiting := Ran(INITIAL, AtTime(0), false, false, SMOOTH).state;
    ExampleDefers();
    ExampleWaits();
    StoppedWaitAsksAgain(waiting, 0, SubscriptionCancelled, 1, 10, AtTime(10), SMOOTH);
  }

  // A fresh plan under another key

  /** A due row that is no wait, worked on under a plan with another key, is left as it is:
      still waiting, still due. Only the rows of that plan move. */
  lemma OtherPlanLeaves(s: State, record: Record, ctx: Context, env: Env, k: Key)
    requires Valid(s) && Snapshot(s, record) && record.id == k && !IsWait(k.strategy)
    requires k !in RunKeys(ctx, false, true)
    ensures var s' := RanDue(s, record, ctx, env).state;
            && Untouched(s, s', k)
            && (Waiting(s, k) ==> Waiting(s', k) && s'.actions[k].scheduledTime == s.actions[k].scheduledTime)
  {
    RanDueKeeps(s, record, ctx, env);
  }

  // A dead letter hides what webhooks report

  /** After a first delivery the row shows what the provider reported, except that a
      dead-lettered row shows Failed whatever was reported. */
  lemma WebhookShownExactly(s: State, caseId: CaseId, event: ProviderEvent, asOf: Time)
    requires Valid(s) && NewestFirst(s.actions, s.inserted, caseId) != []
    ensures var r := NewestFirst(s.actions, s.inserted, caseId)[0];
            var s' := WebhookApplied(s, caseId, event, asOf, false);
            && r.id in s'.actions
            && (DisplayOf(s'.actions[r.id]) == EventDisplay(event) <==> !r.meta.deadLettered || event.PaymentFailed?)
            && (r.meta.deadLettered ==> DisplayOf(s'.actions[r.id]) == Failed)
  {
    NewestOfCase(s, caseId);
    assert KeyOk(s, NewestFirst(s.actions, s.inserted, caseId)[0].id);
  }

  /** So a captured payment does not stop a dead-lettered execution: the next permitted run
      of its plan goes back to the sandbox, where a live row would have been at rest. */
  lemma CaptureStopsExactly(s: State, caseId: CaseId, event: ProviderEvent, ctx: Context, env: Env)
    requires Valid(s) && NewestFirst(s.actions, s.inserted, caseId) != [] && IsCapture(event)
    requires var k := NewestFirst(s.actions, s.inserted, caseId)[0].id;
             ctx.plan.caseId == Some(k.caseId) && MakeKey(k.caseId, ctx.plan) == k
             && IsOutbound(k.strategy) && GoesAhead(ctx.plan, ctx.policy, ctx.asOf, false, false)
    ensures var r := NewestFirst(s.actions, s.inserted, caseId)[0];
            var captured := WebhookApplied(s, caseId, event, ctx.asOf, false);
            |Ran(captured, ctx, false, false, env).state.calls| == |captured.calls| + 1 <==> r.meta.deadLettered
  {
    WebhookShownExactly(s, caseId, event, ctx.asOf);
    RequestsExactlyWhen(WebhookApplied(s, caseId, event, ctx.asOf, false), ctx, false, false, env);
  }
}
