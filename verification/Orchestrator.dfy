/** The executor of recovery plans. Each method is proved to compute its function in Steps.dfy. */
module Orchestrator {
  import opened Wrappers
  import opened Domain
  import opened Mapping
  import opened Gates
  import opened Sandbox
  import opened Scheduler
  import opened ActionStore
  import opened Steps

  class ActionOrchestrator {
    const store: Store
    const razorpay: SandboxClient
    const scheduler: ActionScheduler
    ghost var calls: seq<Call>

    constructor (store: Store, razorpay: SandboxClient, scheduler: ActionScheduler)
      ensures this.store == store && this.razorpay == razorpay && this.scheduler == scheduler
      ensures calls == []
    {
      this.store := store;
      this.razorpay := razorpay;
      this.scheduler := scheduler;
      calls := [];
    }

    ghost function Contents(): State
      reads this, store, razorpay, scheduler
    {
      State(store.actions, store.inserted, store.audits, scheduler.jobs, scheduler.enqueued,
            razorpay.Contents(), calls)
    }

    ghost predicate Valid()
      reads this, store
    {
      Keyed(store.actions)
    }

    method PersistStatus(record: Record, display: Display) returns (stored: Record)
      requires Valid() && record.meta.key == record.id
      modifies store
      ensures Valid()
      ensures stored == WithDisplay(record, display)
      ensures Contents() == Saved(old(Contents()), stored)
    {
      stored := record.(meta := record.meta.(display := Some(display)), status := DbStatusFor(display));
      store.Save(stored);
    }

    method Finalize(record: Record, ctx: Context, display: Display, event: AuditEvent) returns (result: Result)
      requires Valid() && record.meta.key == record.id
      modifies store, scheduler
      ensures Valid()
      ensures StepResult(Contents(), Done(result)) == Finalized(old(Contents()), record, ctx, display, event)
    {
      var timed := record;
      var closes := display.Success? || display.Failed? || display.Cancelled?;
      if closes && timed.executedTime.None? {
        timed := timed.(executedTime := Some(ctx.asOf));
      }
      var stored := PersistStatus(timed, display);
      if closes {
        scheduler.Complete(stored.id, Finished);
        assert Contents() == JobClosed(Saved(old(Contents()), stored), stored.id, Finished);
      }
      store.AppendAudit(ActionRow(ctx, event, stored));
      result := ResultFrom(stored, false);
    }

    method BackoffOrDeadLetter(record: Record, ctx: Context, offset: int) returns (result: Result)
      requires Valid() && record.meta.key == record.id
      modifies store, scheduler
      ensures Valid()
      ensures StepResult(Contents(), Done(result)) == BackedOff(old(Contents()), record, ctx, offset)
    {
      var delay := NextBackoff(record.retryNumber, offset);
      var failed := Bumped(record);
      if delay.None? {
        var dead := PersistStatus(failed.(meta := failed.meta.(deadLettered := true)), Failed);
        scheduler.Complete(dead.id, DeadLetter);
        store.AppendAudit(ActionRow(ctx, ActionExecuted, dead));
        result := ResultFrom(dead, false);
        assert StepResult(Contents(), Done(result)) == DeadLettered(old(Contents()), failed, ctx);
        return;
      }
      var runAt := ctx.asOf + delay.value;
      var retrying := failed.(scheduledTime := Some(runAt), executedTime := None,
                              meta := failed.meta.(retrying := true));
      var stored := PersistStatus(retrying, Retrying);
      scheduler.Schedule(Job(stored.id, stored.caseId, runAt, Backoff, stored.retryNumber, Pending));
      store.AppendAudit(ActionRow(ctx, ActionScheduled, stored));
      result := ResultFrom(stored, false);
      assert StepResult(Contents(), Done(result)) == Rescheduled(old(Contents()), failed, ctx, runAt);
    }

    method Notify(linked: Record, ctx: Context, env: Env) returns (outcome: Outcome)
      requires Valid() && linked.meta.key == linked.id
      modifies store, scheduler
      ensures Valid()
      ensures StepResult(Contents(), outcome) == Notified(old(Contents()), linked, ctx, env)
    {
      if env.delivery.DeliveryRaises? {
        return Raised(Unexpected);
      }
      var result: Result;
      var delivery := DeliveryStatusOf(env.delivery);
      var stored := linked.(meta := linked.meta.(delivery := Some(delivery)));
      if delivery.DeliveryFailed? && !Silent(ctx.plan.strategy) {
        result := BackoffOrDeadLetter(stored, ctx, env.offset);
        return Done(result);
      }
      result := Finalize(stored.(response := Some(OkCode)), ctx, Success, ActionExecuted);
      scheduler.Complete(stored.id, Finished);
      outcome := Done(result);
    }

    /** The request to the sandbox and, when it answers, the message to the customer. */
    method CallOut(sent: Record, ctx: Context, key: Key, replay: bool, env: Env) returns (outcome: Outcome)
      requires Valid() && sent.meta.key == sent.id && key.strategy == ctx.plan.strategy && IsOutbound(ctx.plan.strategy)
      modifies this, store, razorpay, scheduler
      ensures Valid()
      ensures var asked := Requested(old(Contents()), ctx, key, replay, env);
              && (env.reply.Accepted? ==> TokenFor(key) in asked.server.cache)
              && StepResult(Contents(), outcome) == Answered(asked, sent, ctx, key, env)
    {
      var result: Result;
      calls := calls + [CallFor(ctx, key, replay, env)];
      var answer := razorpay.ExecuteStrategy(ctx.plan.strategy, key, ctx.amount, env.reply, env.applied);
      if answer.value.Failure? {
        match answer.value.reply {
          case TransientError =>
            result := BackoffOrDeadLetter(sent, ctx, env.offset);
            return Done(result);
          case PermanentError =>
            var rejected := sent.(response := Some(RejectedCode), meta := sent.meta.(rejected := true));
            result := Finalize(rejected, ctx, Failed, ActionExecuted);
            return Done(result);
          case _ =>
            return Raised(Unexpected);
        }
      }
      outcome := Notify(WithResource(sent, answer.value.body), ctx, env);
    }

    /** Marks the row sent, then stops, escalates, hands over to the fallback, or calls out. */
    method Dispatch(record: Record, ctx: Context, key: Key, replay: bool, env: Env) returns (outcome: Outcome)
      requires Valid() && record.id == key && record.meta.key == key && key.strategy == ctx.plan.strategy
      modifies this, store, razorpay, scheduler
      ensures Valid()
      ensures StepResult(Contents(), outcome) == Dispatched(old(Contents()), record, ctx, key, replay, env)
      decreases if IsWait(ctx.plan.strategy) then 1 else 0, 0
    {
      var stored := PersistStatus(record.(executedTime := Some(ctx.asOf)), Sent);
      var result: Result;
      if ctx.plan.strategy.StopRecovery? {
        result := Finalize(stored, ctx, Cancelled, ActionSkipped);
        return Done(result);
      }
      if ctx.plan.strategy.EscalateToHuman? {
        result := Finalize(stored, ctx, Success, ActionExecuted);
        return Done(result);
      }
      if IsWait(ctx.plan.strategy) {
        if !IsWait(ctx.plan.fallback) && ctx.plan.fallback != ctx.plan.strategy {
          var nested := FallbackContext(ctx);
          var _ := PersistStatus(stored, Success);
          scheduler.Complete(stored.id, Finished);
          outcome := Run(nested, false, false, env);
          return;
        }
        result := Finalize(stored, ctx, Success, ActionExecuted);
        return Done(result);
      }
      outcome := CallOut(stored, ctx, key, replay, env);
    }

    method Run(ctx: Context, force: bool, replay: bool, env: Env) returns (outcome: Outcome)
      requires Valid()
      modifies this, store, razorpay, scheduler
      ensures Valid()
      ensures StepResult(Contents(), outcome) == Ran(old(Contents()), ctx, force, replay, env)
      decreases if IsWait(ctx.plan.strategy) then 1 else 0, 1
    {
      if ctx.plan.caseId.None? {
        return Raised(MissingCase);
      }
      var key := MakeKey(ctx.plan.caseId.value, ctx.plan);
      var existing := store.Get(key);
      if existing.None? {
        existing := store.GetByIdempotency(key);
        assert existing.None?;
      }
      if existing.Some? {
        var display := DisplayStatusFor(existing.value.meta, existing.value.status);
        if IsTerminal(display) || (!replay && display.Sent?) {
          return Done(ResultFrom(existing.value, true));
        }
      }
      var gate := EvaluateGates(ctx.plan, ctx.policy, ctx.asOf, force);
      var record := existing.GetOr(
        Record(key, key.caseId, Some(ctx.plan.scheduledAt), None, DbScheduled, None, 0, None,
               BaseMetadata(ctx, key, gate)));
      record := record.(meta := BaseMetadata(ctx, key, gate));
      if gate.block {
        var result := Finalize(record, ctx, Cancelled, ActionSkipped);
        return Done(result);
      }
      if gate.defer && !replay {
        var runAt := gate.runAt.GetOr(ctx.plan.scheduledAt);
        var stored := PersistStatus(record.(scheduledTime := Some(runAt)), Scheduled);
        scheduler.Schedule(Job(stored.id, key.caseId, runAt, Deferral(gate.reason), stored.retryNumber, Pending));
        store.AppendAudit(ActionRow(ctx, ActionScheduled, stored));
        return Done(ResultFrom(stored, false));
      }
      outcome := Dispatch(record, ctx, key, replay, env);
    }

    method Replay(id: Key, ctx: Context, env: Env) returns (outcome: Outcome)
      requires Valid()
      modifies this, store, razorpay, scheduler
      ensures Valid()
      ensures StepResult(Contents(), outcome) == Replayed(old(Contents()), id, ctx, env)
    {
      var record := store.Get(id);
      if record.None? {
        return Raised(NotFound);
      }
      outcome := Run(ctx, false, true, env);
    }

    method RunDue(record: Record, ctx: Context, env: Env) returns (outcome: Outcome)
      requires Valid() && record.meta.key == record.id
      modifies this, store, razorpay, scheduler
      ensures Valid()
      ensures StepResult(Contents(), outcome) == RanDue(old(Contents()), record, ctx, env)
    {
      var strategy := record.meta.strategy.GetOr(ctx.plan.strategy);
      if IsWait(strategy) && ctx.asOf >= record.scheduledTime.GetOr(ctx.asOf) {
        var done := PersistStatus(record.(executedTime := Some(ctx.asOf)), Success);
        scheduler.Complete(record.id, Finished);
        if !IsWait(ctx.plan.fallback) && ctx.plan.fallback != strategy {
          outcome := Run(FallbackContext(ctx), false, false, env);
          return;
        }
        return Done(ResultFrom(done, false));
      }
      outcome := Run(ctx, false, true, env);
    }

    method ApplyProviderWebhook(caseId: CaseId, event: ProviderEvent, asOf: Time, replay: bool)
      requires Valid()
      modifies store, scheduler
      ensures Valid()
      ensures Contents() == WebhookApplied(old(Contents()), caseId, event, asOf, replay)
    {
      var history := store.ListForCase(caseId);
      if replay {
        store.AppendAudit(WebhookAudit(caseId, ActionExecuted, event, true, None));
        return;
      }
      var target := None;
      if history != [] {
        NewestIsStored(store.actions, store.inserted, caseId);
        var record := history[0];
        var display := EventDisplay(event);
        record := record.(meta := record.meta.(webhook := Some(event)));
        if display.Success? {
          if record.executedTime.None? {
            record := record.(executedTime := Some(asOf));
          }
          scheduler.Complete(record.id, Finished);
        }
        var stored := PersistStatus(record, display);
        target := Some(stored.id);
      }
      store.AppendAudit(WebhookAudit(caseId, EventAudit(event), event, false, target));
    }
  }
}
