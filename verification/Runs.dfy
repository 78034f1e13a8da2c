/** Whole runs: any interleaving of operations, under any failures, from the empty state. */
module Runs {
  import opened Wrappers
  import opened Domain
  import opened Mapping
  import opened Sandbox
  import opened Scheduler
  import opened Steps
  import opened Invariants
  import opened StepInvariants
  import opened Accounting

  datatype Step =
    | RunStep(ctx: Context, force: bool, env: Env)
    | ReplayStep(id: Key, ctx: Context, env: Env)
    | DueStep(record: Record, ctx: Context, env: Env)
    | WebhookStep(caseId: CaseId, event: ProviderEvent, asOf: Time, replay: bool)
    | ClaimStep(asOf: Time)
    | ReleaseStep(id: Key)

  function Apply(s: State, step: Step): State {
    match step
    case RunStep(ctx, force, env) => Ran(s, ctx, force, false, env).state
    case ReplayStep(id, ctx, env) => Replayed(s, id, ctx, env).state
    case DueStep(record, ctx, env) => RanDue(s, record, ctx, env).state
    case WebhookStep(caseId, event, asOf, replay) => WebhookApplied(s, caseId, event, asOf, replay)
    case ClaimStep(asOf) => AfterClaim(s, asOf)
    case ReleaseStep(id) => AfterRelease(s, id)
  }

  /** A due row may be out of date by the time it is worked on, but it is a version of a
      row of the store; nothing else is asked of a step. */
  ghost predicate Enabled(s: State, step: Step) {
    step.DueStep? ==> Snapshot(s, step.record)
  }

  function Execute(s: State, steps: seq<Step>): State {
    if steps == [] then s else Apply(Execute(s, steps[..|steps| - 1]), steps[|steps| - 1])
  }

  ghost predicate Legal(s: State, steps: seq<Step>) {
    steps != [] ==>
      var n := |steps| - 1;
      Legal(s, steps[..n]) && Enabled(Execute(s, steps[..n]), steps[n])
  }

  lemma StepKeeps(s: State, step: Step)
    requires Valid(s) && Enabled(s, step)
    ensures Valid(Apply(s, step))
  {
    match step {
      case RunStep(ctx, force, env) => RanKeeps(s, ctx, force, false, env);
      case ReplayStep(id, ctx, env) => ReplayedKeeps(s, id, ctx, env);
      case DueStep(record, ctx, env) => RanDueKeeps(s, record, ctx, env);
      case WebhookStep(caseId, event, asOf, replay) => WebhookKeeps(s, caseId, event, asOf, replay);
      case ClaimStep(asOf) => ClaimKeeps(s, asOf);
      case ReleaseStep(id) => ReleaseKeeps(s, id);
    }
  }

  lemma StepExtends(s: State, step: Step)
    ensures Extends(s, Apply(s, step))
  {
    match step {
      case RunStep(ctx, force, env) => RanAccounts(s, ctx, force, false, env);
      case ReplayStep(id, ctx, env) => RanAccounts(s, ctx, false, true, env);
      case DueStep(record, ctx, env) => RanDueAccounts(s, record, ctx, env);
      case WebhookStep(caseId, event, asOf, replay) => WebhookAccounts(s, caseId, event, asOf, replay);
      case _ =>
    }
  }

  /** Every state reached by a legal run satisfies the invariant and extends its start. */
  lemma {:induction false} RunKeeps(s: State, steps: seq<Step>)
    requires Valid(s) && Legal(s, steps)
    ensures Valid(Execute(s, steps)) && Extends(s, Execute(s, steps))
  {
    if steps != [] {
      var n := |steps| - 1;
      RunKeeps(s, steps[..n]);
      StepKeeps(Execute(s, steps[..n]), steps[n]);
      StepExtends(Execute(s, steps[..n]), steps[n]);
      ExtendsTrans(s, Execute(s, steps[..n]), Execute(s, steps));
    }
  }

  lemma InitialValid()
    ensures Valid(INITIAL)
  {
    forall k: Key ensures KeyOk(INITIAL, k) {}
  }

  /** A row read at any moment stays a snapshot for the rest of the run, so a worker may
      act on rows it read earlier while other operations run in between. */
  lemma SnapshotsLast(s: State, steps: seq<Step>, k: Key)
    requires Valid(s) && Legal(s, steps) && k in s.actions
    ensures Snapshot(s, s.actions[k]) && Snapshot(Execute(s, steps), s.actions[k])
  {
    RunKeeps(s, steps);
    assert KeyOk(s, k);
    FitsLater(s, Execute(s, steps), s.actions[k]);
  }

  // What the invariant says of every reachable state

  ghost predicate Reachable(s: State) {
    exists steps: seq<Step> :: Legal(INITIAL, steps) && s == Execute(INITIAL, steps)
  }

  lemma ReachableValid(s: State)
    requires Reachable(s)
    ensures Valid(s)
  {
    var steps: seq<Step> :| Legal(INITIAL, steps) && s == Execute(INITIAL, steps);
    InitialValid();
    RunKeeps(INITIAL, steps);
  }

  /** However often a key is retried or replayed, and whether replies arrive or are lost,
      the sandbox builds at most one resource for it, never replaces it, and a link or
      resource id on a row is that resource's. */
  lemma ExactlyOnce(s: State, more: seq<Step>)
    requires Reachable(s) && Legal(s, more)
    ensures var s' := Execute(s, more);
            && (forall i, j :: 0 <= i < j < |s'.server.created| ==>
                  s'.server.created[i].key != s'.server.created[j].key)
            && (forall t :: t in s.server.cache ==> t in s'.server.cache && s'.server.cache[t] == s.server.cache[t])
            && (forall k :: k in s'.actions && s'.actions[k].link.Some? ==>
                  TokenFor(k) in s'.server.cache && s'.actions[k].link == s'.server.cache[TokenFor(k)].shortUrl
                  && s'.actions[k].link == Some(Link(TokenFor(k))))
            && (forall k :: k in s'.actions && s'.actions[k].meta.resource.Some? ==>
                  TokenFor(k) in s'.server.cache
                  && s'.actions[k].meta.resource.value == s'.server.cache[TokenFor(k)].id)
  {
    ReachableValid(s);
    RunKeeps(s, more);
    var s' := Execute(s, more);
    forall k | k in s'.actions ensures KeyOk(s', k) {}
    forall i, j | 0 <= i < j < |s'.server.created|
      ensures s'.server.created[i].key != s'.server.created[j].key
    {
      var a, b := s'.server.created[i], s'.server.created[j];
      assert a in s'.server.cache && b in s'.server.cache;
    }
  }

  /** The retry counter is the number of transient and delivery failures ever suffered
      under the key; the backoff budget is spent once per key, reruns included. */
  lemma RetryAccounting(s: State, k: Key)
    requires Reachable(s)
    ensures Backoffs(s.enqueued, k) == AtMostCap(Failures(s.calls, k)) <= MAX_RETRY_ATTEMPTS
    ensures k in s.actions ==>
              var r := s.actions[k];
              && r.retryNumber == Failures(s.calls, k)
              && (DisplayOf(r).Retrying? ==> 1 <= r.retryNumber <= MAX_RETRY_ATTEMPTS)
              && (r.meta.deadLettered ==> r.retryNumber > MAX_RETRY_ATTEMPTS)
              && (IsWait(k.strategy) ==> r.retryNumber == 0 && !r.meta.deadLettered)
  {
    ReachableValid(s);
    assert KeyOk(s, k);
  }

  /** A row shown as scheduled or retrying always has a live job that says when and on
      which attempt, whatever webhooks, crashes and stale workers did before. */
  lemma ShownImpliesQueued(s: State, k: Key)
    requires Reachable(s) && k in s.actions && IsWaiting(DisplayOf(s.actions[k]))
    ensures k in s.jobs && IsLive(s.jobs[k])
    ensures s.actions[k].scheduledTime == Some(s.jobs[k].runAt) && s.actions[k].retryNumber == s.jobs[k].attempt
  {
    ReachableValid(s);
    assert KeyOk(s, k);
  }

  /** No request was ever made under a blocking decision, nor, outside a replay, before the
      cooldown ended or while a WAIT decision still held the plan. */
  lemma PolicySafety(s: State, i: int)
    requires Reachable(s) && 0 <= i < |s.calls|
    ensures var call := s.calls[i];
            && !call.decision.Deny? && !call.decision.Stop? && !call.decision.Escalate?
            && (!call.replay && call.cooldownUntil.Some? ==> call.cooldownUntil.value <= call.at)
            && (!call.replay && call.cooldownUntil.None? && call.decision.Wait? ==> call.key.scheduledAt <= call.at)
  {
    ReachableValid(s);
    assert CallOk(s.calls[i]);
  }
}
