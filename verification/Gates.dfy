/** Cooldown and policy gates: whether a plan runs now, later, or not at all. */
module Gates {
  import opened Wrappers
  import opened Domain

  datatype Gate = Gate(allowNow: bool, defer: bool, block: bool, reason: GateReason, runAt: Option<Time>)

  function EvaluateGates(plan: Plan, policy: Policy, asOf: Time, force: bool): Gate {
    if policy.decision.Deny? || policy.decision.Stop? then
      Gate(false, false, true, PolicyReason, None)
    else if policy.decision.Escalate? && !plan.strategy.EscalateToHuman? then
      Gate(false, false, true, PolicyReason, None)
    else if policy.cooldownUntil.Some? && policy.cooldownUntil.value > asOf then
      var cooldown := policy.cooldownUntil.value;
      Gate(false, true, false, PolicyCooldown,
           Some(if plan.scheduledAt >= cooldown then plan.scheduledAt else cooldown))
    else if policy.decision.Wait? && policy.cooldownUntil.GetOr(plan.scheduledAt) > asOf then
      Gate(false, true, false, PolicyWait, Some(policy.cooldownUntil.GetOr(plan.scheduledAt)))
    else if force || (IsWait(plan.strategy) && plan.scheduledAt > asOf) then
      Gate(false, true, false, PlanSchedule, Some(plan.scheduledAt))
    else
      Gate(true, false, false, GateAllow, Some(if plan.scheduledAt > asOf then plan.scheduledAt else asOf))
  }

  predicate Blocks(plan: Plan, policy: Policy) {
    || policy.decision.Deny?
    || policy.decision.Stop?
    || (policy.decision.Escalate? && !plan.strategy.EscalateToHuman?)
  }

  /** `t` is one of the instants an unblocked plan has to wait for: the cooldown, the
      schedule of a wait strategy, or the schedule under a WAIT decision without cooldown. */
  predicate HoldsUntil(plan: Plan, policy: Policy, t: Time) {
    || policy.cooldownUntil == Some(t)
    || (t == plan.scheduledAt && IsWait(plan.strategy))
    || (t == plan.scheduledAt && policy.decision.Wait? && policy.cooldownUntil.None?)
  }

  function Later(a: Time, b: Time): Time {
    if a < b then b else a
  }

  /** The time a deferred plan is put off to: the end of a running cooldown, or the plan's own
      time if that is later or no cooldown runs. */
  function PutOffTo(plan: Plan, policy: Policy, asOf: Time): Time {
    match policy.cooldownUntil
    case Some(until) => if asOf < until then Later(until, plan.scheduledAt) else plan.scheduledAt
    case None => plan.scheduledAt
  }

  /** A plan goes ahead: the decision is ALLOW or WAIT (or ESCALATE, for an escalation), and,
      except for a replay, nothing forces or holds it. */
  predicate GoesAhead(plan: Plan, policy: Policy, asOf: Time, force: bool, replay: bool) {
    && (policy.decision == Allow || policy.decision == Wait
        || (policy.decision == Escalate && plan.strategy == EscalateToHuman))
    && (!replay ==>
          && !force
          && (policy.cooldownUntil == None || policy.cooldownUntil.value <= asOf)
          && (plan.strategy == WaitForPayday || plan.strategy == HonourPromiseToPay ==> plan.scheduledAt <= asOf)
          && (policy.decision == Wait && policy.cooldownUntil == None ==> plan.scheduledAt <= asOf))
  }

  /** Policy lets a request out: the decision is ALLOW or WAIT and no cooldown is running. */
  predicate LetsCall(policy: Policy, asOf: Time) {
    && (policy.decision == Allow || policy.decision == Wait)
    && (policy.cooldownUntil == None || policy.cooldownUntil.value <= asOf)
  }

  lemma GoesAheadExactly(plan: Plan, policy: Policy, asOf: Time, force: bool, replay: bool)
    ensures var gate := EvaluateGates(plan, policy, asOf, force);
            GoesAhead(plan, policy, asOf, force, replay) <==> !gate.block && (replay || !gate.defer)
  {
  }

  /** Exactly one of the three outcomes, and which one, told without the branches: an
      unforced plan is deferred exactly while some instant that holds it lies ahead. */
  lemma GateCharacterisation(plan: Plan, policy: Policy, asOf: Time, force: bool)
    ensures var gate := EvaluateGates(plan, policy, asOf, force);
            && (gate.block <==> Blocks(plan, policy))
            && (gate.defer <==> !gate.block && (force || exists t :: HoldsUntil(plan, policy, t) && asOf < t))
            && (gate.allowNow <==> !gate.block && !gate.defer)
            && (gate.defer ==> gate.runAt == Some(PutOffTo(plan, policy, asOf)))
            && (gate.allowNow ==> gate.runAt == Some(Later(plan.scheduledAt, asOf)))
            && (gate.defer && !force ==> asOf < gate.runAt.value)
            && (gate.reason.PolicyReason? <==> gate.block)
            && (gate.reason.GateAllow? <==> gate.allowNow)
            && (gate.reason.PolicyCooldown? <==>
                  gate.defer && policy.cooldownUntil.Some? && asOf < policy.cooldownUntil.value)
            && (gate.reason.PolicyWait? <==>
                  gate.defer && policy.decision == Wait && policy.cooldownUntil == None && asOf < plan.scheduledAt)
  {
    var gate := EvaluateGates(plan, policy, asOf, force);
    if gate.defer && !force {
      var t := if gate.reason.PolicyCooldown? then policy.cooldownUntil.value else plan.scheduledAt;
      assert HoldsUntil(plan, policy, t) && asOf < t;
    }
  }

  /** A deferral is settled by its own run time: from then on the gate never defers. */
  lemma DeferralSettles(plan: Plan, policy: Policy, asOf: Time, later: Time)
    requires EvaluateGates(plan, policy, asOf, false).defer
    requires EvaluateGates(plan, policy, asOf, false).runAt.value <= later
    ensures EvaluateGates(plan, policy, later, false).allowNow
  {
    GateCharacterisation(plan, policy, asOf, false);
    GateCharacterisation(plan, policy, later, false);
    forall t | HoldsUntil(plan, policy, t)
      ensures t <= later
    {
      var gate := EvaluateGates(plan, policy, asOf, false);
      if gate.reason.PolicyWait? && policy.cooldownUntil.Some? {
        assert false;
      }
    }
  }

  /** A forced schedule has no such guarantee: asked again with the force flag the gate
      defers for ever, at any later time. */
  lemma ForcedDeferralNeverSettles(plan: Plan, policy: Policy, asOf: Time)
    ensures EvaluateGates(plan, policy, asOf, true).defer <==> !Blocks(plan, policy)
  {
    GateCharacterisation(plan, policy, asOf, true);
  }
}
