/**
  The values the orchestrator works on: plans, policy decisions, stored actions,
  scheduler jobs, audit rows, and the requests it sends to the payment sandbox.
  A time is a number of microseconds.
 */
module Domain {
  import opened Wrappers

  type Time = int
  type CaseId = nat

  datatype Strategy =
    | WaitForPayday
    | RetryPayment
    | RetrySilently
    | SendPaymentLink
    | SwitchPaymentMethod
    | RequestNewMandate
    | HonourPromiseToPay
    | EscalateToHuman
    | StopRecovery

  predicate IsWait(strategy: Strategy) {
    strategy.WaitForPayday? || strategy.HonourPromiseToPay?
  }

  /** The strategies that have a sandbox call behind them. */
  predicate IsOutbound(strategy: Strategy) {
    match strategy
    case RetryPayment | RetrySilently | SendPaymentLink | SwitchPaymentMethod | RequestNewMandate => true
    case _ => false
  }

  datatype Decision = Allow | Wait | Deny | Stop | Escalate

  datatype Plan = Plan(caseId: Option<CaseId>, strategy: Strategy, fallback: Strategy, scheduledAt: Time)

  datatype Policy = Policy(decision: Decision, cooldownUntil: Option<Time>)

  datatype Context = Context(asOf: Time, plan: Plan, policy: Policy, amount: int)

  /**
    The idempotency key exec:{case}:{strategy}:{scheduled_at}. The execution id is a
    name-based hash of it, taken as injective, so a key also serves as the execution id.
   */
  datatype Key = Key(caseId: CaseId, strategy: Strategy, scheduledAt: Time)

  datatype Display = Scheduled | Sent | Success | Failed | Cancelled | Expired | Retrying

  predicate IsTerminal(display: Display) {
    display.Success? || display.Cancelled? || display.Expired?
  }

  /** A record that shows one of these labels is waiting for the scheduler. */
  predicate IsWaiting(display: Display) {
    display.Scheduled? || display.Retrying?
  }

  datatype ExecutionStatus = DbScheduled | DbRunning | DbSucceeded | DbFailed | DbSkipped | DbCancelled

  datatype DeliveryStatus = Delivered | DeliveryFailed | Skipped

  datatype GateReason = PolicyReason | PolicyCooldown | PolicyWait | PlanSchedule | GateAllow

  datatype ProviderEvent =
    | PaymentFailed
    | PaymentCaptured
    | PaymentAuthorized
    | PaymentLinkPaid
    | SubscriptionCharged
    | SubscriptionCancelled
    | SubscriptionPaused
    | OtherEvent

  /** The idempotency token sent to the sandbox; mandate sessions append a suffix. */
  datatype Token = Token(key: Key, mandate: bool)

  /** Sandbox ids and links are hashes of the token, taken as injective. */
  datatype ResourceId = OrderId(token: Token) | LinkId(token: Token) | SessionId(token: Token)

  datatype Link = Link(token: Token)

  datatype Metadata = Metadata(
    key: Key,
    strategy: Option<Strategy>,
    fallback: Strategy,
    decision: Decision,
    policyReason: GateReason,
    display: Option<Display>,
    deadLettered: bool,
    expired: bool,
    retrying: bool,
    rejected: bool,
    resource: Option<ResourceId>,
    delivery: Option<DeliveryStatus>,
    webhook: Option<ProviderEvent>)

  datatype ResponseCode = TransientCode | RejectedCode | OkCode

  datatype Record = Record(
    id: Key,
    caseId: CaseId,
    scheduledTime: Option<Time>,
    executedTime: Option<Time>,
    status: ExecutionStatus,
    link: Option<Link>,
    retryNumber: nat,
    response: Option<ResponseCode>,
    meta: Metadata)

  datatype JobStatus = Pending | Running | Finished | DeadLetter

  datatype JobReason = Deferral(gate: GateReason) | Backoff

  datatype Job = Job(id: Key, caseId: CaseId, runAt: Time, reason: JobReason, attempt: nat, status: JobStatus)

  predicate IsLive(job: Job) {
    job.status.Pending? || job.status.Running?
  }

  datatype AuditEvent = ActionSkipped | ActionScheduled | ActionExecuted | PaymentWasCaptured | RecoveryStopped

  datatype Audit =
    | ActionAudit(caseId: CaseId, event: AuditEvent, decision: Decision, id: Key,
                  display: Option<Display>, resource: Option<ResourceId>, delivery: Option<DeliveryStatus>)
    | WebhookAudit(caseId: CaseId, event: AuditEvent, provider: ProviderEvent, duplicate: bool, target: Option<Key>)

  datatype Error = MissingCase | NotFound | Unexpected

  datatype Result = Result(
    id: Key,
    display: Display,
    status: ExecutionStatus,
    scheduledTime: Option<Time>,
    executedTime: Option<Time>,
    retryAttempts: nat,
    link: Option<Link>,
    delivery: Option<DeliveryStatus>,
    resource: Option<ResourceId>,
    deadLettered: bool,
    replayed: bool)

  datatype Outcome = Done(result: Result) | Raised(error: Error)

  /**
    What the outside world does to one dispatch. `applied` says whether the sandbox took
    the request into account before an error came back, so a lost reply is
    TransientError with `applied`. `offset` is the jitter draw.
   */
  datatype Reply = Accepted | TransientError | PermanentError | UnexpectedError

  datatype Delivery = Sends(status: DeliveryStatus) | SendsNothing | DeliveryRaises

  datatype Env = Env(reply: Reply, applied: bool, delivery: Delivery, offset: int)

  /** One request to the sandbox, with what was known when it was made. */
  datatype CallOutcome = CallSucceeded | CallTransient | CallUndelivered | CallRejected | CallCrashed

  datatype Call = Call(
    key: Key,
    at: Time,
    decision: Decision,
    cooldownUntil: Option<Time>,
    replay: bool,
    outcome: CallOutcome)

  predicate IsFailure(call: Call) {
    call.outcome.CallTransient? || call.outcome.CallUndelivered?
  }
}
