/** The journey of every failed payment: case, actions, promise, audit rows and retry payment. */
module Recovery {
  import opened Wrappers
  import opened Arithmetic
  import opened Calendar
  import opened Payday
  import opened Simulation
  import opened Units

  datatype Journey = DAlreadyPaid | CStop | CEscalate | BPromise | APayday | ASwitch | ARetry

  /** `coin` is the draw that sends some otherwise unclassified failures to a promise. */
  function AssignJourney(reason: Reason, segment: Segment, salaryDependent: bool, coin: bool): Journey {
    if reason.AlreadyPaid? then DAlreadyPaid
    else if reason.MandateRevoked? || reason.CustomerCancelled? then CStop
    else if reason.Dispute? then CEscalate
    else if reason.InsufficientFunds? && salaryDependent then
      if segment.ChurnRisk? then BPromise else APayday
    else if reason.CardExpired? then ASwitch
    else if reason.UpiFailure? || reason.BankTimeout? then ARetry
    else if segment.ChurnRisk? then BPromise
    else if segment.HighValue? then ARetry
    else if coin then BPromise else ARetry
  }

  /** The journeys told apart by reason, segment, salary and coin, in no order. */
  lemma JourneyExactly(reason: Reason, segment: Segment, salaryDependent: bool, coin: bool)
    ensures var journey := AssignJourney(reason, segment, salaryDependent, coin);
            && (journey == DAlreadyPaid <==> reason == AlreadyPaid)
            && (journey == CStop <==> reason in {MandateRevoked, CustomerCancelled})
            && (journey == CEscalate <==> reason == Dispute)
            && (journey == ASwitch <==> reason == CardExpired)
            && (journey == APayday <==> reason == InsufficientFunds && salaryDependent && segment != ChurnRisk)
            && (journey == BPromise <==>
                  reason in {InsufficientFunds, Unknown}
                  && (segment == ChurnRisk
                      || (coin && segment != HighValue && !(reason == InsufficientFunds && salaryDependent))))
            && (journey == ARetry <==>
                  reason in {UpiFailure, BankTimeout}
                  || (reason in {InsufficientFunds, Unknown} && segment != ChurnRisk
                      && !(reason == InsufficientFunds && salaryDependent) && (segment == HighValue || !coin)))
  {
  }

  /** With the quota: a promise is given exactly below it, to failures for lack of funds and to
      those whose journey was one; above it such a journey becomes a retry. */
  lemma QuotaExactly(reason: Reason, segment: Segment, salaryDependent: bool, coin: bool, promised: int, quota: int)
    ensures var first := AssignJourney(reason, segment, salaryDependent, coin);
            var journey := QuotaJourney(first, reason, promised, quota);
            && (journey == BPromise <==> promised < quota && (first == BPromise || reason == InsufficientFunds))
            && (journey != BPromise ==> journey == if first == BPromise then ARetry else first)
  {
  }

  /** The promise quota bends the journey: no promise above it, and below it every
      failure for lack of funds becomes one. */
  function QuotaJourney(journey: Journey, reason: Reason, promised: int, quota: int): Journey {
    if journey.BPromise? && promised >= quota then ARetry
    else if !journey.BPromise? && promised < quota && reason.InsufficientFunds? then BPromise
    else journey
  }

  datatype CaseStatus = Diagnosed | Closed | Stopped | Escalated | WaitingPromise | WaitingRetry | Recovered

  datatype Case = Case(
    payment: PaymentId,
    customer: CustomerId,
    status: CaseStatus,
    reason: Reason,
    startedAt: int,
    completedAt: Option<int>,
    journey: Journey,
    recovered: bool,
    suppressed: bool,
    escalated: bool,
    amount: int,
    createdAt: int)

  datatype ActionKind =
    | NoAction | StopRecoveryAction | EscalateToAgent | PromiseToPay
    | WaitForPaydayAction | RetryPaymentAction | SwitchMethod | GeneratePaymentLink

  datatype ActionStatus = Succeeded | FailedAction | SkippedAction | ScheduledAction

  datatype Action = Action(payment: PaymentId, kind: ActionKind, scheduled: int, executed: Option<int>,
                           status: ActionStatus, retryNumber: nat)

  datatype PromiseStatus = Fulfilled | Broken | Open

  datatype Promise = Promise(payment: PaymentId, promisedAmount: int, paidAmount: int, promisedOn: Date,
                             status: PromiseStatus, fulfilledAt: Option<int>)

  datatype AuditKind =
    | CaseOpened | DiagnosisCompleted | PolicyEvaluated | RecoveryWasStopped | WasEscalated
    | PromiseRecorded | PromiseFulfilled | PromiseBroken | PaymentCapturedAudit | CaseClosed | Heartbeat

  datatype AuditRow = AuditRow(payment: PaymentId, kind: AuditKind, at: int)

  /** The draws one case consumes. */
  datatype Draws = Draws(coin: bool, diagnosisMinutes: int, promiseDays: nat, promiseDelay: nat, partialCoin: bool)

  datatype Config = Config(asOf: int, quota: int, actionTarget: int, auditTarget: int)

  datatype CaseFile = CaseFile(case_: Case, actions: seq<Action>, promises: seq<Promise>,
                               audits: seq<AuditRow>, retries: seq<Payment>)

  predicate IsHarmful(reason: Reason) {
    reason.AlreadyPaid? || reason.Dispute? || reason.MandateRevoked? || reason.CustomerCancelled?
  }

  predicate HighTrust(segment: Segment) {
    segment.HighValue? || segment.Loyal? || segment.Active?
  }

  ghost predicate ValidFailure(p: Payment) {
    p.reason.Some? && Beginning() <= p.createdAt
  }

  // What recovers a case, journey by journey

  function PromisedOn(failedAt: Moment, draws: Draws): Date {
    DaysLater(failedAt.date, draws.promiseDays)
  }

  function FulfilAt(failedAt: Moment, draws: Draws): int
    requires ValidDate(PromisedOn(failedAt, draws))
  {
    (Ordinal(PromisedOn(failedAt, draws)) + draws.promiseDelay) * DAY + 10 * HOUR
  }

  predicate KeepsPromise(p: Payment, failedAt: Moment, draws: Draws) {
    HighTrust(p.segment) || (p.salaryDependent && PaydayRecoveryBoost(PromisedOn(failedAt, draws).day) > 0.5)
  }

  predicate PaydayHasCome(failedAt: Moment, asOf: int)
    requires ValidMoment(failedAt) && ValidDate(NextPayday(failedAt.date))
  {
    && WithinLookahead(failedAt, asOf)
    && Ordinal(NextPayday(failedAt.date)) * DAY + MorningSlot(failedAt).timeOfDay <= asOf
  }

  function RetryAt(p: Payment, outages: seq<Outage>): int {
    var outage := MatchingOutage(p.createdAt, p.payMethod, outages);
    if outage.Some? then outage.value.endedAt + 25 * MINUTE else p.createdAt + 8 * HOUR
  }

  predicate RailRecovers(p: Payment)
    requires p.reason.Some?
  {
    if p.reason.value.Unknown? then p.segment.HighValue? else !p.segment.ChurnRisk?
  }

  /** A case is recovered when: the promise is kept in time, payday has come, the customer
      is one who switches cards, or the retry slot has come and the rail works for them. */
  ghost predicate Recovers(p: Payment, failedAt: Moment, journey: Journey, draws: Draws, asOf: int,
                           outages: seq<Outage>)
    requires ValidFailure(p) && ValidMoment(failedAt)
    requires ValidDate(PromisedOn(failedAt, draws)) && ValidDate(NextPayday(failedAt.date))
  {
    match journey
    case BPromise => FulfilAt(failedAt, draws) <= asOf && KeepsPromise(p, failedAt, draws)
    case APayday => PaydayHasCome(failedAt, asOf)
    case ASwitch => HighTrust(p.segment) || p.segment.New?
    case ARetry => RetryAt(p, outages) <= asOf && RailRecovers(p)
    case _ => false
  }

  /** A promise is kept by trusted customers, and by those paid by salary who promised one of the
      first ten days of a month. */
  lemma KeepsExactly(p: Payment, failedAt: Moment, draws: Draws)
    ensures KeepsPromise(p, failedAt, draws) <==>
            || p.segment in {HighValue, Loyal, Active}
            || (p.salaryDependent && 1 <= DaysLater(failedAt.date, draws.promiseDays).day <= 10)
  {
    BoostExactly(PromisedOn(failedAt, draws).day);
  }

  lemma FulfilsAt(failedAt: Moment, draws: Draws)
    requires ValidDate(PromisedOn(failedAt, draws))
    ensures ValidMoment(Moment(PromisedOn(failedAt, draws), 10 * HOUR))
    ensures FulfilAt(failedAt, draws) ==
            Instant(Moment(PromisedOn(failedAt, draws), 10 * HOUR)) + draws.promiseDelay * DAY
  {
    var day := Ordinal(PromisedOn(failedAt, draws));
    SumOfMultiples(day, draws.promiseDelay, DAY);
  }

  /** It recovers its case if it is kept and has fallen due, at ten in the morning of its day. */
  lemma PromiseRecovers(p: Payment, failedAt: Moment, draws: Draws, asOf: int, outages: seq<Outage>)
    requires ValidFailure(p) && ValidMoment(failedAt)
    requires ValidDate(PromisedOn(failedAt, draws)) && ValidDate(NextPayday(failedAt.date))
    ensures Recovers(p, failedAt, BPromise, draws, asOf, outages) <==>
            && KeepsPromise(p, failedAt, draws)
            && ValidMoment(Moment(PromisedOn(failedAt, draws), 10 * HOUR))
            && Instant(Moment(PromisedOn(failedAt, draws), 10 * HOUR)) + draws.promiseDelay * DAY <= asOf
  {
    FulfilsAt(failedAt, draws);
  }

  /** When payday does: the search reaches it, and 09:15 of that day has come. */
  lemma PaydayRecovers(p: Payment, failedAt: Moment, draws: Draws, asOf: int, outages: seq<Outage>)
    requires ValidFailure(p) && ValidMoment(failedAt)
    requires ValidDate(PromisedOn(failedAt, draws)) && ValidDate(NextPayday(failedAt.date))
    ensures Recovers(p, failedAt, APayday, draws, asOf, outages) <==>
            && (NextPayday(failedAt.date) == NextDay(failedAt.date)
                || Instant(Moment(NextPayday(failedAt.date), failedAt.timeOfDay)) - DAY < asOf + 20 * DAY)
            && Ordinal(NextPayday(failedAt.date)) * DAY + 9 * HOUR + 15 * MINUTE + failedAt.timeOfDay % MINUTE <= asOf
  {
  }

  /** When the others do, with segments, reasons and delays by name. */
  lemma ChaseRecovers(p: Payment, failedAt: Moment, journey: Journey, draws: Draws, asOf: int, outages: seq<Outage>)
    requires ValidFailure(p) && ValidMoment(failedAt) && !journey.BPromise? && !journey.APayday?
    requires ValidDate(PromisedOn(failedAt, draws)) && ValidDate(NextPayday(failedAt.date))
    ensures var recovers := Recovers(p, failedAt, journey, draws, asOf, outages);
            && (journey == ASwitch ==> (recovers <==> p.segment in {HighValue, Loyal, Active, New}))
            && (journey == ARetry ==> (recovers <==>
                  && (match MatchingOutage(p.createdAt, p.payMethod, outages)
                      case Some(outage) => outage.endedAt + 25 * MINUTE <= asOf
                      case None => p.createdAt + 8 * HOUR <= asOf)
                  && (if p.reason == Some(Reason.Unknown) then p.segment == HighValue else p.segment != ChurnRisk)))
            && (journey in {DAlreadyPaid, CStop, CEscalate} ==> !recovers)
  {
  }

  function RetryRow(p: Payment, at: int): Payment {
    p.(id := RetryOf(p.id), status := Captured, reason := None, attempt := 2, createdAt := at, paidAt := Some(at),
       isOriginalFailure := false)
  }

  predicate HasEnded(status: CaseStatus) {
    status.Recovered? || status.Stopped? || status.Escalated? || status.Closed?
  }

  function KindsOf(audits: seq<AuditRow>): (kinds: seq<AuditKind>)
    ensures |kinds| == |audits|
  {
    seq(|audits|, i requires 0 <= i < |audits| => audits[i].kind)
  }

  function StepsOf(actions: seq<Action>): (kinds: seq<ActionKind>)
    ensures |kinds| == |actions|
  {
    seq(|actions|, i requires 0 <= i < |actions| => actions[i].kind)
  }

  /** What the trail reports between the diagnosis and the ending. */
  function MiddleKinds(journey: Journey, status: CaseStatus): seq<AuditKind> {
    match journey
    case DAlreadyPaid => [PolicyEvaluated]
    case CStop => [RecoveryWasStopped]
    case CEscalate => [WasEscalated]
    case BPromise =>
      [PromiseRecorded] +
      (match status case Recovered => [PromiseFulfilled] case Escalated => [PromiseBroken] case _ => [])
    case APayday | ASwitch | ARetry => [PolicyEvaluated]
  }

  /** What is done about a case. */
  function CaseSteps(journey: Journey, status: CaseStatus): seq<ActionKind> {
    match journey
    case DAlreadyPaid => [NoAction]
    case CStop => [StopRecoveryAction]
    case CEscalate => [EscalateToAgent]
    case BPromise => if status == Escalated then [PromiseToPay, EscalateToAgent] else [PromiseToPay]
    case APayday => [WaitForPaydayAction, RetryPaymentAction]
    case ASwitch => [SwitchMethod]
    case ARetry => [RetryPaymentAction]
  }

  /** When each of the steps is due, and when it is done if it is; `due` is when the journey's own
      wait is over. */
  function StepTimes(journey: Journey, status: CaseStatus, start: int, due: int): seq<(int, int)> {
    match journey
    case DAlreadyPaid => [(start, start + 2 * MINUTE)]
    case CStop => [(start, start + 6 * MINUTE)]
    case CEscalate => [(start + 10 * MINUTE, start + 2 * HOUR)]
    case BPromise =>
      [(start + 15 * MINUTE, start + 20 * MINUTE)] +
      (if status == Escalated then [(due + 4 * HOUR, due + 6 * HOUR)] else [])
    case APayday => [(start + 8 * MINUTE, start + 9 * MINUTE), (due, due + 4 * MINUTE)]
    case ASwitch => [(start + 12 * MINUTE, start + 6 * HOUR)]
    case ARetry => [(due, due + 3 * MINUTE)]
  }

  /** When the trail reports on it. */
  function ReportTimes(journey: Journey, status: CaseStatus, start: int, due: int): seq<int> {
    match journey
    case DAlreadyPaid => [start + 30 * SECOND]
    case CStop => [start + MINUTE]
    case CEscalate => [start + 5 * MINUTE]
    case BPromise =>
      [start + 20 * MINUTE] +
      (match status case Recovered => [due] case Escalated => [due + 4 * HOUR] case _ => [])
    case APayday | ASwitch | ARetry => [start + 2 * MINUTE]
  }

  /** Actions and trail keep these times, and a case that has ended did so with its last action,
      or with the payment of its promise. */
  ghost predicate Timed(journey: Journey, status: CaseStatus, start: int, due: int, completed: Option<int>,
                        actions: seq<Action>, audits: seq<AuditRow>) {
    var steps, reports := StepTimes(journey, status, start, due), ReportTimes(journey, status, start, due);
    && |actions| == |steps| && |audits| >= 2 + |reports|
    && (forall i :: 0 <= i < |actions| ==>
          && actions[i].scheduled == steps[i].0
          && (actions[i].executed.Some? ==> actions[i].executed.value == steps[i].1))
    && (forall i :: 0 <= i < |reports| ==> audits[2 + i].at == reports[i])
    && (completed.Some? ==>
          completed == if journey.BPromise? && status.Recovered? then Some(due) else actions[|actions| - 1].executed)
  }

  /** When a journey's wait is over: the promise's day, payday unless the search gave up before
      it, or the retry slot. */
  ghost predicate IsDue(p: Payment, failedAt: Moment, journey: Journey, draws: Draws, asOf: int,
                        outages: seq<Outage>, due: int)
    requires ValidMoment(failedAt)
    requires ValidDate(PromisedOn(failedAt, draws)) && ValidDate(NextPayday(failedAt.date))
  {
    match journey
    case BPromise => due == FulfilAt(failedAt, draws)
    case APayday => IsSlot(failedAt, asOf, due)
    case ARetry => due == RetryAt(p, outages)
    case _ => true
  }

  ghost predicate IsSlot(failedAt: Moment, asOf: int, slot: int)
    requires ValidMoment(failedAt) && ValidDate(NextPayday(failedAt.date))
  {
    if WithinLookahead(failedAt, asOf)
    then slot == Ordinal(NextPayday(failedAt.date)) * DAY + MorningSlot(failedAt).timeOfDay
    else asOf < slot
  }

  /** Everything happens in its time. */
  ghost predicate OnTime(p: Payment, failedAt: Moment, journey: Journey, draws: Draws, asOf: int, outages: seq<Outage>,
                         status: CaseStatus, start: int, completed: Option<int>, actions: seq<Action>,
                         audits: seq<AuditRow>)
    requires ValidMoment(failedAt)
    requires ValidDate(PromisedOn(failedAt, draws)) && ValidDate(NextPayday(failedAt.date))
  {
    exists due :: IsDue(p, failedAt, journey, draws, asOf, outages, due)
                  && Timed(journey, status, start, due, completed, actions, audits)
  }

  ghost predicate CaseOk(p: Payment, journey: Journey, c: Case)
    requires ValidFailure(p)
  {
    && c.payment == p.id && c.customer == p.customer && c.amount == p.amount && c.reason == p.reason.value
    && c.journey == journey && c.createdAt == p.createdAt + MINUTE
    && (c.suppressed <==> journey.DAlreadyPaid? || journey.CStop? || journey.CEscalate?)
    && (c.recovered <==> c.status.Recovered?)
    && (c.completedAt.Some? <==> HasEnded(c.status))
    && (c.escalated <==> c.status.Escalated?)
    && !(c.recovered && c.suppressed)
  }

  /** What becomes of a step: nothing of the empty one, what the case does of a switch and a retry,
      and the others are done. */
  predicate StepEnds(kind: ActionKind, status: CaseStatus, ended: ActionStatus) {
    match kind
    case NoAction => ended == SkippedAction
    case RetryPaymentAction => ended == Succeeded <==> status == Recovered
    case SwitchMethod => ended == if status == Recovered then Succeeded else FailedAction
    case _ => ended == Succeeded
  }

  ghost predicate ActionsOk(p: Payment, journey: Journey, status: CaseStatus, actions: seq<Action>) {
    && actions != [] && StepsOf(actions) == CaseSteps(journey, status)
    && (forall i :: 0 <= i < |actions| ==>
          && actions[i].payment == p.id
          && (actions[i].executed.None? <==> actions[i].status.ScheduledAction?)
          && (actions[i].executed.Some? ==> actions[i].scheduled <= actions[i].executed.value)
          && actions[i].retryNumber == (if i == 1 || actions[i].kind in {RetryPaymentAction, SwitchMethod} then 1
                                        else 0)
          && StepEnds(actions[i].kind, status, actions[i].status))
    && (journey.APayday? || journey.ARetry? ==>
          (actions[|actions| - 1].status.Succeeded? <==> status.Recovered?))
    && (journey.APayday? ==> !actions[|actions| - 1].status.FailedAction?)
  }

  ghost predicate PromisesOk(p: Payment, journey: Journey, status: CaseStatus, completed: Option<int>,
                             promises: seq<Promise>) {
    if journey.BPromise? then
      && |promises| == 1 && promises[0].payment == p.id && promises[0].promisedAmount == p.amount
      && (promises[0].status.Fulfilled? <==> status.Recovered?)
      && (promises[0].status.Open? <==> status.WaitingPromise?)
      && (status.Recovered? ==> promises[0].fulfilledAt == completed
                                && (promises[0].paidAmount == p.amount || promises[0].paidAmount == p.amount / 2))
      && (!status.Recovered? ==> promises[0].fulfilledAt == None && promises[0].paidAmount == 0)
    else promises == []
  }

  /** The promised day and the share that was paid are those drawn. */
  ghost predicate AsDrawn(p: Payment, failedAt: Moment, draws: Draws, promises: seq<Promise>) {
    forall i :: 0 <= i < |promises| ==>
      && promises[i].promisedOn == DaysLater(failedAt.date, draws.promiseDays)
      && promises[i].paidAmount ==
         (if promises[i].status != Fulfilled then 0 else if draws.partialCoin then p.amount / 2 else p.amount)
  }

  /** The trail so far: opened, diagnosed, and what the journey reports. */
  ghost predicate TrailOk(p: Payment, journey: Journey, status: CaseStatus, diagnosedAt: int, audits: seq<AuditRow>) {
    && KindsOf(audits) == [CaseOpened, DiagnosisCompleted] + MiddleKinds(journey, status)
    && (forall i :: 0 <= i < |audits| ==> audits[i].payment == p.id)
    && audits[0].at == p.createdAt + MINUTE && audits[1].at == diagnosedAt
  }

  /** The finished trail ends with the capture, if the case was recovered, and the closing, if it
      has ended, both at the time the case was completed. */
  ghost predicate AuditsOk(p: Payment, c: Case, audits: seq<AuditRow>) {
    exists trail :: TrailOk(p, c.journey, c.status, c.startedAt, trail) && audits == trail + Ending(p, c)
  }

  function Ending(p: Payment, c: Case): seq<AuditRow> {
    if c.completedAt.None? then []
    else
      (if c.recovered then [AuditRow(p.id, PaymentCapturedAudit, c.completedAt.value)] else []) +
      [AuditRow(p.id, CaseClosed, c.completedAt.value)]
  }

  /** What a finished case file promises. */
  ghost predicate FileOk(p: Payment, journey: Journey, file: CaseFile)
    requires ValidFailure(p)
  {
    && CaseOk(p, journey, file.case_)
    && ActionsOk(p, journey, file.case_.status, file.actions)
    && PromisesOk(p, journey, file.case_.status, file.case_.completedAt, file.promises)
    && AuditsOk(p, file.case_, file.audits)
    && file.retries == if file.case_.recovered then [RetryRow(p, file.case_.completedAt.value)] else []
  }

  datatype Progress = Progress(status: CaseStatus, completed: Option<int>, recovered: bool, suppressed: bool,
                               escalated: bool,
                               actions: seq<Action>, promises: seq<Promise>, audits: seq<AuditRow>)

  /** The rows every trail opens with. */
  function OpeningRows(p: Payment, diagnosedAt: int): seq<AuditRow> {
    [AuditRow(p.id, CaseOpened, p.createdAt + MINUTE), AuditRow(p.id, DiagnosisCompleted, diagnosedAt)]
  }

  /** A branch has kept actions, promises and trail in agreement with the status it gives. */
  ghost predicate ProgressOk(p: Payment, journey: Journey, diagnosedAt: int, g: Progress) {
    && ActionsOk(p, journey, g.status, g.actions)
    && PromisesOk(p, journey, g.status, g.completed, g.promises)
    && TrailOk(p, journey, g.status, diagnosedAt, g.audits)
    && (g.suppressed <==> journey.DAlreadyPaid? || journey.CStop? || journey.CEscalate?)
    && (g.recovered <==> g.status.Recovered?)
    && (g.completed.Some? <==> HasEnded(g.status))
    && (g.escalated <==> g.status.Escalated?)
  }

  /** D, C: nothing is chased. */
  method CloseSuppressed(p: Payment, journey: Journey, diagnosedAt: int) returns (g: Progress)
    requires journey.DAlreadyPaid? || journey.CStop? || journey.CEscalate?
    ensures g.suppressed && !g.recovered && ProgressOk(p, journey, diagnosedAt, g)
    ensures g.status == if journey.DAlreadyPaid? then Closed else if journey.CStop? then Stopped else Escalated
    ensures forall due :: Timed(journey, g.status, diagnosedAt, due, g.completed, g.actions, g.audits)
  {
    var prior := OpeningRows(p, diagnosedAt);
    if journey.DAlreadyPaid? {
      var completed := diagnosedAt + 2 * MINUTE;
      g := Progress(Closed, Some(completed), false, true, false,
        [Action(p.id, NoAction, diagnosedAt, Some(completed), SkippedAction, 0)], [],
        prior + [AuditRow(p.id, PolicyEvaluated, diagnosedAt + 30 * SECOND)]);
    } else if journey.CStop? {
      var completed := diagnosedAt + 6 * MINUTE;
      g := Progress(Stopped, Some(completed), false, true, false,
        [Action(p.id, StopRecoveryAction, diagnosedAt, Some(completed), Succeeded, 0)], [],
        prior + [AuditRow(p.id, RecoveryWasStopped, diagnosedAt + MINUTE)]);
    } else {
      var completed := diagnosedAt + 2 * HOUR;
      g := Progress(Escalated, Some(completed), false, true, true,
        [Action(p.id, EscalateToAgent, diagnosedAt + 10 * MINUTE, Some(completed), Succeeded, 0)], [],
        prior + [AuditRow(p.id, WasEscalated, diagnosedAt + 5 * MINUTE)]);
    }
  }

  /** Where a promise stands now. */
  method SettlePromise(p: Payment, failedAt: Moment, draws: Draws, asOf: int)
    returns (promise: Promise, status: CaseStatus, completed: Option<int>)
    requires ValidMoment(failedAt)
    ensures ValidDate(PromisedOn(failedAt, draws))
    ensures promise.payment == p.id && promise.promisedAmount == p.amount
    ensures promise.promisedOn == PromisedOn(failedAt, draws)
    ensures promise.status ==
            if FulfilAt(failedAt, draws) > asOf then Open
            else if KeepsPromise(p, failedAt, draws) then Fulfilled
            else Broken
    ensures promise.paidAmount ==
            if !promise.status.Fulfilled? then 0 else if draws.partialCoin then p.amount / 2 else p.amount
    ensures status == match promise.status case Open => WaitingPromise case Fulfilled => Recovered
                      case Broken => Escalated
    ensures completed == match promise.status case Open => None case Fulfilled => Some(FulfilAt(failedAt, draws))
                         case Broken => Some(FulfilAt(failedAt, draws) + 6 * HOUR)
    ensures promise.fulfilledAt == if promise.status.Fulfilled? then completed else None
  {
    DaysLaterOrdinal(failedAt.date, draws.promiseDays);
    var promisedOn := PromisedOn(failedAt, draws);
    var fulfilAt := FulfilAt(failedAt, draws);
    var fulfilled := HighTrust(p.segment) || (p.salaryDependent && PaydayRecoveryBoost(promisedOn.day) > 0.5);
    var promiseStatus := if fulfilled && fulfilAt <= asOf then Fulfilled else Broken;
    var paid := p.amount;
    if fulfilled && draws.partialCoin {
      paid := p.amount / 2;
    }
    if fulfilAt > asOf {
      promiseStatus, paid, status, completed := Open, 0, WaitingPromise, None;
    } else if promiseStatus.Fulfilled? {
      status, completed := Recovered, Some(fulfilAt);
    } else {
      paid, status, completed := 0, Escalated, Some(fulfilAt + 6 * HOUR);
    }
    promise := Promise(p.id, p.amount, paid, promisedOn, promiseStatus,
                       if promiseStatus.Fulfilled? then Some(fulfilAt) else None);
  }

  /** B: the customer promises a date. */
  method TakePromise(p: Payment, failedAt: Moment, draws: Draws, diagnosedAt: int, asOf: int) returns (g: Progress)
    requires ValidMoment(failedAt)
    ensures ValidDate(PromisedOn(failedAt, draws))
    ensures g.recovered <==> FulfilAt(failedAt, draws) <= asOf && KeepsPromise(p, failedAt, draws)
    ensures g.status.WaitingPromise? <==> asOf < FulfilAt(failedAt, draws)
    ensures g.status.Recovered? || g.status.Escalated? || g.status.WaitingPromise?
    ensures ProgressOk(p, BPromise, diagnosedAt, g)
    ensures Timed(BPromise, g.status, diagnosedAt, FulfilAt(failedAt, draws), g.completed, g.actions, g.audits)
    ensures AsDrawn(p, failedAt, draws, g.promises)
  {
    var promise, status, completed := SettlePromise(p, failedAt, draws, asOf);
    var actions := [
      Action(p.id, PromiseToPay, diagnosedAt + 15 * MINUTE, Some(diagnosedAt + 20 * MINUTE), Succeeded, 0)];
    var audits := OpeningRows(p, diagnosedAt) + [AuditRow(p.id, PromiseRecorded, diagnosedAt + 20 * MINUTE)];
    if promise.status.Fulfilled? {
      audits := audits + [AuditRow(p.id, PromiseFulfilled, FulfilAt(failedAt, draws))];
    } else if promise.status.Broken? {
      var at := FulfilAt(failedAt, draws) + 4 * HOUR;
      actions := actions + [Action(p.id, EscalateToAgent, at, completed, Succeeded, 1)];
      audits := audits + [AuditRow(p.id, PromiseBroken, at)];
    }
    g := Progress(status, completed, status.Recovered?, false, status.Escalated?, actions, [promise], audits);
  }

  /** A: wait for payday, then retry. */
  method AwaitPayday(p: Payment, failedAt: Moment, diagnosedAt: int, asOf: int, audits: seq<AuditRow>)
    returns (g: Progress)
    requires ValidMoment(failedAt) && TrailOk(p, APayday, WaitingRetry, diagnosedAt, audits)
    requires audits[2].at == diagnosedAt + 2 * MINUTE
    ensures ValidDate(NextPayday(failedAt.date))
    ensures g.status == if g.recovered then Recovered else WaitingRetry
    ensures g.recovered <==> PaydayHasCome(failedAt, asOf)
    ensures ProgressOk(p, APayday, diagnosedAt, g)
    ensures IsSlot(failedAt, asOf, g.actions[1].scheduled)
    ensures Timed(APayday, g.status, diagnosedAt, g.actions[1].scheduled, g.completed, g.actions, g.audits)
  {
    NextPaydayIsFirst(failedAt.date);
    var wait := WaitUntilPayday(failedAt, asOf);
    PaydayRecoversExactly(failedAt, asOf, wait);
    var slot := Instant(wait);
    var actions := [
      Action(p.id, WaitForPaydayAction, diagnosedAt + 8 * MINUTE, Some(diagnosedAt + 9 * MINUTE), Succeeded, 0)];
    var recover := PaydayRecoveryBoost(wait.date.day) >= 0.5 && slot <= asOf;
    actions := actions + [
      Action(p.id, RetryPaymentAction, slot, if slot <= asOf then Some(slot + 4 * MINUTE) else None,
        if slot <= asOf then if recover then Succeeded else FailedAction else ScheduledAction, 1)];
    g := Progress(if recover then Recovered else WaitingRetry, if recover then Some(slot + 4 * MINUTE) else None,
                  recover, false, false, actions, [], audits);
  }

  /** A: ask the customer to switch the method. */
  method AskToSwitch(p: Payment, diagnosedAt: int, audits: seq<AuditRow>) returns (g: Progress)
    requires TrailOk(p, ASwitch, WaitingRetry, diagnosedAt, audits)
    requires audits[2].at == diagnosedAt + 2 * MINUTE
    ensures g.status == if g.recovered then Recovered else WaitingRetry
    ensures g.recovered <==> HighTrust(p.segment) || p.segment.New?
    ensures ProgressOk(p, ASwitch, diagnosedAt, g)
    ensures forall due :: Timed(ASwitch, g.status, diagnosedAt, due, g.completed, g.actions, g.audits)
  {
    var executed := diagnosedAt + 6 * HOUR;
    var recover := p.segment.HighValue? || p.segment.Loyal? || p.segment.New? || p.segment.Active?;
    var action := Action(p.id, SwitchMethod, diagnosedAt + 12 * MINUTE, Some(executed),
                         if recover then Succeeded else FailedAction, 1);
    g := Progress(if recover then Recovered else WaitingRetry, if recover then Some(executed) else None,
                  recover, false, false, [action], [], audits);
  }

  /** A: retry on the same rail, after an outage that explains the failure, or after 8 hours. */
  method RetryRail(p: Payment, diagnosedAt: int, asOf: int, outages: seq<Outage>, audits: seq<AuditRow>)
    returns (g: Progress)
    requires ValidFailure(p) && TrailOk(p, ARetry, WaitingRetry, diagnosedAt, audits)
    requires audits[2].at == diagnosedAt + 2 * MINUTE
    ensures g.status == if g.recovered then Recovered else WaitingRetry
    ensures g.recovered <==> RetryAt(p, outages) <= asOf && RailRecovers(p)
    ensures ProgressOk(p, ARetry, diagnosedAt, g)
    ensures Timed(ARetry, g.status, diagnosedAt, RetryAt(p, outages), g.completed, g.actions, g.audits)
  {
    var outage := MatchingOutage(p.createdAt, p.payMethod, outages);
    var retryAt := p.createdAt + 8 * HOUR;
    if outage.Some? {
      retryAt := outage.value.endedAt + 25 * MINUTE;
    }
    var recover := true;
    if p.segment.ChurnRisk? {
      recover := false;
    }
    if p.reason.value.Unknown? {
      recover := p.segment.HighValue?;
    }
    var status, completed := WaitingRetry, None;
    var action := Action(p.id, RetryPaymentAction, retryAt, None, ScheduledAction, 1);
    if retryAt > asOf {
      recover := false;
    } else {
      action := action.(executed := Some(retryAt + 3 * MINUTE), status := if recover then Succeeded else FailedAction);
      if recover {
        status, completed := Recovered, Some(retryAt + 3 * MINUTE);
      }
    }
    g := Progress(status, completed, recover, false, false, [action], [], audits);
    RetryIsOk(p, diagnosedAt, asOf, retryAt, action, g);
  }

  lemma RetryIsOk(p: Payment, diagnosedAt: int, asOf: int, retryAt: int, action: Action, g: Progress)
    requires TrailOk(p, ARetry, WaitingRetry, diagnosedAt, g.audits) && g.audits[2].at == diagnosedAt + 2 * MINUTE
    requires g == Progress(if g.recovered then Recovered else WaitingRetry,
                           if g.recovered then Some(retryAt + 3 * MINUTE) else None,
                           g.recovered, false, false, [action], [], g.audits)
    requires g.recovered ==> retryAt <= asOf
    requires action == Action(p.id, RetryPaymentAction, retryAt,
                              if retryAt <= asOf then Some(retryAt + 3 * MINUTE) else None,
                              if retryAt > asOf then ScheduledAction
                              else if g.recovered then Succeeded else FailedAction, 1)
    ensures ProgressOk(p, ARetry, diagnosedAt, g)
    ensures Timed(ARetry, g.status, diagnosedAt, retryAt, g.completed, g.actions, g.audits)
  {
  }

  /** The chasing journeys. */
  method Chase(p: Payment, failedAt: Moment, journey: Journey, ghost draws: Draws, diagnosedAt: int, asOf: int,
               outages: seq<Outage>) returns (g: Progress)
    requires ValidFailure(p) && ValidMoment(failedAt) && (journey.APayday? || journey.ASwitch? || journey.ARetry?)
    requires ValidDate(PromisedOn(failedAt, draws))
    ensures ValidDate(NextPayday(failedAt.date))
    ensures g.status == if g.recovered then Recovered else WaitingRetry
    ensures journey.APayday? ==> (g.recovered <==> PaydayHasCome(failedAt, asOf))
    ensures journey.ASwitch? ==> (g.recovered <==> HighTrust(p.segment) || p.segment.New?)
    ensures journey.ARetry? ==> (g.recovered <==> RetryAt(p, outages) <= asOf && RailRecovers(p))
    ensures ProgressOk(p, journey, diagnosedAt, g)
    ensures OnTime(p, failedAt, journey, draws, asOf, outages, g.status, diagnosedAt, g.completed, g.actions, g.audits)
  {
    NextPaydayIsFirst(failedAt.date);
    var audits := OpeningRows(p, diagnosedAt) + [AuditRow(p.id, PolicyEvaluated, diagnosedAt + 2 * MINUTE)];
    if journey.APayday? {
      g := AwaitPayday(p, failedAt, diagnosedAt, asOf, audits);
      assert IsDue(p, failedAt, journey, draws, asOf, outages, g.actions[1].scheduled);
    } else if journey.ASwitch? {
      g := AskToSwitch(p, diagnosedAt, audits);
      assert IsDue(p, failedAt, journey, draws, asOf, outages, 0);
    } else {
      g := RetryRail(p, diagnosedAt, asOf, outages, audits);
      assert IsDue(p, failedAt, journey, draws, asOf, outages, RetryAt(p, outages));
    }
  }

  /** One pass of the journey builder. */
  method BuildCase(p: Payment, journey: Journey, draws: Draws, asOf: int, outages: seq<Outage>) returns (file: CaseFile)
    requires ValidFailure(p)
    ensures var failedAt := MomentOf(p.createdAt);
            && ValidDate(PromisedOn(failedAt, draws)) && ValidDate(NextPayday(failedAt.date))
            && (file.case_.recovered <==> Recovers(p, failedAt, journey, draws, asOf, outages))
            && InTime(p, failedAt, journey, draws, asOf, outages, file) && AsDrawn(p, failedAt, draws, file.promises)
    ensures FileOk(p, journey, file)
    ensures file.case_.startedAt == p.createdAt + draws.diagnosisMinutes * MINUTE
  {
    file := BuildCaseAt(p, MomentOf(p.createdAt), journey, draws, asOf, outages);
  }

  method BuildCaseAt(p: Payment, failedAt: Moment, journey: Journey, draws: Draws, asOf: int, outages: seq<Outage>)
    returns (file: CaseFile)
    requires ValidFailure(p) && ValidMoment(failedAt)
    ensures ValidDate(PromisedOn(failedAt, draws)) && ValidDate(NextPayday(failedAt.date))
    ensures file.case_.recovered <==> Recovers(p, failedAt, journey, draws, asOf, outages)
    ensures InTime(p, failedAt, journey, draws, asOf, outages, file) && AsDrawn(p, failedAt, draws, file.promises)
    ensures FileOk(p, journey, file)
    ensures file.case_.startedAt == p.createdAt + draws.diagnosisMinutes * MINUTE
  {
    DaysLaterOrdinal(failedAt.date, draws.promiseDays);
    NextPaydayIsFirst(failedAt.date);
    var diagnosedAt := p.createdAt + draws.diagnosisMinutes * MINUTE;
    var g := Pursue(p, failedAt, journey, draws, diagnosedAt, asOf, outages);
    file := CloseFile(p, CaseOf(p, journey, diagnosedAt, g), g, asOf);
    StaysOnTime(p, failedAt, journey, draws, asOf, outages, g, file);
  }

  ghost predicate InTime(p: Payment, failedAt: Moment, journey: Journey, draws: Draws, asOf: int, outages: seq<Outage>,
                         file: CaseFile)
    requires ValidMoment(failedAt)
    requires ValidDate(PromisedOn(failedAt, draws)) && ValidDate(NextPayday(failedAt.date))
  {
    OnTime(p, failedAt, journey, draws, asOf, outages, file.case_.status, file.case_.startedAt,
           file.case_.completedAt, file.actions, file.audits)
  }

  /** The closing rows come after all that has its time. */
  lemma StaysOnTime(p: Payment, failedAt: Moment, journey: Journey, draws: Draws, asOf: int, outages: seq<Outage>,
                    g: Progress, file: CaseFile)
    requires ValidMoment(failedAt)
    requires ValidDate(PromisedOn(failedAt, draws)) && ValidDate(NextPayday(failedAt.date))
    requires OnTime(p, failedAt, journey, draws, asOf, outages, g.status, file.case_.startedAt, g.completed, g.actions,
                    g.audits)
    requires file.case_.status == g.status && file.case_.completedAt == g.completed
    requires file.actions == g.actions && g.audits <= file.audits
    ensures InTime(p, failedAt, journey, draws, asOf, outages, file)
  {
    var start := file.case_.startedAt;
    var due :| IsDue(p, failedAt, journey, draws, asOf, outages, due)
               && Timed(journey, g.status, start, due, g.completed, g.actions, g.audits);
    assert Timed(journey, g.status, start, due, g.completed, file.actions, file.audits);
  }

  function CaseOf(p: Payment, journey: Journey, diagnosedAt: int, g: Progress): Case
    requires p.reason.Some?
  {
    Case(p.id, p.customer, g.status, p.reason.value, diagnosedAt, g.completed, journey,
         g.recovered, g.suppressed, g.escalated, p.amount, p.createdAt + MINUTE)
  }

  /** The branch the journey takes. */
  method Pursue(p: Payment, failedAt: Moment, journey: Journey, draws: Draws, diagnosedAt: int, asOf: int,
                outages: seq<Outage>) returns (g: Progress)
    requires ValidFailure(p) && ValidMoment(failedAt)
    requires ValidDate(PromisedOn(failedAt, draws)) && ValidDate(NextPayday(failedAt.date))
    ensures g.recovered <==> Recovers(p, failedAt, journey, draws, asOf, outages)
    ensures ProgressOk(p, journey, diagnosedAt, g) && AsDrawn(p, failedAt, draws, g.promises)
    ensures OnTime(p, failedAt, journey, draws, asOf, outages, g.status, diagnosedAt, g.completed, g.actions, g.audits)
  {
    if journey.DAlreadyPaid? || journey.CStop? || journey.CEscalate? {
      g := CloseSuppressed(p, journey, diagnosedAt);
      assert IsDue(p, failedAt, journey, draws, asOf, outages, 0);
    } else if journey.BPromise? {
      g := TakePromise(p, failedAt, draws, diagnosedAt, asOf);
      assert IsDue(p, failedAt, journey, draws, asOf, outages, FulfilAt(failedAt, draws));
    } else {
      g := Chase(p, failedAt, journey, draws, diagnosedAt, asOf, outages);
    }
  }

  /** The retry payment and the closing rows of the trail. */
  method CloseFile(p: Payment, case_: Case, g: Progress, asOf: int) returns (file: CaseFile)
    requires case_.recovered == g.recovered && case_.status == g.status && case_.completedAt == g.completed
    requires (g.recovered <==> g.status.Recovered?) && (g.completed.Some? <==> HasEnded(g.status))
    requires TrailOk(p, case_.journey, g.status, case_.startedAt, g.audits)
    ensures file.case_ == case_ && file.actions == g.actions && file.promises == g.promises
    ensures file.retries == if case_.recovered then [RetryRow(p, case_.completedAt.value)] else []
    ensures AuditsOk(p, case_, file.audits) && g.audits <= file.audits
  {
    var retries := [];
    var audits := g.audits;
    if g.recovered {
      var retryTime := g.completed.GetOr(asOf);
      retries := [RetryRow(p, retryTime)];
      audits := audits + [AuditRow(p.id, PaymentCapturedAudit, retryTime)];
    }
    if g.completed.Some? && HasEnded(g.status) {
      audits := audits + [AuditRow(p.id, CaseClosed, g.completed.value)];
    }
    assert audits == g.audits + Ending(p, case_);
    file := CaseFile(case_, g.actions, g.promises, audits, retries);
  }
}
