/** The rows of the synthetic ledger. Ids are hashes of what they are built from, taken as
    injective; random draws are inputs. */
module Simulation {
  import opened Wrappers

  datatype Reason =
    | InsufficientFunds
    | UpiFailure
    | BankTimeout
    | CardExpired
    | MandateRevoked
    | CustomerCancelled
    | AlreadyPaid
    | Dispute
    | Unknown

  datatype Segment = HighValue | Loyal | Active | New | AtRisk | ChurnRisk

  datatype Rail = Upi | Card | Netbanking

  datatype PayMethod = UpiMethod | CardMethod | NetbankingMethod | WalletMethod | MandateMethod

  datatype PaymentId = FirstAttempt(index: nat) | RetryOf(id: PaymentId) | TopUp(number: nat)

  type CustomerId = nat
  type SubscriptionId = nat

  datatype PaymentStatus = Captured | FailedPayment

  datatype Payment = Payment(
    id: PaymentId,
    customer: CustomerId,
    subscription: SubscriptionId,
    status: PaymentStatus,
    reason: Option<Reason>,
    payMethod: PayMethod,
    amount: int,
    attempt: int,
    createdAt: int,
    paidAt: Option<int>,
    segment: Segment,
    salaryDependent: bool,
    isOriginalFailure: bool)

  datatype Outage = Outage(rail: Rail, reason: Reason, startedAt: int, endedAt: int) {
    predicate Contains(instant: int) {
      startedAt <= instant < endedAt
    }
  }

  function RailOf(m: PayMethod): Rail {
    match m
    case CardMethod => Card
    case NetbankingMethod => Netbanking
    case _ => Upi
  }

  predicate Covers(o: Outage, instant: int, m: PayMethod) {
    o.Contains(instant) && o.rail == RailOf(m)
  }

  /** The first listed outage of the payment's rail that covers the instant. */
  function MatchingOutage(instant: int, m: PayMethod, outages: seq<Outage>): Option<Outage> {
    if outages == [] then None
    else if Covers(outages[0], instant, m) then Some(outages[0])
    else MatchingOutage(instant, m, outages[1..])
  }

  lemma {:induction false} MatchingOutageIsFirst(instant: int, m: PayMethod, outages: seq<Outage>)
    ensures var o := MatchingOutage(instant, m, outages);
            if o.None? then forall i :: 0 <= i < |outages| ==> !Covers(outages[i], instant, m)
            else exists i :: 0 <= i < |outages| && outages[i] == o.value && Covers(outages[i], instant, m)
                   && forall j :: 0 <= j < i ==> !Covers(outages[j], instant, m)
  {
    if outages != [] && !Covers(outages[0], instant, m) {
      MatchingOutageIsFirst(instant, m, outages[1..]);
      var o := MatchingOutage(instant, m, outages[1..]);
      if o.Some? {
        var i :| 0 <= i < |outages| - 1 && outages[1..][i] == o.value && Covers(outages[1..][i], instant, m)
          && forall j :: 0 <= j < i ==> !Covers(outages[1..][j], instant, m);
        forall j | 0 <= j < i + 1 ensures !Covers(outages[j], instant, m) {
          if j > 0 { assert outages[j] == outages[1..][j - 1]; }
        }
        assert outages[i + 1] == o.value;
      } else {
        forall i | 0 <= i < |outages| ensures !Covers(outages[i], instant, m) {
          if i > 0 { assert outages[i] == outages[1..][i - 1]; }
        }
      }
    }
  }

  /** An outage covers a payment from its start up to but not including its end, on the card and
      net-banking rails for those methods and on the UPI rail for all others. */
  lemma CoversExactly(o: Outage, instant: int, m: PayMethod)
    ensures Covers(o, instant, m) <==>
            && o.startedAt <= instant && instant < o.endedAt
            && (o.rail == Card <==> m == CardMethod)
            && (o.rail == Netbanking <==> m == NetbankingMethod)
            && (o.rail == Upi <==> m in {UpiMethod, WalletMethod, MandateMethod})
  {
  }

  /** A draw decides the failure reason unless an outage of the rail does. */
  function PickFailureReason(instant: int, m: PayMethod, drawn: Reason, outages: seq<Outage>): Reason {
    var outage := MatchingOutage(instant, m, outages);
    if outage.Some? then outage.value.reason else drawn
  }
}
