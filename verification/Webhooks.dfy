/** The webhook inbox: original deliveries, then duplicates read off the growing list. */
module Webhooks {
  import opened Arithmetic

  type PaymentRef = nat

  /** A hash of the position and the payment, taken as injective. */
  datatype EventId = EventId(index: nat, payment: PaymentRef)

  datatype EventType = Failed | Captured | Authorized | LinkPaid | Cancelled | Charged

  datatype State = WasFailed | WasCaptured | WasRecovered | OtherState

  datatype Source = Source(payment: PaymentRef, createdAt: int, state: State)

  datatype Draw = Draw(linkPaid: bool, subscriptionEvent: bool, delay: int, verified: bool)

  datatype Row = Row(event: EventId, kind: EventType, verified: bool, createdAt: int, processedAt: int,
                     payment: PaymentRef)

  /** Which event an original delivery reports, by the payment's state and the two draws. */
  lemma KindExactly(p: Source, draw: Draw)
    ensures var kind := KindOf(p, draw);
            && (kind == Cancelled <==> draw.subscriptionEvent && p.state == WasFailed)
            && (kind == Charged <==> draw.subscriptionEvent && p.state != WasFailed)
            && (kind == Failed <==> !draw.subscriptionEvent && p.state == WasFailed)
            && (kind == LinkPaid <==> !draw.subscriptionEvent && p.state == WasCaptured && draw.linkPaid)
            && (kind == Captured <==>
                  !draw.subscriptionEvent && (p.state == WasRecovered || (p.state == WasCaptured && !draw.linkPaid)))
            && (kind == Authorized <==> !draw.subscriptionEvent && p.state == OtherState)
  {
  }

  /** An original is dated by its payment, processed after its draw, and no two share an event. */
  lemma OriginalsExactly(pool: seq<Source>, draws: nat -> Draw, rows: seq<Row>, i: nat)
    requires Originals(pool, draws, rows) && i < |rows|
    ensures rows[i].payment == pool[i].payment && rows[i].kind == KindOf(pool[i], draws(i))
    ensures rows[i].createdAt == pool[i].createdAt && rows[i].processedAt == pool[i].createdAt + draws(i).delay
    ensures rows[i].verified == draws(i).verified
    ensures forall j :: 0 <= j < |rows| && rows[j].event == rows[i].event ==> j == i
  {
  }

  /** The subscription test of the source looks at the text of an id, which is never empty,
      so only the draw decides. */
  function KindOf(p: Source, draw: Draw): EventType {
    if draw.subscriptionEvent then if p.state.WasFailed? then Cancelled else Charged
    else if p.state.WasCaptured? && draw.linkPaid then LinkPaid
    else match p.state
      case WasFailed => Failed
      case WasCaptured => Captured
      case WasRecovered => Captured
      case OtherState => Authorized
  }

  function Original(p: Source, index: nat, draw: Draw): Row {
    Row(EventId(index, p.payment), KindOf(p, draw), draw.verified, p.createdAt, p.createdAt + draw.delay, p.payment)
  }

  /** What differs between deliveries of one event: only the times. */
  predicate SameEvent(a: Row, b: Row) {
    a.event == b.event && a.kind == b.kind && a.verified == b.verified && a.payment == b.payment
  }

  /** With no original there is no source to duplicate, and indexing fails. */
  datatype Inbox = IndexError | Inbox(rows: seq<Row>)

  ghost predicate Originals(pool: seq<Source>, draws: nat -> Draw, rows: seq<Row>) {
    |rows| <= |pool| && forall i :: 0 <= i < |rows| ==> rows[i] == Original(pool[i], i, draws(i))
  }

  /** Every row from the u-th on repeats the row u places before it, later than it. */
  ghost predicate Duplicates(rows: seq<Row>, u: nat) {
    forall j :: u <= j < |rows| ==>
      && SameEvent(rows[j], rows[j - u])
      && rows[j].createdAt == rows[j - u].createdAt + 30 + (j - u)
      && rows[j].processedAt == rows[j].createdAt
  }

  /** The first deliveries. */
  method MakeOriginals(selected: seq<Source>, draws: nat -> Draw) returns (rows: seq<Row>)
    ensures |rows| == |selected| && Originals(selected, draws, rows)
  {
    rows := [];
    for index := 0 to |selected|
      invariant |rows| == index && Originals(selected, draws, rows)
    {
      var p := selected[index];
      var draw := draws(index);
      var kind := match p.state
        case WasFailed => Failed
        case WasCaptured => Captured
        case WasRecovered => Captured
        case OtherState => Authorized;
      if p.state.WasCaptured? && draw.linkPaid {
        kind := LinkPaid;
      }
      if draw.subscriptionEvent {
        kind := if p.state.WasFailed? then Cancelled else Charged;
      }
      rows := rows + [
        Row(EventId(index, p.payment), kind, draw.verified, p.createdAt, p.createdAt + draw.delay, p.payment)];
    }
  }

  /** The duplicates, each read off the list as it grows. */
  method AddDuplicates(originals: seq<Row>, needed: nat) returns (rows: seq<Row>)
    requires originals != []
    ensures |rows| == |originals| + needed && rows[..|originals|] == originals
    ensures Duplicates(rows, |originals|)
  {
    rows := originals;
    for dup := 0 to needed
      invariant |rows| == |originals| + dup && rows[..|originals|] == originals
      invariant Duplicates(rows, |originals|)
    {
      RemainderOfSmall(dup, |rows|);
      var source := rows[dup % Max(1, |rows|)];
      var created := source.createdAt + 30 + dup;
      rows := rows + [source.(createdAt := created, processedAt := created)];
    }
  }

  /** `pool` is the shuffled payment list; times are in seconds. */
  method GenerateWebhooks(n: nat, uniqueTarget: nat, pool: seq<Source>, draws: nat -> Draw)
    returns (inbox: Inbox)
    ensures var u := Min(|pool|, uniqueTarget);
            && (inbox.IndexError? <==> u == 0 && n > 0)
            && (inbox.Inbox? ==>
                  && |inbox.rows| == n
                  && Originals(pool, draws, inbox.rows[..Min(u, n)])
                  && Duplicates(inbox.rows, u))
  {
    var selected := pool[..Min(|pool|, uniqueTarget)];
    var rows := MakeOriginals(selected, draws);
    assert Originals(pool, draws, rows);
    var needed := n - |rows|;
    assert rows[..|rows|] == rows;
    if needed > 0 {
      if rows == [] {
        return IndexError;
      }
      rows := AddDuplicates(rows, needed);
    }
    assert rows[..n][..Min(|selected|, n)] == rows[..|selected|][..Min(|selected|, n)];
    inbox := Inbox(rows[..n]);
  }

  /** The original a row goes back to, u places at a time. */
  function Origin(j: nat, u: nat): (o: nat)
    requires 0 < u
    ensures o < u && o <= j && (j >= u ==> o <= j - u)
  {
    if j < u then j else Origin(j - u, u)
  }

  lemma {:induction false} OriginIsRemainder(j: nat, u: nat)
    requires 0 < u
    ensures j % u == Origin(j, u)
  {
    if j < u {
      RemainderOfSmall(j, u);
    } else {
      OriginIsRemainder(j - u, u);
      RemainderShift(j - u, u);
    }
  }

  lemma {:induction false} RowRepeatsOrigin(rows: seq<Row>, u: nat, j: nat)
    requires 0 < u <= |rows| && Duplicates(rows, u) && j < |rows|
    ensures SameEvent(rows[j], rows[Origin(j, u)])
    ensures rows[Origin(j, u)].createdAt <= rows[j].createdAt
    ensures j >= u ==> rows[Origin(j, u)].createdAt < rows[j].createdAt
  {
    if j >= u {
      RowRepeatsOrigin(rows, u, j - u);
    }
  }

  /** The modulus grows with the list, yet row j carries the event of row j mod u; and every
      duplicate is later than its original. */
  lemma EventsCycle(rows: seq<Row>, u: nat, j: nat)
    requires 0 < u <= |rows| && Duplicates(rows, u) && j < |rows|
    ensures var o := j % u;
            o < |rows| && SameEvent(rows[j], rows[o]) && (j >= u ==> rows[o].createdAt < rows[j].createdAt)
  {
    OriginIsRemainder(j, u);
    RowRepeatsOrigin(rows, u, j);
  }

  predicate Has(rows: seq<Row>, event: EventId) {
    exists i :: 0 <= i < |rows| && rows[i].event == event
  }

  /** Keep the first delivery of every event. */
  function KeepFirst(rows: seq<Row>): seq<Row> {
    if rows == [] then []
    else
      var last := rows[|rows| - 1];
      var kept := KeepFirst(rows[..|rows| - 1]);
      if Has(rows[..|rows| - 1], last.event) then kept else kept + [last]
  }

  lemma {:induction false} DistinctKept(rows: seq<Row>)
    requires forall i, j :: 0 <= i < j < |rows| ==> rows[i].event != rows[j].event
    ensures KeepFirst(rows) == rows
  {
    if rows != [] {
      var n := |rows| - 1;
      DistinctKept(rows[..n]);
      assert rows == rows[..n] + [rows[n]];
    }
  }

  lemma {:induction false} RepeatsDropped(rows: seq<Row>, u: nat, n: nat)
    requires 0 < u <= n <= |rows| && Duplicates(rows, u)
    ensures KeepFirst(rows[..n]) == KeepFirst(rows[..u])
  {
    if u < n {
      RepeatsDropped(rows, u, n - 1);
      assert rows[..n][..n - 1] == rows[..n - 1];
      assert rows[..n - 1][n - 1 - u].event == rows[n - 1].event;
    }
  }

  /** De-duplicating the inbox gives back exactly the original deliveries. */
  lemma DedupUndoesDuplication(n: nat, u: nat, pool: seq<Source>, draws: nat -> Draw, rows: seq<Row>)
    requires 0 < u <= n == |rows|
    requires Originals(pool, draws, rows[..u]) && Duplicates(rows, u)
    ensures KeepFirst(rows) == rows[..u]
  {
    RepeatsDropped(rows, u, n);
    assert rows[..n] == rows;
    forall i, j | 0 <= i < j < u
      ensures rows[..u][i].event != rows[..u][j].event
    {
      assert rows[..u][i] == Original(pool[i], i, draws(i)) && rows[..u][j] == Original(pool[j], j, draws(j));
    }
    DistinctKept(rows[..u]);
  }
}
