/** Settlement over ticks: what Settlement.dfy proves of runs, for the worker's loop. */
module TickSettlement {
  import opened Wrappers
  import opened Domain
  import opened Scheduler
  import opened ActionStore
  import opened Steps
  import opened Invariants
  import opened StepInvariants
  import opened Runs
  import opened QueueAgreement
  import opened Settlement
  import opened Tick

  lemma {:induction false} DispatchesAppend(s: State, first: seq<Step>, second: seq<Step>, k: Key)
    ensures Dispatches(s, first + second, k) == Dispatches(s, first, k) + Dispatches(Execute(s, first), second, k)
  {
    if second == [] {
      assert first + second == first;
    } else {
      var n := |second| - 1;
      assert (first + second)[..|first + second| - 1] == first + second[..n];
      DispatchesAppend(s, first, second[..n], k);
      ExecuteAppend(s, first, second[..n]);
    }
  }

  /** The feed loads the case and plans it under the key it had. */
  ghost predicate KeepsKey(feed: Feed, k: Key) {
    feed.Loaded? && feed.ctx.plan.caseId == Some(k.caseId) && MakeKey(k.caseId, feed.ctx.plan) == k
  }

  /** A turn on the row of `k` under an unchanged key is a due dispatch of `k`. */
  lemma TurnDispatches(s: State, record: Record, feed: Feed, k: Key)
    requires Snapshot(s, record) && record.id == k && KeepsKey(feed, k)
    ensures Dispatches(s, TurnSteps(s, record, feed), k) >= 1
  {
    var due := DueStep(record, feed.ctx, feed.env);
    assert [due][..0] == [];
    assert DueOn(Execute(s, []), due, k);
    assert Dispatches(s, [due], k) == 1;
    DispatchesAppend(s, [due], TurnSteps(s, record, feed)[1..], k);
    assert [due] + TurnSteps(s, record, feed)[1..] == TurnSteps(s, record, feed);
  }

  lemma OneMoreDispatch(s: State, before: seq<Step>, record: Record, feed: Feed, k: Key) returns (steps: seq<Step>)
    requires Legal(s, before) && Snapshot(Execute(s, before), record)
    ensures Legal(s, steps) && Execute(s, steps) == Turn(Execute(s, before), record, feed)
    ensures Dispatches(s, steps, k) >= Dispatches(s, before, k) + if record.id == k && KeepsKey(feed, k) then 1 else 0
  {
    steps := OneMoreTurn(s, before, record, feed);
    DispatchesAppend(s, before, TurnSteps(Execute(s, before), record, feed), k);
    if record.id == k && KeepsKey(feed, k) {
      TurnDispatches(Execute(s, before), record, feed, k);
    }
  }

  /** The turns of a tick as a run; the one on the row of `k` is a due dispatch of it. */
  lemma {:induction false} TurnsDispatch(s: State, due: seq<Record>, feed: nat -> Feed, n: nat, k: Key, p: nat)
    returns (steps: seq<Step>)
    requires n <= |due| && Valid(s) && AllSnapshots(s, due)
    ensures Legal(s, steps) && Turns(s, due, feed, n) == Execute(s, steps)
    ensures p < n && due[p].id == k && KeepsKey(feed(p), k) ==> Dispatches(s, steps, k) >= 1
  {
    if n == 0 {
      steps := [];
    } else {
      var before := TurnsDispatch(s, due, feed, n - 1, k, p);
      SnapshotsAfter(s, before, due);
      steps := OneMoreDispatch(s, before, due[n - 1], feed(n - 1), k);
    }
  }

  /** At this tick the row of `k`, if it is waiting, is due and planned under the key it had. */
  ghost predicate Attends(s: State, r: Round, k: Key) {
    Waiting(s, k) ==>
      && s.actions[k].scheduledTime.Some? && s.actions[k].scheduledTime.value <= r.clock
      && forall p :: 0 <= p < |r.due| && r.due[p].id == k ==> KeepsKey(r.feed(p), k)
  }

  lemma WorklistHas(s: State, r: Round, k: Key) returns (p: nat)
    requires Valid(s) && RoundOk(s, r) && Waiting(s, k) && Attends(s, r, k)
    ensures p < |r.due| && r.due[p].id == k && KeepsKey(r.feed(p), k)
  {
    DueRowsAreWaiting(s, r.clock, k);
    assert k in Ids(r.due);
    p :| 0 <= p < |r.due| && Ids(r.due)[p] == k;
    assert r.due[p].id == k;
  }

  lemma RoundDispatches(s: State, r: Round, k: Key) returns (steps: seq<Step>)
    requires Valid(s) && RoundOk(s, r)
    ensures Legal(s, steps) && AfterRound(s, r) == Execute(s, steps)
    ensures Waiting(s, k) && Attends(s, r, k) ==> Dispatches(s, steps, k) >= 1
  {
    var claimed := AfterClaim(s, r.clock);
    var p := 0;
    if Waiting(s, k) && Attends(s, r, k) {
      p := WorklistHas(s, r, k);
    }
    ClaimKeeps(s, r.clock);
    SnapshotsOfRows(s, claimed, r.due);
    var turns := TurnsDispatch(claimed, r.due, r.feed, |r.due|, k, p);
    OneStep(s, ClaimStep(r.clock));
    ExecuteAppend(s, [ClaimStep(r.clock)], turns);
    DispatchesAppend(s, [ClaimStep(r.clock)], turns, k);
    steps := [ClaimStep(r.clock)] + turns;
  }

  function AfterRounds(s: State, rounds: seq<Round>): State {
    if rounds == [] then s
    else AfterRound(AfterRounds(s, rounds[..|rounds| - 1]), rounds[|rounds| - 1])
  }

  ghost predicate RoundsOk(s: State, rounds: seq<Round>, k: Key) {
    forall j :: 0 <= j < |rounds| ==>
      RoundOk(AfterRounds(s, rounds[..j]), rounds[j]) && Attends(AfterRounds(s, rounds[..j]), rounds[j], k)
  }

  /** At some moment of the run the row of `k` was not waiting. */
  ghost predicate RestsDuring(s: State, steps: seq<Step>, k: Key) {
    exists n :: 0 <= n <= |steps| && !Waiting(Execute(s, steps[..n]), k)
  }

  lemma RestsDuringMore(s: State, steps: seq<Step>, more: seq<Step>, k: Key)
    requires RestsDuring(s, steps, k)
    ensures RestsDuring(s, steps + more, k)
  {
    var n :| 0 <= n <= |steps| && !Waiting(Execute(s, steps[..n]), k);
    assert (steps + more)[..n] == steps[..n];
  }

  lemma OneMoreRound(s: State, before: seq<Step>, r: Round, k: Key) returns (steps: seq<Step>)
    requires Legal(s, before) && Valid(Execute(s, before))
    requires RoundOk(Execute(s, before), r) && Attends(Execute(s, before), r, k)
    ensures Legal(s, steps) && Execute(s, steps) == AfterRound(Execute(s, before), r)
    ensures RestsDuring(s, before, k) ==> RestsDuring(s, steps, k)
    ensures RestsDuring(s, before, k) || Dispatches(s, steps, k) >= Dispatches(s, before, k) + 1
  {
    var mid := Execute(s, before);
    var more := RoundDispatches(mid, r, k);
    steps := before + more;
    ExecuteAppend(s, before, more);
    DispatchesAppend(s, before, more, k);
    if RestsDuring(s, before, k) {
      RestsDuringMore(s, before, more, k);
    } else {
      assert before[..|before|] == before;
      assert Waiting(mid, k);
    }
  }

  /** Ticks as a legal run: unless the row came to rest on the way, each of them dispatched it. */
  lemma {:induction false} RoundsAreARun(s: State, rounds: seq<Round>, k: Key) returns (steps: seq<Step>)
    requires Valid(s) && RoundsOk(s, rounds, k)
    ensures Legal(s, steps) && Execute(s, steps) == AfterRounds(s, rounds)
    ensures RestsDuring(s, steps, k) || Dispatches(s, steps, k) >= |rounds|
    decreases |rounds|
  {
    if rounds == [] {
      steps := [];
    } else {
      var n := |rounds| - 1;
      RoundsPrefix(s, rounds, k);
      var before := RoundsAreARun(s, rounds[..n], k);
      var mid := AfterRounds(s, rounds[..n]);
      RunKeeps(s, before);
      assert RoundOk(mid, rounds[n]) && Attends(mid, rounds[n], k);
      steps := OneMoreRound(s, before, rounds[n], k);
    }
  }

  lemma RoundsPrefix(s: State, rounds: seq<Round>, k: Key)
    requires RoundsOk(s, rounds, k) && rounds != []
    ensures RoundsOk(s, rounds[..|rounds| - 1], k)
  {
    var n := |rounds| - 1;
    forall j | 0 <= j < n
      ensures RoundOk(AfterRounds(s, rounds[..n][..j]), rounds[..n][j])
      ensures Attends(AfterRounds(s, rounds[..n][..j]), rounds[..n][j], k)
    {
      assert rounds[..n][..j] == rounds[..j];
    }
  }

  lemma SettledRests(s: State, steps: seq<Step>, k: Key)
    requires Settled(s, steps, k)
    ensures RestsDuring(s, steps, k)
  {
    var i :| 0 <= i < |steps| && DueOn(Execute(s, steps[..i]), steps[i], k) && !UnsettledAt(s, steps, k, i);
    assert !Waiting(Execute(s, steps[..i]), k) || !Waiting(Execute(s, steps[..i + 1]), k);
  }

  /** However many other rows the ticks work on, and whatever sandbox and messages do, an
      execution that is no wait comes to rest within one tick more than its key has retries
      left, provided each tick finds it due and plans it under the key it had. */
  lemma SettlesOverTicks(s: State, rounds: seq<Round>, k: Key) returns (steps: seq<Step>)
    requires Valid(s) && RoundsOk(s, rounds, k) && !IsWait(k.strategy)
    requires |rounds| + AtMostCap(Failures(s.calls, k)) > MAX_RETRY_ATTEMPTS
    ensures Legal(s, steps) && Execute(s, steps) == AfterRounds(s, rounds)
    ensures RestsDuring(s, steps, k)
  {
    steps := RoundsAreARun(s, rounds, k);
    if Dispatches(s, steps, k) >= |rounds| {
      Settles(s, steps, k);
      SettledRests(s, steps, k);
    }
  }
}
