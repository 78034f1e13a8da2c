/** The worker's tick: gather due rows and claimed jobs, work on each, release what failed. */
module Tick {
  import opened Domain
  import opened Mapping
  import opened Scheduler
  import opened ActionStore
  import opened Steps
  import opened Invariants
  import opened StepInvariants
  import opened Runs
  import opened Orchestrator

  /** What loading and planning one case yields: nothing (an exception), or a context. */
  datatype Feed = LoadFails | Loaded(ctx: Context, env: Env)

  /** The rows a tick has to work on: due by their own columns, or claimed through the queue. */
  function TickKeys(s: State, clock: Time): set<Key> {
    DueRows(s.actions, clock) + DueKeys(s.jobs, clock)
  }

  /** One row's turn: any exception is absorbed and gives the job back to the queue. */
  function Turn(s: State, record: Record, feed: Feed): State {
    match feed
    case LoadFails => AfterRelease(s, record.id)
    case Loaded(ctx, env) =>
      var res := RanDue(s, record, ctx, env);
      if res.outcome.Raised? then AfterRelease(res.state, record.id) else res.state
  }

  /** The turns of the first n rows. */
  function Turns(s: State, due: seq<Record>, feed: nat -> Feed, n: nat): State
    requires n <= |due|
  {
    if n == 0 then s else Turn(Turns(s, due, feed, n - 1), due[n - 1], feed(n - 1))
  }

  function TurnResult(s: State, record: Record, feed: Feed): seq<Result> {
    if feed.Loaded? && RanDue(s, record, feed.ctx, feed.env).outcome.Done?
    then [RanDue(s, record, feed.ctx, feed.env).outcome.result]
    else []
  }

  /** The results of the first n rows' turns: those that raised contribute none. */
  function Results(s: State, due: seq<Record>, feed: nat -> Feed, n: nat): seq<Result>
    requires n <= |due|
  {
    if n == 0 then []
    else Results(s, due, feed, n - 1) + TurnResult(Turns(s, due, feed, n - 1), due[n - 1], feed(n - 1))
  }

  /** A tick reports the answer of every turn whose run came to one, in the order of the turns,
      and nothing of those that could not be loaded or raised. */
  lemma {:induction false} ResultsExactly(s: State, due: seq<Record>, feed: nat -> Feed, n: nat, i: nat)
    requires i < n <= |due|
    ensures |Results(s, due, feed, n)| == AnswerCount(s, due, feed, n)
    ensures var before := Turns(s, due, feed, i);
            Answers(before, due[i], feed(i)) ==>
              && AnswerCount(s, due, feed, i) < AnswerCount(s, due, feed, n)
              && Results(s, due, feed, n)[AnswerCount(s, due, feed, i)] == AnswerOf(before, due[i], feed(i))
  {
    OneMoreResult(s, due, feed, n - 1, Turns(s, due, feed, n - 1));
    if i < n - 1 {
      ResultsExactly(s, due, feed, n - 1, i);
    } else {
      ResultsCounted(s, due, feed, i);
    }
  }

  lemma {:induction false} ResultsCounted(s: State, due: seq<Record>, feed: nat -> Feed, n: nat)
    requires n <= |due|
    ensures |Results(s, due, feed, n)| == AnswerCount(s, due, feed, n)
  {
    if n > 0 {
      OneMoreResult(s, due, feed, n - 1, Turns(s, due, feed, n - 1));
      ResultsCounted(s, due, feed, n - 1);
    }
  }

  lemma OneMoreResult(s: State, due: seq<Record>, feed: nat -> Feed, n: nat, before: State)
    requires n < |due| && before == Turns(s, due, feed, n)
    ensures Results(s, due, feed, n + 1) == Results(s, due, feed, n) +
              if Answers(before, due[n], feed(n)) then [AnswerOf(before, due[n], feed(n))] else []
    ensures AnswerCount(s, due, feed, n + 1) == AnswerCount(s, due, feed, n) +
              if Answers(before, due[n], feed(n)) then 1 else 0
  {
  }

  predicate Answers(s: State, record: Record, feed: Feed) {
    feed != LoadFails && RanDue(s, record, feed.ctx, feed.env).outcome.Done?
  }

  function AnswerOf(s: State, record: Record, feed: Feed): Result
    requires Answers(s, record, feed)
  {
    RanDue(s, record, feed.ctx, feed.env).outcome.result
  }

  function AnswerCount(s: State, due: seq<Record>, feed: nat -> Feed, n: nat): nat
    requires n <= |due|
  {
    if n == 0 then 0
    else
      AnswerCount(s, due, feed, n - 1) +
      if Answers(Turns(s, due, feed, n - 1), due[n - 1], feed(n - 1)) then 1 else 0
  }

  /** One row's turn as steps of a run. */
  function TurnSteps(s: State, record: Record, feed: Feed): seq<Step> {
    match feed
    case LoadFails => [ReleaseStep(record.id)]
    case Loaded(ctx, env) =>
      [DueStep(record, ctx, env)] +
      if RanDue(s, record, ctx, env).outcome.Raised? then [ReleaseStep(record.id)] else []
  }

  lemma {:induction false} ExecuteAppend(s: State, first: seq<Step>, second: seq<Step>)
    ensures Execute(s, first + second) == Execute(Execute(s, first), second)
    ensures Legal(s, first) && Legal(Execute(s, first), second) ==> Legal(s, first + second)
  {
    if second == [] {
      assert first + second == first;
    } else {
      var n := |second| - 1;
      assert (first + second)[..|first + second| - 1] == first + second[..n];
      ExecuteAppend(s, first, second[..n]);
    }
  }

  lemma OneStep(s: State, step: Step)
    ensures Execute(s, [step]) == Apply(s, step)
    ensures Enabled(s, step) ==> Legal(s, [step])
  {
    assert [step][..0] == [];
  }

  lemma TurnIsSteps(s: State, record: Record, feed: Feed)
    requires Snapshot(s, record)
    ensures Turn(s, record, feed) == Execute(s, TurnSteps(s, record, feed))
    ensures Legal(s, TurnSteps(s, record, feed))
  {
    if feed.LoadFails? {
      OneStep(s, ReleaseStep(record.id));
    } else {
      var due := DueStep(record, feed.ctx, feed.env);
      OneStep(s, due);
      if RanDue(s, record, feed.ctx, feed.env).outcome.Raised? {
        OneStep(Apply(s, due), ReleaseStep(record.id));
        ExecuteAppend(s, [due], [ReleaseStep(record.id)]);
      } else {
        assert TurnSteps(s, record, feed) == [due];
      }
    }
  }

  ghost predicate AllSnapshots(s: State, rows: seq<Record>) {
    forall i :: 0 <= i < |rows| ==> Snapshot(s, rows[i])
  }

  lemma SnapshotsAfter(s: State, steps: seq<Step>, rows: seq<Record>)
    requires Valid(s) && Legal(s, steps) && AllSnapshots(s, rows)
    ensures Valid(Execute(s, steps)) && AllSnapshots(Execute(s, steps), rows)
  {
    RunKeeps(s, steps);
    forall i | 0 <= i < |rows| ensures Snapshot(Execute(s, steps), rows[i]) {
      FitsLater(s, Execute(s, steps), rows[i]);
    }
  }

  lemma OneMoreTurn(s: State, before: seq<Step>, record: Record, feed: Feed) returns (steps: seq<Step>)
    requires Legal(s, before) && Snapshot(Execute(s, before), record)
    ensures steps == before + TurnSteps(Execute(s, before), record, feed)
    ensures Legal(s, steps) && Execute(s, steps) == Turn(Execute(s, before), record, feed)
  {
    TurnIsSteps(Execute(s, before), record, feed);
    ExecuteAppend(s, before, TurnSteps(Execute(s, before), record, feed));
    steps := before + TurnSteps(Execute(s, before), record, feed);
  }

  /** The turns of a tick are a legal run, so everything proved about runs holds across
      ticks, for rows read before the first turn. */
  lemma {:induction false} TurnsAreARun(s: State, due: seq<Record>, feed: nat -> Feed, n: nat)
    returns (steps: seq<Step>)
    requires n <= |due| && Valid(s) && AllSnapshots(s, due)
    ensures Legal(s, steps) && Turns(s, due, feed, n) == Execute(s, steps)
  {
    if n == 0 {
      steps := [];
    } else {
      var before := TurnsAreARun(s, due, feed, n - 1);
      SnapshotsAfter(s, before, due);
      steps := OneMoreTurn(s, before, due[n - 1], feed(n - 1));
    }
  }

  /** A turn that raised leaves no claimed job behind for its row. */
  lemma FailedTurnReleases(s: State, record: Record, feed: Feed)
    ensures (feed.LoadFails? || RanDue(s, record, feed.ctx, feed.env).outcome.Raised?) ==>
              var s' := Turn(s, record, feed);
              record.id in s'.jobs ==> !s'.jobs[record.id].status.Running?
  {
  }

  /** The rows due by their columns are those shown as waiting whose time has come. */
  lemma DueRowsAreWaiting(s: State, clock: Time, k: Key)
    requires Valid(s)
    ensures k in DueRows(s.actions, clock) <==>
            && k in s.actions
            && IsWaiting(DisplayOf(s.actions[k]))
            && s.actions[k].scheduledTime.Some?
            && s.actions[k].scheduledTime.value <= clock
  {
    assert KeyOk(s, k);
  }

  /** A tick that re-plans a due row under another key leaves it due for the next tick, even
      though its job stays claimed. */
  lemma OtherPlanStaysDue(s: State, record: Record, ctx: Context, env: Env, clock: Time)
    requires Valid(s) && Snapshot(s, record) && !IsWait(record.id.strategy)
    requires record.id !in RunKeys(ctx, false, true)
    ensures record.id in DueRows(s.actions, clock) ==>
              record.id in DueRows(Turn(s, record, Loaded(ctx, env)).actions, clock)
  {
    RanDueKeeps(s, record, ctx, env);
    assert Untouched(s, RanDue(s, record, ctx, env).state, record.id);
  }

  // Whole ticks

  /** One tick: its clock, its worklist in the order it is taken, and what loading yields. */
  datatype Round = Round(clock: Time, due: seq<Record>, feed: nat -> Feed)

  /** The worklist holds every due row and every claimed job's row once, as stored. */
  ghost predicate RoundOk(s: State, r: Round) {
    && Enumerates(Ids(r.due), TickKeys(s, r.clock))
    && forall i :: 0 <= i < |r.due| ==> r.due[i].id in s.actions && r.due[i] == s.actions[r.due[i].id]
  }

  /** A tick works on the rows shown as scheduled or retrying whose time has come, and on those
      with a pending job whose time has come, and on no others. */
  lemma WorklistExactly(s: State, r: Round, k: Key)
    requires Valid(s) && RoundOk(s, r)
    ensures (exists p :: 0 <= p < |r.due| && r.due[p].id == k) <==>
            || (k in s.actions && DisplayOf(s.actions[k]) in {Scheduled, Retrying}
                && s.actions[k].scheduledTime.Some? && s.actions[k].scheduledTime.value <= r.clock)
            || (k in s.jobs && s.jobs[k].status == Pending && s.jobs[k].runAt <= r.clock)
  {
    DueRowsAreWaiting(s, r.clock, k);
    assert k in Ids(r.due) <==> k in TickKeys(s, r.clock);
    if k in Ids(r.due) {
      var p :| 0 <= p < |r.due| && Ids(r.due)[p] == k;
      assert r.due[p].id == k;
    }
    if p :| 0 <= p < |r.due| && r.due[p].id == k {
      assert Ids(r.due)[p] == k;
    }
  }

  function AfterRound(s: State, r: Round): State {
    Turns(AfterClaim(s, r.clock), r.due, r.feed, |r.due|)
  }

  /** A tick is a legal run: the claim, then the turns. */
  lemma RoundIsARun(s: State, r: Round) returns (steps: seq<Step>)
    requires Valid(s) && RoundOk(s, r)
    ensures Legal(s, steps) && AfterRound(s, r) == Execute(s, steps)
  {
    var claimed := AfterClaim(s, r.clock);
    ClaimKeeps(s, r.clock);
    SnapshotsOfRows(s, claimed, r.due);
    var turns := TurnsAreARun(claimed, r.due, r.feed, |r.due|);
    OneStep(s, ClaimStep(r.clock));
    ExecuteAppend(s, [ClaimStep(r.clock)], turns);
    steps := [ClaimStep(r.clock)] + turns;
  }

  /**
    Works on every due row and every claimed job once. `due` is the merged worklist, in
    the unspecified order of the store and the queue.
   */
  method TickDue(orchestrator: ActionOrchestrator, clock: Time, feed: nat -> Feed)
    returns (results: seq<Result>, ghost due: seq<Record>, ghost steps: seq<Step>)
    requires Valid(orchestrator.Contents()) && orchestrator.Valid()
    modifies orchestrator, orchestrator.store, orchestrator.razorpay, orchestrator.scheduler
    ensures orchestrator.Valid()
    ensures RoundOk(old(orchestrator.Contents()), Round(clock, due, feed))
    ensures orchestrator.Contents() == AfterRound(old(orchestrator.Contents()), Round(clock, due, feed))
    ensures Legal(old(orchestrator.Contents()), steps)
    ensures orchestrator.Contents() == Execute(old(orchestrator.Contents()), steps)
    ensures results == Results(AfterClaim(old(orchestrator.Contents()), clock), due, feed, |due|)
  {
    ghost var start := orchestrator.Contents();
    var rows := orchestrator.store.ListDue(clock);
    var claimed := orchestrator.scheduler.ClaimDue(clock);
    rows := Merge(orchestrator.store, rows, claimed, start, clock);
    due := rows;
    assert orchestrator.Contents() == AfterClaim(start, clock);
    steps := RoundIsARun(start, Round(clock, rows, feed));
    results := WorkOff(orchestrator, rows, feed);
  }

  method TakeTurn(orchestrator: ActionOrchestrator, record: Record, feed: Feed) returns (results: seq<Result>)
    requires orchestrator.Valid() && record.meta.key == record.id
    modifies orchestrator, orchestrator.store, orchestrator.razorpay, orchestrator.scheduler
    ensures orchestrator.Valid()
    ensures orchestrator.Contents() == Turn(old(orchestrator.Contents()), record, feed)
    ensures results == TurnResult(old(orchestrator.Contents()), record, feed)
  {
    results := [];
    match feed {
      case LoadFails =>
        orchestrator.scheduler.Release(record.id);
      case Loaded(ctx, env) =>
        var outcome := orchestrator.RunDue(record, ctx, env);
        if outcome.Raised? {
          orchestrator.scheduler.Release(record.id);
        } else {
          results := [outcome.result];
        }
    }
  }

  /** Every row gets its turn, whether or not the ones before it failed. */
  method WorkOff(orchestrator: ActionOrchestrator, rows: seq<Record>, feed: nat -> Feed) returns (results: seq<Result>)
    requires orchestrator.Valid()
    requires forall i :: 0 <= i < |rows| ==> rows[i].meta.key == rows[i].id
    modifies orchestrator, orchestrator.store, orchestrator.razorpay, orchestrator.scheduler
    ensures orchestrator.Valid()
    ensures orchestrator.Contents() == Turns(old(orchestrator.Contents()), rows, feed, |rows|)
    ensures results == Results(old(orchestrator.Contents()), rows, feed, |rows|)
  {
    results := [];
    var i := 0;
    while i < |rows|
      invariant 0 <= i <= |rows|
      invariant orchestrator.Valid()
      invariant orchestrator.Contents() == Turns(old(orchestrator.Contents()), rows, feed, i)
      invariant results == Results(old(orchestrator.Contents()), rows, feed, i)
    {
      var turn := TakeTurn(orchestrator, rows[i], feed(i));
      results := results + turn;
      i := i + 1;
    }
  }

  lemma SnapshotsOfRows(s: State, s0: State, rows: seq<Record>)
    requires Valid(s) && s0.actions == s.actions && s0.server == s.server
    requires forall i :: 0 <= i < |rows| ==> rows[i].id in s.actions && rows[i] == s.actions[rows[i].id]
    ensures AllSnapshots(s0, rows)
  {
    forall i | 0 <= i < |rows| ensures Snapshot(s0, rows[i]) {
      assert KeyOk(s, rows[i].id);
    }
  }

  /** Adds the claimed jobs' rows that are not in the list yet. */
  method Merge(store: Store, rows: seq<Record>, claimed: seq<Key>, ghost s: State, ghost clock: Time)
    returns (merged: seq<Record>)
    requires Valid(s) && store.actions == s.actions
    requires Enumerates(Ids(rows), DueRows(s.actions, clock)) && Enumerates(claimed, DueKeys(s.jobs, clock))
    requires forall i :: 0 <= i < |rows| ==> rows[i].id in s.actions && rows[i] == s.actions[rows[i].id]
    ensures Enumerates(Ids(merged), TickKeys(s, clock))
    ensures forall i :: 0 <= i < |merged| ==> merged[i].id in s.actions && merged[i] == s.actions[merged[i].id]
  {
    merged := rows;
    var seen := set i | 0 <= i < |rows| :: rows[i].id;
    assert forall i :: 0 <= i < |rows| ==> Ids(rows)[i] == rows[i].id;
    assert seen == DueRows(s.actions, clock);
    var j := 0;
    while j < |claimed|
      invariant 0 <= j <= |claimed|
      invariant forall i :: 0 <= i < |merged| ==> merged[i].id in s.actions && merged[i] == s.actions[merged[i].id]
      invariant Enumerates(Ids(merged), seen + Front(claimed, j))
    {
      var k := claimed[j];
      assert k in claimed && KeyOk(s, k);
      assert Front(claimed, j + 1) == Front(claimed, j) + {k} && k !in Front(claimed, j);
      if k !in seen {
        var loaded := store.Get(k);
        if loaded.Some? {
          assert Ids(merged + [loaded.value]) == Ids(merged) + [k];
          merged := merged + [loaded.value];
        }
      }
      j := j + 1;
    }
    assert Front(claimed, |claimed|) == DueKeys(s.jobs, clock);
  }

  ghost function Front(keys: seq<Key>, n: nat): set<Key>
    requires n <= |keys|
  {
    set i | 0 <= i < n :: keys[i]
  }
}
