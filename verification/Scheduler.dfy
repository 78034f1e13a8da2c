/** The due queue: one job per execution id, upserted, claimed, released and completed. */
module Scheduler {
  import opened Wrappers
  import opened Domain
  import opened Units

  const MAX_RETRY_ATTEMPTS: nat := 4

  function BackoffStep(attempt: nat): Time
    requires attempt < MAX_RETRY_ATTEMPTS
  {
    match attempt
    case 0 => MINUTE
    case 1 => 5 * MINUTE
    case 2 => 30 * MINUTE
    case _ => 2 * HOUR
  }

  function JitterWindow(attempt: nat): Time
    requires attempt < MAX_RETRY_ATTEMPTS
  {
    match attempt
    case 0 => 15 * SECOND
    case 1 => 45 * SECOND
    case 2 => 2 * MINUTE
    case _ => 5 * MINUTE
  }

  /** The jitter draw, brought into the window the generator draws from. */
  function Jitter(attempt: nat, offset: int): Time
    requires attempt < MAX_RETRY_ATTEMPTS
  {
    var window := JitterWindow(attempt);
    if offset < -window then -window else if offset > window then window else offset
  }

  /** The delay is the step moved by the draw, which stays inside the window. */
  predicate InSlot(delay: Time, step: Time, window: Time, offset: int) {
    && step - window <= delay <= step + window
    && (-window <= offset <= window ==> delay == step + offset)
  }

  /** The slots: 1 minute within 15 seconds, 5 minutes within 45 seconds, 30 minutes within 2
      minutes, 2 hours within 5 minutes. */
  predicate RetryDelay(failures: nat, delay: Time, offset: int) {
    match failures
    case 0 => InSlot(delay, MINUTE, 15 * SECOND, offset)
    case 1 => InSlot(delay, 5 * MINUTE, 45 * SECOND, offset)
    case 2 => InSlot(delay, 30 * MINUTE, 2 * MINUTE, offset)
    case 3 => InSlot(delay, 2 * HOUR, 5 * MINUTE, offset)
    case _ => false
  }

  /** The delay before the next retry; None once the budget is spent. The one-second floor
      of the source can never bind, because every window is shorter than its step. */
  function NextBackoff(attempt: int, offset: int): (delay: Option<Time>)
    ensures delay.Some? <==> attempt < MAX_RETRY_ATTEMPTS
    ensures delay.Some? ==> 45 * SECOND <= delay.value <= 2 * HOUR + 5 * MINUTE
    ensures delay.Some? ==> RetryDelay(if attempt < 0 then 0 else attempt, delay.value, offset)
  {
    var attempt := if attempt < 0 then 0 else attempt;
    if attempt >= MAX_RETRY_ATTEMPTS then None
    else
      var delay := BackoffStep(attempt) + Jitter(attempt, offset);
      if delay < SECOND then Some(SECOND) else Some(delay)
  }

  /** Later attempts wait strictly longer, whatever the two jitter draws are. */
  lemma BackoffGrows(attempt: nat, next: nat, offset: int, offset': int)
    requires attempt < next < MAX_RETRY_ATTEMPTS
    ensures NextBackoff(attempt, offset).value < NextBackoff(next, offset').value
  {
  }

  /** A job list with every key once. */
  ghost predicate Enumerates(keys: seq<Key>, jobs: set<Key>) {
    && (forall k :: k in keys <==> k in jobs)
    && forall i, j :: 0 <= i < j < |keys| ==> keys[i] != keys[j]
  }

  predicate IsDue(job: Job, asOf: Time) {
    job.status.Pending? && job.runAt <= asOf
  }

  function DueKeys(jobs: map<Key, Job>, asOf: Time): set<Key> {
    set k | k in jobs && IsDue(jobs[k], asOf)
  }

  function Claimed(jobs: map<Key, Job>, keys: set<Key>): map<Key, Job> {
    map k | k in jobs :: if k in keys then jobs[k].(status := Running) else jobs[k]
  }

  function Completed(jobs: map<Key, Job>, id: Key, status: JobStatus): map<Key, Job> {
    if id in jobs then jobs[id := jobs[id].(status := status)] else jobs
  }

  function Released(jobs: map<Key, Job>, id: Key): map<Key, Job> {
    if id in jobs && jobs[id].status.Running? then jobs[id := jobs[id].(status := Pending)] else jobs
  }

  /** A claim is exclusive: what it took is not due again, at any time, until it is released. */
  lemma ClaimIsExclusive(jobs: map<Key, Job>, asOf: Time, later: Time, k: Key)
    requires k in DueKeys(jobs, asOf)
    ensures jobs[k].status == Pending && jobs[k].runAt <= asOf
    ensures k !in DueKeys(Claimed(jobs, DueKeys(jobs, asOf)), later)
    ensures asOf <= later ==> k in DueKeys(Released(Claimed(jobs, DueKeys(jobs, asOf)), k), later)
  {
  }

  class ActionScheduler {
    var jobs: map<Key, Job>
    ghost var enqueued: seq<Job>

    constructor ()
      ensures jobs == map[] && enqueued == []
    {
      jobs := map[];
      enqueued := [];
    }

    method Schedule(job: Job)
      modifies this
      ensures jobs == old(jobs)[job.id := job]
      ensures enqueued == old(enqueued) + [job]
    {
      jobs := jobs[job.id := job];
      enqueued := enqueued + [job];
    }

    method Complete(id: Key, status: JobStatus)
      modifies `jobs
      ensures jobs == Completed(old(jobs), id, status)
    {
      if id !in jobs {
        return;
      }
      jobs := jobs[id := jobs[id].(status := status)];
    }

    method Release(id: Key)
      modifies `jobs
      ensures jobs == Released(old(jobs), id)
    {
      if id !in jobs || !jobs[id].status.Running? {
        return;
      }
      jobs := jobs[id := jobs[id].(status := Pending)];
    }

    method Due(asOf: Time) returns (due: seq<Key>)
      ensures Enumerates(due, DueKeys(jobs, asOf))
    {
      due := [];
      var rest := DueKeys(jobs, asOf);
      while rest != {}
        invariant rest <= DueKeys(jobs, asOf)
        invariant Enumerates(due, DueKeys(jobs, asOf) - rest)
        decreases rest
      {
        var k :| k in rest;
        due := due + [k];
        rest := rest - {k};
      }
    }

    /** Marks every due job running and returns them once each. */
    method ClaimDue(asOf: Time) returns (due: seq<Key>)
      modifies `jobs
      ensures Enumerates(due, DueKeys(old(jobs), asOf))
      ensures jobs == Claimed(old(jobs), DueKeys(old(jobs), asOf))
    {
      due := Due(asOf);
      var i := 0;
      while i < |due|
        invariant 0 <= i <= |due|
        invariant jobs.Keys == old(jobs).Keys
        invariant forall k :: k in jobs ==>
                    jobs[k] == if k in due[..i] then old(jobs)[k].(status := Running) else old(jobs)[k]
      {
        var k := due[i];
        assert k in due && k !in due[..i] && due[..i + 1] == due[..i] + [k];
        if jobs[k].status.Pending? {
          jobs := jobs[k := jobs[k].(status := Running)];
        }
        i := i + 1;
      }
      assert due[..i] == due;
    }
  }
}
