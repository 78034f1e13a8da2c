/** What every step of the orchestrator keeps. */
module Invariants {
  import opened Wrappers
  import opened Domain
  import opened Mapping
  import opened Gates
  import opened Sandbox
  import opened Scheduler
  import opened Steps

  // Histories

  /** How many requests under the key ended in a transient or delivery failure. */
  ghost function Failures(calls: seq<Call>, key: Key): nat {
    if calls == [] then 0
    else
      var n := |calls| - 1;
      Failures(calls[..n], key) + if calls[n].key == key && IsFailure(calls[n]) then 1 else 0
  }

  /** How many backoff jobs were ever put on the queue for the key. */
  ghost function Backoffs(enqueued: seq<Job>, key: Key): nat {
    if enqueued == [] then 0
    else
      var n := |enqueued| - 1;
      Backoffs(enqueued[..n], key) + if enqueued[n].id == key && enqueued[n].reason.Backoff? then 1 else 0
  }

  lemma FailuresAppend(calls: seq<Call>, call: Call, key: Key)
    ensures Failures(calls + [call], key) == Failures(calls, key) + if call.key == key && IsFailure(call) then 1 else 0
  {
    assert (calls + [call])[..|calls|] == calls;
  }

  lemma BackoffsAppend(enqueued: seq<Job>, job: Job, key: Key)
    ensures Backoffs(enqueued + [job], key) ==
            Backoffs(enqueued, key) + if job.id == key && job.reason.Backoff? then 1 else 0
  {
    assert (enqueued + [job])[..|enqueued|] == enqueued;
  }

  function AtMostCap(n: nat): nat {
    if n < MAX_RETRY_ATTEMPTS then n else MAX_RETRY_ATTEMPTS
  }

  // The invariant

  /** The part of a row that does not depend on its label. */
  ghost predicate RowFits(s: State, r: Record) {
    && r.caseId == r.id.caseId
    && r.meta.key == r.id
    && r.meta.strategy == Some(r.id.strategy)
    && !r.meta.expired
    && (IsWait(r.id.strategy) ==> r.retryNumber == 0 && !r.meta.deadLettered && r.link.None? && r.meta.resource.None?)
    && (r.link.Some? ==> TokenFor(r.id) in s.server.cache && r.link == s.server.cache[TokenFor(r.id)].shortUrl)
    && (r.meta.resource.Some? ==>
          TokenFor(r.id) in s.server.cache && r.meta.resource == Some(s.server.cache[TokenFor(r.id)].id))
  }

  /** True of every version of every row ever stored, and stays true of it. */
  ghost predicate RowOk(s: State, r: Record) {
    && RowFits(s, r)
    && r.meta.display.Some?
    && r.status == DbStatusFor(r.meta.display.value)
  }

  /** A row that shows Scheduled or Retrying has a live job that agrees with it. */
  ghost predicate Queued(s: State, r: Record) {
    && r.id in s.jobs
    && IsLive(s.jobs[r.id])
    && r.scheduledTime == Some(s.jobs[r.id].runAt)
    && s.jobs[r.id].attempt == r.retryNumber
  }

  ghost predicate StoredOk(s: State, r: Record) {
    && RowOk(s, r)
    && r.retryNumber == Failures(s.calls, r.id)
    && (DisplayOf(r).Retrying? ==> 1 <= r.retryNumber <= MAX_RETRY_ATTEMPTS)
    && (r.meta.deadLettered ==> r.retryNumber > MAX_RETRY_ATTEMPTS)
    && (IsWaiting(DisplayOf(r)) ==> Queued(s, r))
  }

  ghost predicate KeyOk(s: State, k: Key) {
    && Backoffs(s.enqueued, k) == AtMostCap(Failures(s.calls, k))
    && (k in s.actions ==> s.actions[k].id == k && StoredOk(s, s.actions[k]))
    && (k !in s.actions ==> k !in s.jobs && Failures(s.calls, k) == 0)
  }

  /** What was known about a request when it was made. */
  ghost predicate CallOk(call: Call) {
    && IsOutbound(call.key.strategy)
    && (call.decision.Allow? || call.decision.Wait?)
    && (!call.replay && call.cooldownUntil.Some? ==> call.cooldownUntil.value <= call.at)
    && (!call.replay && call.cooldownUntil.None? && call.decision.Wait? ==> call.key.scheduledAt <= call.at)
  }

  /** A body belongs to a stored key, and is what that key's strategy asks for. */
  ghost predicate BodyOk(s: State, t: Token)
    requires t in s.server.cache
  {
    && t == TokenFor(t.key) && t.key in s.actions
    && s.server.cache[t].id == ResourceOf(t.key)
    && s.server.cache[t].shortUrl == LinkOf(t.key)
  }

  ghost predicate Global(s: State) {
    && ServerOk(s.server)
    && (forall t :: t in s.server.cache ==> BodyOk(s, t))
    && (forall i :: 0 <= i < |s.calls| ==> CallOk(s.calls[i]) && s.calls[i].key in s.actions)
    && (forall k :: k in s.actions <==> k in s.inserted)
    && (forall i, j :: 0 <= i < j < |s.inserted| ==> s.inserted[i] != s.inserted[j])
  }

  ghost predicate ValidBut(s: State, k: Key) {
    Global(s) && forall j: Key :: j != k ==> KeyOk(s, j)
  }

  ghost predicate Valid(s: State) {
    Global(s) && forall k: Key :: KeyOk(s, k)
  }

  /** Nothing the state says about the key has changed. */
  ghost predicate Untouched(s: State, s': State, k: Key) {
    && (k in s'.actions <==> k in s.actions)
    && (k in s.actions ==> s'.actions[k] == s.actions[k])
    && (k in s'.jobs <==> k in s.jobs)
    && (k in s.jobs ==> s'.jobs[k] == s.jobs[k])
    && Failures(s'.calls, k) == Failures(s.calls, k)
    && Backoffs(s'.enqueued, k) == Backoffs(s.enqueued, k)
  }

  ghost predicate Frame(s: State, s': State, keys: set<Key>) {
    forall k: Key :: k !in keys ==> Untouched(s, s', k)
  }

  lemma UntouchedKeeps(s: State, s': State, k: Key)
    requires KeyOk(s, k) && Untouched(s, s', k) && Grows(s.server, s'.server)
    ensures KeyOk(s', k)
  {
  }

  /** A change confined to one key keeps the rest of the invariant. */
  lemma LocalChange(s: State, s': State, k: Key)
    requires ValidBut(s, k)
    requires Frame(s, s', {k}) && Grows(s.server, s'.server)
    requires Global(s')
    ensures ValidBut(s', k)
    ensures KeyOk(s', k) ==> Valid(s')
  {
    forall j: Key | j != k ensures KeyOk(s', j) {
      UntouchedKeeps(s, s', j);
    }
  }

  lemma SavedGlobal(s: State, r: Record)
    requires Global(s)
    ensures Global(Saved(s, r))
  {
    var later := Saved(s, r);
    if r.id !in s.actions {
      assert later.inserted[|s.inserted|] == r.id;
      forall k ensures k in later.actions <==> k in later.inserted {
        if k in s.inserted {
          var i :| 0 <= i < |s.inserted| && s.inserted[i] == k;
          assert later.inserted[i] == k;
        }
        if k in later.inserted && k != r.id {
          var i :| 0 <= i < |later.inserted| && later.inserted[i] == k;
          assert s.inserted[i] == k;
        }
      }
    }
  }

  // The endings of a run

  /** What the endings need to know about the row they are handed. */
  ghost predicate Ready(s: State, r: Record) {
    && ValidBut(s, r.id)
    && RowFits(s, r)
    && !r.meta.deadLettered
    && Backoffs(s.enqueued, r.id) == AtMostCap(r.retryNumber)
  }

  /** The row `r` has been stored, and its job closed or replaced. */
  ghost predicate RowStored(s: State, s': State, r: Record) {
    && s'.actions == Saved(s, r).actions
    && s'.inserted == Saved(s, r).inserted
    && s'.server == s.server
    && s'.calls == s.calls
    && s'.jobs - {r.id} == s.jobs - {r.id}
    && (s'.enqueued == s.enqueued || exists job: Job :: job.id == r.id && s'.enqueued == s.enqueued + [job])
  }

  lemma StoringKeeps(s: State, s': State, r: Record)
    requires ValidBut(s, r.id) && RowStored(s, s', r) && KeyOk(s', r.id)
    ensures Valid(s') && Frame(s, s', {r.id})
  {
    SavedGlobal(s, r);
    assert Global(s');
    if s'.enqueued != s.enqueued {
      var job: Job :| job.id == r.id && s'.enqueued == s.enqueued + [job];
      forall k: Key {
        BackoffsAppend(s.enqueued, job, k);
      }
    }
    forall k: Key | k != r.id
      ensures Untouched(s, s', k)
    {
      assert k in s.jobs <==> k in s.jobs - {r.id};
      assert k in s'.jobs <==> k in s'.jobs - {r.id};
    }
    LocalChange(s, s', r.id);
  }

  lemma FinalizedKeeps(s: State, r: Record, ctx: Context, display: Display, event: AuditEvent)
    requires Ready(s, r) && r.retryNumber == Failures(s.calls, r.id)
    requires display.Success? || display.Failed? || display.Cancelled?
    ensures var s' := Finalized(s, r, ctx, display, event).state;
            Valid(s') && Frame(s, s', {r.id}) && r.id in s'.actions
  {
    var s' := Finalized(s, r, ctx, display, event).state;
    StoringKeeps(s, s', s'.actions[r.id]);
  }

  lemma DeferredKeeps(s: State, r: Record, ctx: Context, gate: Gate)
    requires Ready(s, r) && r.retryNumber == Failures(s.calls, r.id)
    ensures var s' := Deferred(s, r, ctx, gate).state;
            Valid(s') && Frame(s, s', {r.id}) && r.id in s'.actions
  {
    var s' := Deferred(s, r, ctx, gate).state;
    BackoffsAppend(s.enqueued, s'.jobs[r.id], r.id);
    StoringKeeps(s, s', s'.actions[r.id]);
  }

  lemma DeadLetteredKeeps(s: State, failed: Record, ctx: Context)
    requires ValidBut(s, failed.id) && RowFits(s, failed) && !IsWait(failed.id.strategy)
    requires failed.retryNumber == Failures(s.calls, failed.id) > MAX_RETRY_ATTEMPTS
    requires Backoffs(s.enqueued, failed.id) == MAX_RETRY_ATTEMPTS
    ensures var s' := DeadLettered(s, failed, ctx).state;
            Valid(s') && Frame(s, s', {failed.id}) && failed.id in s'.actions
  {
    var s' := DeadLettered(s, failed, ctx).state;
    StoringKeeps(s, s', s'.actions[failed.id]);
  }

  lemma RescheduledKeeps(s: State, failed: Record, ctx: Context, runAt: Time)
    requires ValidBut(s, failed.id) && RowFits(s, failed) && !failed.meta.deadLettered && !IsWait(failed.id.strategy)
    requires failed.retryNumber == Failures(s.calls, failed.id)
    requires 1 <= failed.retryNumber <= MAX_RETRY_ATTEMPTS
    requires Backoffs(s.enqueued, failed.id) == failed.retryNumber - 1
    ensures var s' := Rescheduled(s, failed, ctx, runAt).state;
            Valid(s') && Frame(s, s', {failed.id}) && failed.id in s'.actions
  {
    var s' := Rescheduled(s, failed, ctx, runAt).state;
    BackoffsAppend(s.enqueued, s'.jobs[failed.id], failed.id);
    assert s'.enqueued == s.enqueued + [s'.jobs[failed.id]];
    StoringKeeps(s, s', s'.actions[failed.id]);
  }

  lemma BumpedFits(s: State, r: Record)
    requires RowFits(s, r) && !IsWait(r.id.strategy)
    ensures RowFits(s, Bumped(r)) && Bumped(r).id == r.id
    ensures Bumped(r).retryNumber == r.retryNumber + 1 && Bumped(r).meta == r.meta
  {
  }

  lemma BackedOffKeeps(s: State, r: Record, ctx: Context, offset: int)
    requires Ready(s, r) && r.retryNumber + 1 == Failures(s.calls, r.id)
    requires !IsWait(r.id.strategy)
    ensures var s' := BackedOff(s, r, ctx, offset).state;
            Valid(s') && Frame(s, s', {r.id}) && r.id in s'.actions
  {
    var failed := Bumped(r);
    var s' := BackedOff(s, r, ctx, offset).state;
    BumpedFits(s, r);
    if r.retryNumber >= MAX_RETRY_ATTEMPTS {
      assert s' == DeadLettered(s, failed, ctx).state;
      DeadLetteredKeeps(s, failed, ctx);
    } else {
      var runAt := ctx.asOf + NextBackoff(r.retryNumber, offset).value;
      assert s' == Rescheduled(s, failed, ctx, runAt).state;
      RescheduledKeeps(s, failed, ctx, runAt);
    }
  }
}
