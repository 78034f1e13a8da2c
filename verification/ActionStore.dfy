/** Rows of executed and scheduled actions, keyed by execution id, and the audit trail. */
module ActionStore {
  import opened Wrappers
  import opened Domain
  import opened Scheduler
  import Steps

  /** Every row sits under its own id and carries its own key. */
  ghost predicate Keyed(actions: map<Key, Record>) {
    forall k :: k in actions ==> actions[k].id == k && actions[k].meta.key == k
  }

  predicate RowDue(r: Record, asOf: Time) {
    && r.status.DbScheduled?
    && !r.meta.deadLettered
    && r.scheduledTime.Some?
    && r.scheduledTime.value <= asOf
  }

  function DueRows(actions: map<Key, Record>, asOf: Time): set<Key> {
    set k | k in actions && RowDue(actions[k], asOf)
  }

  class Store {
    var actions: map<Key, Record>
    var inserted: seq<Key>
    var audits: seq<Audit>

    constructor ()
      ensures actions == map[] && inserted == [] && audits == []
    {
      actions := map[];
      inserted := [];
      audits := [];
    }

    method Get(id: Key) returns (r: Option<Record>)
      ensures r == if id in actions then Some(actions[id]) else None
    {
      r := if id in actions then Some(actions[id]) else None;
    }

    method GetByIdempotency(key: Key) returns (r: Option<Record>)
      ensures r.None? ==> forall k :: k in actions ==> actions[k].meta.key != key
      ensures r.Some? ==> r.value in actions.Values && r.value.meta.key == key
    {
      var rest := actions.Keys;
      while rest != {}
        invariant rest <= actions.Keys
        invariant forall k :: k in actions && k !in rest ==> actions[k].meta.key != key
        decreases rest
      {
        var k :| k in rest;
        if actions[k].meta.key == key {
          return Some(actions[k]);
        }
        rest := rest - {k};
      }
      r := None;
    }

    method Save(r: Record)
      modifies `actions, `inserted
      ensures actions == old(actions)[r.id := r]
      ensures inserted == if r.id in old(actions) then old(inserted) else old(inserted) + [r.id]
    {
      if r.id !in actions {
        inserted := inserted + [r.id];
      }
      actions := actions[r.id := r];
    }

    method AppendAudit(row: Audit)
      modifies `audits
      ensures audits == old(audits) + [row]
    {
      audits := audits + [row];
    }

    method ListForCase(caseId: CaseId) returns (rows: seq<Record>)
      ensures rows == Steps.NewestFirst(actions, inserted, caseId)
    {
      rows := [];
      var i := 0;
      while i < |inserted|
        invariant 0 <= i <= |inserted|
        invariant rows == Steps.NewestFirst(actions, inserted[..i], caseId)
      {
        assert inserted[..i + 1][..i] == inserted[..i];
        if inserted[i] in actions && actions[inserted[i]].caseId == caseId {
          rows := [actions[inserted[i]]] + rows;
        }
        i := i + 1;
      }
      assert inserted[..i] == inserted;
    }

    method ListDue(asOf: Time) returns (rows: seq<Record>)
      requires Keyed(actions)
      ensures forall i :: 0 <= i < |rows| ==> rows[i].id in actions && rows[i] == actions[rows[i].id]
      ensures Enumerates(Ids(rows), DueRows(actions, asOf))
    {
      rows := [];
      var rest := DueRows(actions, asOf);
      while rest != {}
        invariant rest <= DueRows(actions, asOf)
        invariant forall i :: 0 <= i < |rows| ==> rows[i].id in actions && rows[i] == actions[rows[i].id]
        invariant Enumerates(Ids(rows), DueRows(actions, asOf) - rest)
        decreases rest
      {
        var k :| k in rest;
        assert Ids(rows + [actions[k]]) == Ids(rows) + [k];
        rows := rows + [actions[k]];
        rest := rest - {k};
      }
    }
  }

  function Ids(rows: seq<Record>): seq<Key> {
    seq(|rows|, i requires 0 <= i < |rows| => rows[i].id)
  }
}
