/** The job rows the API keeps: how they are created and updated, and what any sequence of updates
    amounts to. */
module JobsTable {
  import opened Contracts

  datatype JobStatus = Queued | Published | Reported(status: Status)

  datatype JobRow = JobRow(key: nat, status: JobStatus, deliveredAt: Option<int>, lastErrorCode: Option<ErrorCode>)

  function NewRow(key: nat): JobRow { JobRow(key, Queued, None, None) }

  /** What can happen to a row after it was created. */
  datatype Update =
    | MarkPublished
    | MarkDelivered(at: int)
    | MarkRetryScheduled
    | MarkDeadLettered(code: Option<ErrorCode>)

  /** The error code of a dead letter overwrites the last one only if there is one. */
  function Updated(row: JobRow, u: Update): JobRow {
    match u
    case MarkPublished => row.(status := Published)
    case MarkDelivered(at) => row.(status := Reported(Delivered), deliveredAt := Some(at), lastErrorCode := None)
    case MarkRetryScheduled => row.(status := Reported(RetryScheduled))
    case MarkDeadLettered(code) =>
      row.(status := Reported(DeadLettered), lastErrorCode := if code.Some? then code else row.lastErrorCode)
  }

  function Fold(row: JobRow, updates: seq<Update>): JobRow {
    if updates == [] then row else Updated(Fold(row, updates[..|updates| - 1]), updates[|updates| - 1])
  }

  predicate Coded(u: Update) { u.MarkDeadLettered? && u.code.Some? }

  /** Update `i` is the last delivery. */
  predicate LastDelivery(updates: seq<Update>, i: nat) {
    && i < |updates| && updates[i].MarkDelivered?
    && forall j: nat :: i < j < |updates| ==> !updates[j].MarkDelivered?
  }

  /** Update `i` is the last dead letter that came with a code, and no delivery came after it. */
  predicate LastCode(updates: seq<Update>, i: nat) {
    && i < |updates| && Coded(updates[i])
    && forall j: nat :: i < j < |updates| ==> !updates[j].MarkDelivered? && !Coded(updates[j])
  }

  /** Closed form: whatever updates reach a new row, in whatever order, its status is that of the
      last one, `deliveredAt` is the time of the last delivery, and `lastErrorCode` is that of the last
      dead letter with a code since then. */
  lemma {:induction false} FoldClosedForm(key: nat, updates: seq<Update>)
    ensures var row := Fold(NewRow(key), updates);
            && row.key == key
            && (updates == [] ==> row.status == Queued)
            && (updates != [] ==>
                  match updates[|updates| - 1]
                  case MarkPublished => row.status == Published
                  case MarkDelivered(_) => row.status == Reported(Delivered)
                  case MarkRetryScheduled => row.status == Reported(RetryScheduled)
                  case MarkDeadLettered(_) => row.status == Reported(DeadLettered))
            && (row.deliveredAt.Some? <==> exists i: nat :: LastDelivery(updates, i))
            && (forall i: nat :: LastDelivery(updates, i) ==> row.deliveredAt == Some(updates[i].at))
            && (row.lastErrorCode.Some? <==> exists i: nat :: LastCode(updates, i))
            && (forall i: nat :: LastCode(updates, i) ==> row.lastErrorCode == updates[i].code)
  {
    if updates == [] {
    } else {
      var n := |updates| - 1;
      var before := updates[..n];
      FoldClosedForm(key, before);
      forall i: nat
        ensures LastDelivery(updates, i) <==> if updates[n].MarkDelivered? then i == n else LastDelivery(before, i)
      {
        LastOfPrefix(updates, i);
      }
      forall i: nat
        ensures LastCode(updates, i) <==>
              if Coded(updates[n]) then i == n else LastCode(before, i) && !updates[n].MarkDelivered?
      {
        LastOfPrefix(updates, i);
      }
      if updates[n].MarkDelivered? {
        assert LastDelivery(updates, n);
      }
      if Coded(updates[n]) {
        assert LastCode(updates, n);
      }
      if i: nat :| LastDelivery(before, i) {
        assert !updates[n].MarkDelivered? ==> LastDelivery(updates, i);
      }
      if i: nat :| LastCode(before, i) {
        assert !updates[n].MarkDelivered? && !Coded(updates[n]) ==> LastCode(updates, i);
      }
    }
  }

  lemma LastOfPrefix(updates: seq<Update>, i: nat)
    requires updates != []
    ensures var n := |updates| - 1;
            && (LastDelivery(updates, i) <==>
                if updates[n].MarkDelivered? then i == n else LastDelivery(updates[..n], i))
            && (LastCode(updates, i) <==>
                if Coded(updates[n]) then i == n else LastCode(updates[..n], i) && !updates[n].MarkDelivered?)
  {
    var n := |updates| - 1;
    assert forall j: nat :: j < n ==> updates[..n][j] == updates[j];
  }

  /** A row that reads DELIVERED has a delivery time and no error code, `markPublished` or not. */
  lemma {:induction false} DeliveredRowIsClean(key: nat, updates: seq<Update>)
    ensures var row := Fold(NewRow(key), updates);
            row.status == Reported(Delivered) ==> row.deliveredAt.Some? && row.lastErrorCode == None
  {
    FoldClosedForm(key, updates);
    if updates != [] && updates[|updates| - 1].MarkDelivered? {
      assert LastDelivery(updates, |updates| - 1);
      assert forall i: nat :: !LastCode(updates, i);
    }
  }

  /** DELIVERED is not sticky: it shows exactly when the delivery was the last update, so a late
      `markPublished` or a reordered event hides it for good. */
  lemma {:induction false} DeliveredShowsIff(key: nat, updates: seq<Update>)
    ensures Fold(NewRow(key), updates).status == Reported(Delivered) <==>
            updates != [] && updates[|updates| - 1].MarkDelivered?
    ensures (exists i: nat :: i < |updates| && updates[i].MarkDelivered?) <==>
          Fold(NewRow(key), updates).deliveredAt.Some?
  {
    FoldClosedForm(key, updates);
    if i: nat :| i < |updates| && updates[i].MarkDelivered? {
      var k := FindLastDelivery(updates, i);
    }
  }

  lemma {:induction false} FindLastDelivery(updates: seq<Update>, i: nat) returns (k: nat)
    requires i < |updates| && updates[i].MarkDelivered?
    ensures LastDelivery(updates, k)
    decreases |updates| - i
  {
    if j: nat :| i < j < |updates| && updates[j].MarkDelivered? {
      k := FindLastDelivery(updates, j);
    } else {
      k := i;
    }
  }

  /******* The table *******/

  class EmailJobsRepository {
    var rows: map<nat, JobRow>

    /** The key and the updates each row has had since it was created. */
    ghost var history: map<nat, (nat, seq<Update>)>

    /** Every row is the fold of its updates, and no two rows share an idempotency key. */
    ghost predicate Valid()
      reads this
    {
      && rows.Keys == history.Keys
      && (forall id :: id in rows ==>
          rows[id] == Fold(NewRow(history[id].0), history[id].1) && rows[id].key == history[id].0)
      && (forall a, b :: a in rows && b in rows && rows[a].key == rows[b].key ==> a == b)
    }

    constructor ()
      ensures Valid() && rows == map[]
    {
      rows := map[];
      history := map[];
    }

    /** INSERT; false stands for a unique-constraint violation. */
    method Create(id: nat, key: nat) returns (created: bool)
      requires Valid()
      modifies this
      ensures Valid()
      ensures created <==> id !in old(rows) && forall other :: other in old(rows) ==> old(rows)[other].key != key
      ensures rows == if created then old(rows)[id := JobRow(key, Queued, None, None)] else old(rows)
      ensures history == if created then old(history)[id := (key, [])] else old(history)
    {
      created := id !in rows && forall other | other in rows :: rows[other].key != key;
      if created {
        rows := rows[id := NewRow(key)];
        history := history[id := (key, [])];
      }
    }

    /** The row found is what its updates have made of it, under the key it was created with, and no
        other id has that key. */
    method FindById(id: nat) returns (job: Option<JobRow>)
      requires Valid()
      ensures job.Some? <==> id in history
      ensures job.Some? ==> job.value == Fold(NewRow(history[id].0), history[id].1) && job.value.key == history[id].0
      ensures job.Some? ==> forall other :: other in rows && rows[other].key == job.value.key ==> other == id
    {
      job := if id in rows then Some(rows[id]) else None;
    }

    /** UPDATE of the row with this id, if there is one. */
    method UpdateMany(id: nat, u: Update)
      requires Valid()
      modifies this
      ensures Valid() && rows.Keys == old(rows).Keys
      ensures id in rows ==> history == old(history)[id := (old(history)[id].0, old(history)[id].1 + [u])]
      ensures id in rows ==> rows == old(rows)[id := Updated(old(rows)[id], u)]
      ensures id !in rows ==> rows == old(rows) && history == old(history)
      ensures forall other :: other in rows && other != id ==> rows[other] == old(rows)[other]
    {
      if id in rows {
        ghost var updates := history[id].1 + [u];
        assert updates[..|updates| - 1] == history[id].1;
        rows := rows[id := Updated(rows[id], u)];
        history := history[id := (history[id].0, updates)];
      }
    }

    /** Unlike the other updates this one throws, and returns false, when there is no such row. */
    method MarkPublished(id: nat) returns (found: bool)
      requires Valid()
      modifies this
      ensures Valid() && rows.Keys == old(rows).Keys
      ensures found <==> id in rows
      ensures found ==> history == old(history)[id := (old(history)[id].0, old(history)[id].1 + [Update.MarkPublished])]
      ensures found ==> rows == old(rows)[id := old(rows)[id].(status := Published)]
      ensures !found ==> rows == old(rows) && history == old(history)
    {
      found := id in rows;
      UpdateMany(id, Update.MarkPublished);
    }
  }
}
