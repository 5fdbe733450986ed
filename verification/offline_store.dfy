/**
 The durable offline action queue: one SQLite table of actions, claimed one at a
 time by whichever drainer asks first.

 A row's UUID primary key is represented by its position in the table. Like the
 UUID it is fresh at insertion and never reused, since no statement deletes rows.
 Times are integer milliseconds.
 */
module OfflineStore {
  import opened Wrappers

  const MAX_RETRY_COUNT: nat := 8
  const STALE_MS: nat := 30_000

  datatype Status = Pending | Processing | Failed | Completed

  datatype ActionType =
    | Checkin
    | Checkout
    | RoomKeyGenerate
    | PosOrder
    | FolioTransfer
    | MaintenanceOrder
    | EtimsInvoice

  type ActionId = nat

  datatype Action = Action(
    actionType: ActionType,
    payload: string,
    key: string,
    status: Status,
    createdAt: int,
    updatedAt: int,
    retryCount: nat,
    lastError: Option<string>)

  datatype EnqueueInput = EnqueueInput(actionType: ActionType, payload: string, key: string)

  type Table = seq<Action>

  /** The UNIQUE constraint on `idempotency_key`. */
  ghost predicate KeysUnique(t: Table) {
    forall i, j :: 0 <= i < j < |t| ==> t[i].key != t[j].key
  }

  /** The columns no statement ever writes after the INSERT. */
  predicate SameIdentity(a: Action, b: Action) {
    a.actionType == b.actionType && a.payload == b.payload && a.key == b.key && a.createdAt == b.createdAt
  }

  // ---------- claim order ----------

  predicate Claimable(a: Action) {
    a.status == Pending || (a.status == Failed && a.retryCount < MAX_RETRY_COUNT)
  }

  /** FAILED with the retry budget spent: no claim takes it again. */
  predicate GivenUp(a: Action) {
    a.status == Failed && a.retryCount >= MAX_RETRY_COUNT
  }

  function Rank(s: Status): nat {
    match s
    case Pending => 0
    case Failed => 1
    case _ => 2
  }

  /** Strict ORDER BY of the claim query: status rank, then creation time. */
  predicate Before(a: Action, b: Action) {
    Rank(a.status) < Rank(b.status) || (Rank(a.status) == Rank(b.status) && a.createdAt < b.createdAt)
  }

  /** Row `i` is a row the claim query may return. Rows created in the same millisecond tie. */
  predicate IsNext(t: Table, i: ActionId) {
    && i < |t|
    && Claimable(t[i])
    && forall j :: 0 <= j < |t| && Claimable(t[j]) ==> !Before(t[j], t[i])
  }

  predicate Drained(t: Table) {
    forall i :: 0 <= i < |t| ==> !Claimable(t[i])
  }

  /** The claim query finds nothing only when nothing is claimable. */
  lemma {:induction false} NextExists(t: Table)
    requires !Drained(t)
    ensures exists i :: IsNext(t, i)
  {
    var i :| 0 <= i < |t| && Claimable(t[i]);
    var best := i;
    for n := 0 to |t|
      invariant 0 <= best < |t| && Claimable(t[best])
      invariant forall j :: 0 <= j < n && Claimable(t[j]) ==> !Before(t[j], t[best])
    {
      if Claimable(t[n]) && Before(t[n], t[best]) {
        best := n;
      }
    }
    assert IsNext(t, best);
  }

  // ---------- what each statement does to the table ----------

  function NewAction(input: EnqueueInput, now: int): Action {
    Action(input.actionType, input.payload, input.key, Pending, now, now, 0, None)
  }

  function AfterInsert(t: Table, input: EnqueueInput, now: int): Table {
    if exists i :: 0 <= i < |t| && t[i].key == input.key then t else t + [NewAction(input, now)]
  }

  function AfterClaim(t: Table, id: ActionId, now: int): Table {
    if id < |t| then t[id := t[id].(status := Processing, updatedAt := now)] else t
  }

  function AfterComplete(t: Table, id: ActionId, now: int): Table {
    if id < |t| then t[id := t[id].(status := Completed, updatedAt := now, lastError := None)] else t
  }

  function AfterFailure(t: Table, id: ActionId, error: string, now: int): Table {
    if id < |t| then
      t[id := t[id].(status := Failed, updatedAt := now, lastError := Some(error), retryCount := t[id].retryCount + 1)]
    else t
  }

  predicate Stale(a: Action, cutoff: int) {
    a.status == Processing && a.updatedAt < cutoff
  }

  function Requeue(a: Action, cutoff: int, now: int): Action {
    if Stale(a, cutoff) then a.(status := Pending, updatedAt := now) else a
  }

  function AfterRequeue(t: Table, cutoff: int, now: int): Table {
    seq(|t|, i requires 0 <= i < |t| => Requeue(t[i], cutoff, now))
  }

  /** Rows PROCESSING for more than `ms` go back to PENDING, touched now, and no other row changes. */
  predicate Freed(before: Table, after: Table, ms: int, now: int) {
    |after| == |before| && forall i :: 0 <= i < |before| ==>
      after[i] == if before[i].status == Processing && now - before[i].updatedAt > ms
                  then before[i].(status := Pending, updatedAt := now) else before[i]
  }

  lemma {:induction false} RequeueFrees(t: Table, ms: int, now: int)
    ensures Freed(t, AfterRequeue(t, now - ms, now), ms, now)
  {
  }

  function CountStatus(t: Table, s: Status): nat {
    if t == [] then 0 else CountStatus(t[..|t| - 1], s) + if t[|t| - 1].status == s then 1 else 0
  }

  function CountStale(t: Table, cutoff: int): nat {
    if t == [] then 0 else CountStale(t[..|t| - 1], cutoff) + if Stale(t[|t| - 1], cutoff) then 1 else 0
  }

  /** The badge counts partition the table: no row is missed or counted twice. */
  lemma {:induction false} CountsPartition(t: Table)
    ensures CountStatus(t, Pending) + CountStatus(t, Processing) + CountStatus(t, Failed) + CountStatus(t, Completed) == |t|
  {
    if t != [] {
      CountsPartition(t[..|t| - 1]);
    }
  }

  function RowsOf(t: Table, s: Status): set<ActionId> {
    set i | 0 <= i < |t| && t[i].status == s
  }

  function StaleRows(t: Table, cutoff: int): set<ActionId> {
    set i | 0 <= i < |t| && t[i].status == Processing && t[i].updatedAt < cutoff
  }

  lemma RowsGrow(t: Table, s: Status, cutoff: int)
    requires t != []
    ensures var n := |t| - 1;
            && RowsOf(t, s) == (if t[n].status == s then RowsOf(t[..n], s) + {n} else RowsOf(t[..n], s))
            && StaleRows(t, cutoff) == (if Stale(t[n], cutoff) then StaleRows(t[..n], cutoff) + {n} else StaleRows(t[..n], cutoff))
  {
  }

  /** Every count is the number of the rows it is about. */
  lemma {:induction false} CountsAreSizes(t: Table, s: Status, cutoff: int)
    ensures CountStatus(t, s) == |RowsOf(t, s)| && CountStale(t, cutoff) == |StaleRows(t, cutoff)|
  {
    if t != [] {
      CountsAreSizes(t[..|t| - 1], s, cutoff);
      RowsGrow(t, s, cutoff);
    }
  }

  // ---------- the store ----------

  class OfflineActionStore {
    var rows: Table

    ghost predicate Valid() reads this {
      KeysUnique(rows)
    }

    constructor ()
      ensures Valid() && rows == []
    {
      rows := [];
    }

    /** Insert-or-ignore on the key, then select by key: the canonical row either way. */
    method Insert(input: EnqueueInput, now: int) returns (id: ActionId)
      requires Valid()
      modifies this
      ensures Valid()
      ensures rows == AfterInsert(old(rows), input, now)
      ensures rows == old(rows) || rows == old(rows) + [Action(input.actionType, input.payload, input.key, Pending, now, now, 0, None)]
      ensures id < |rows| && rows[id].key == input.key
      ensures id < |old(rows)| <==> exists i :: 0 <= i < |old(rows)| && old(rows)[i].key == input.key
    {
      id := 0;
      while id < |rows| && rows[id].key != input.key
        invariant id <= |rows|
        invariant forall i :: 0 <= i < id ==> rows[i].key != input.key
      {
        id := id + 1;
      }
      if id == |rows| {
        rows := rows + [NewAction(input, now)];
      }
    }

    method ClaimNext(now: int) returns (claimed: Option<ActionId>)
      modifies this
      ensures claimed.None? <==> Drained(old(rows))
      ensures claimed.None? ==> rows == old(rows)
      ensures claimed.Some? ==> IsNext(old(rows), claimed.value) && rows == AfterClaim(old(rows), claimed.value, now)
      ensures claimed.Some? ==> rows[claimed.value].status == Processing && rows[claimed.value].updatedAt == now
      ensures old(Valid()) ==> Valid()
    {
      if i: ActionId :| i < |rows| && IsNext(rows, i) {
        rows := rows[i := rows[i].(status := Processing, updatedAt := now)];
        return Some(i);
      }
      if !Drained(rows) {
        NextExists(rows);
        assert false;
      }
      return None;
    }

    method MarkComplete(id: ActionId, now: int)
      modifies this
      ensures rows == AfterComplete(old(rows), id, now)
      ensures id < |old(rows)| ==> rows[id].status == Completed && rows[id].lastError == None && rows[id].updatedAt == now
      ensures old(Valid()) ==> Valid()
    {
      if id < |rows| {
        rows := rows[id := rows[id].(status := Completed, updatedAt := now, lastError := None)];
      }
    }

    method MarkFailed(id: ActionId, error: string, now: int)
      modifies this
      ensures rows == AfterFailure(old(rows), id, error, now)
      ensures id < |old(rows)| ==>
              && rows[id].status == Failed && rows[id].lastError == Some(error) && rows[id].updatedAt == now
              && rows[id].retryCount == old(rows)[id].retryCount + 1
      ensures old(Valid()) ==> Valid()
    {
      if id < |rows| {
        var retries := rows[id].retryCount + 1;
        rows := rows[id := rows[id].(status := Failed, updatedAt := now, lastError := Some(error), retryCount := retries)];
      }
    }

    method RequeueStaleProcessing(beforeMs: int, now: int) returns (changes: nat)
      modifies this
      ensures rows == AfterRequeue(old(rows), now - beforeMs, now)
      ensures changes == |StaleRows(old(rows), now - beforeMs)|
      ensures Freed(old(rows), rows, beforeMs, now)
      ensures old(Valid()) ==> Valid()
    {
      var cutoff, updated := now - beforeMs, [];
      changes := 0;
      for n := 0 to |rows|
        invariant |updated| == n
        invariant forall i :: 0 <= i < n ==> updated[i] == Requeue(rows[i], cutoff, now)
        invariant changes == CountStale(rows[..n], cutoff)
      {
        assert rows[..n + 1][..n] == rows[..n];
        if Stale(rows[n], cutoff) {
          updated := updated + [rows[n].(status := Pending, updatedAt := now)];
          changes := changes + 1;
        } else {
          updated := updated + [rows[n]];
        }
      }
      assert rows[..|rows|] == rows;
      CountsAreSizes(rows, Processing, cutoff);
      RequeueFrees(rows, beforeMs, now);
      rows := updated;
    }

    /** Creation time of the oldest action not COMPLETED, which includes those that have given up. */
    method OldestPendingTs() returns (ts: Option<int>)
      ensures ts.None? <==> forall i :: 0 <= i < |rows| ==> rows[i].status == Completed
      ensures ts.Some? ==>
              && (exists i :: 0 <= i < |rows| && rows[i].status != Completed && rows[i].createdAt == ts.value)
              && (forall i :: 0 <= i < |rows| && rows[i].status != Completed ==> ts.value <= rows[i].createdAt)
    {
      ts := None;
      for n := 0 to |rows|
        invariant ts.None? <==> forall i :: 0 <= i < n ==> rows[i].status == Completed
        invariant ts.Some? ==>
                  && (exists i :: 0 <= i < n && rows[i].status != Completed && rows[i].createdAt == ts.value)
                  && (forall i :: 0 <= i < n && rows[i].status != Completed ==> ts.value <= rows[i].createdAt)
      {
        if rows[n].status != Completed && (ts.None? || rows[n].createdAt < ts.value) {
          ts := Some(rows[n].createdAt);
        }
      }
    }

    method CountByStatus() returns (pending: nat, processing: nat, failed: nat, completed: nat)
      ensures pending == CountStatus(rows, Pending) && processing == CountStatus(rows, Processing)
      ensures failed == CountStatus(rows, Failed) && completed == CountStatus(rows, Completed)
      ensures pending == |RowsOf(rows, Pending)| && processing == |RowsOf(rows, Processing)|
      ensures failed == |RowsOf(rows, Failed)| && completed == |RowsOf(rows, Completed)|
    {
      pending, processing, failed, completed := 0, 0, 0, 0;
      for n := 0 to |rows|
        invariant pending == CountStatus(rows[..n], Pending) && processing == CountStatus(rows[..n], Processing)
        invariant failed == CountStatus(rows[..n], Failed) && completed == CountStatus(rows[..n], Completed)
      {
        assert rows[..n + 1][..n] == rows[..n];
        match rows[n].status
        case Pending => pending := pending + 1;
        case Processing => processing := processing + 1;
        case Failed => failed := failed + 1;
        case Completed => completed := completed + 1;
      }
      assert rows[..|rows|] == rows;
      CountsAreSizes(rows, Pending, 0);
      CountsAreSizes(rows, Processing, 0);
      CountsAreSizes(rows, Failed, 0);
      CountsAreSizes(rows, Completed, 0);
    }
  }
}
