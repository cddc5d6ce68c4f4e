/**
 * The part of the SQL store the migration supervisor and the API use: rows of
 * cluster installation migrations, a lock column per row, and the calls made
 * against it. The SQL itself is not modelled; each operation is an atomic step
 * whose failure is injected through `failing`.
 */
module MigrationStore {
  import opened Wrappers
  import opened MigrationStates

  datatype Migration = Migration(id: string, clusterID: string, clusterInstallationID: string, state: string, createAt: int)

  datatype StoreCall =
    | ListPendingWork
    | Get(id: string)
    | Lock(id: string, lockerID: string)
    | Unlock(id: string, lockerID: string, force: bool)
    | Update(id: string, state: string)
    | Create(id: string)

  datatype StoreError = StoreError(call: StoreCall)

  /**
   * The unlocked migrations pending work, in listing order: the rows the
   * pending-work query returns.
   */
  function PendingIn(order: seq<string>, rows: map<string, Migration>, locks: map<string, string>): seq<Migration>
  {
    if order == [] then []
    else
      var rest := PendingIn(order[..|order| - 1], rows, locks);
      var id := order[|order| - 1];
      if id in rows && IsPendingWork(rows[id].state) && id !in locks && rows[id].id == id then rest + [rows[id]]
      else rest
  }

  /**
   * The listing holds exactly the stored, unlocked migrations pending work: each
   * listed one is such a row, and each such row filed under its own id is listed.
   */
  lemma {:induction false} PendingInExact(order: seq<string>, rows: map<string, Migration>, locks: map<string, string>)
    ensures forall m :: m in PendingIn(order, rows, locks) ==>
              m.id in rows && rows[m.id] == m && IsPendingWork(m.state) && m.id !in locks
    ensures forall id :: id in order && id in rows && rows[id].id == id && IsPendingWork(rows[id].state) && id !in locks
                         ==> rows[id] in PendingIn(order, rows, locks)
  {
    if order != [] {
      var front := order[..|order| - 1];
      PendingInExact(front, rows, locks);
      assert order == front + [order[|order| - 1]];
    }
  }

  /** A listed migration is never stable or failed: the listing never offers a finished migration. */
  lemma PendingNeverTerminal(order: seq<string>, rows: map<string, Migration>, locks: map<string, string>)
    ensures forall m :: m in PendingIn(order, rows, locks) ==> m.state != Stable && m.state != CreationFailed
  {
    PendingInExact(order, rows, locks);
  }

  class Store {
    var rows: map<string, Migration>
    var order: seq<string>             // ids in creation order, the listing order
    var locks: map<string, string>     // id of a locked migration to the id of its locker
    var failing: set<StoreCall>
    var log: seq<StoreCall>

    /** Every row is filed under its own id. */
    ghost predicate Valid()
      reads this`rows
    {
      forall id :: id in rows ==> rows[id].id == id
    }

    constructor ()
      ensures rows == map[] && order == [] && locks == map[] && failing == {} && log == []
      ensures Valid()
    {
      rows, order, locks, failing, log := map[], [], map[], {}, [];
    }

    method ListPending() returns (r: Result<seq<Migration>, StoreError>)
      modifies this`log
      ensures log == old(log) + [ListPendingWork]
      ensures r == if ListPendingWork in failing then Failure(StoreError(ListPendingWork))
                   else Success(PendingIn(order, rows, locks))
    {
      log := log + [ListPendingWork];
      r := if ListPendingWork in failing then Failure(StoreError(ListPendingWork))
           else Success(PendingIn(order, rows, locks));
    }

    /** The stored migration, or none when no row has that id. */
    method Get(id: string) returns (r: Result<Option<Migration>, StoreError>)
      modifies this`log
      ensures log == old(log) + [StoreCall.Get(id)]
      ensures r == if StoreCall.Get(id) in failing then Failure(StoreError(StoreCall.Get(id)))
                   else if id in rows then Success(Some(rows[id])) else Success(None)
    {
      var c := StoreCall.Get(id);
      log := log + [c];
      r := if c in failing then Failure(StoreError(c))
           else if id in rows then Success(Some(rows[id])) else Success(None);
    }

    /** Compare-and-set of the lock column: taken only when the row exists and nobody holds it. */
    method Lock(id: string, lockerID: string) returns (r: Result<bool, StoreError>)
      modifies this`log, this`locks
      ensures log == old(log) + [StoreCall.Lock(id, lockerID)]
      ensures r == if StoreCall.Lock(id, lockerID) in failing then Failure(StoreError(StoreCall.Lock(id, lockerID)))
                   else Success(id in rows && id !in old(locks))
      ensures locks == if r == Success(true) then old(locks)[id := lockerID] else old(locks)
    {
      var c := StoreCall.Lock(id, lockerID);
      log := log + [c];
      if c in failing {
        r := Failure(StoreError(c));
      } else if id in rows && id !in locks {
        locks := locks[id := lockerID];
        r := Success(true);
      } else {
        r := Success(false);
      }
    }

    /** Releases the lock when `lockerID` holds it, or whoever holds it when forced. */
    method Unlock(id: string, lockerID: string, force: bool) returns (r: Result<bool, StoreError>)
      modifies this`log, this`locks
      ensures log == old(log) + [StoreCall.Unlock(id, lockerID, force)]
      ensures r == if StoreCall.Unlock(id, lockerID, force) in failing
                   then Failure(StoreError(StoreCall.Unlock(id, lockerID, force)))
                   else Success(id in old(locks) && (force || old(locks)[id] == lockerID))
      ensures locks == if r == Success(true) then old(locks) - {id} else old(locks)
    {
      var c := StoreCall.Unlock(id, lockerID, force);
      log := log + [c];
      if c in failing {
        r := Failure(StoreError(c));
      } else if id in locks && (force || locks[id] == lockerID) {
        locks := locks - {id};
        r := Success(true);
      } else {
        r := Success(false);
      }
    }

    /** Writes `m` over the row with its id; a missing row is left missing. */
    method Update(m: Migration) returns (err: Option<StoreError>)
      modifies this`log, this`rows
      ensures log == old(log) + [StoreCall.Update(m.id, m.state)]
      ensures err == if StoreCall.Update(m.id, m.state) in failing then Some(StoreError(StoreCall.Update(m.id, m.state))) else None
      ensures rows == if err.None? && m.id in old(rows) then old(rows)[m.id := m] else old(rows)
    {
      var c := StoreCall.Update(m.id, m.state);
      log := log + [c];
      if c in failing {
        err := Some(StoreError(c));
      } else {
        err := None;
        if m.id in rows {
          rows := rows[m.id := m];
        }
      }
    }

    /** Stores `m` under the fresh id `newID` with creation time `now`; an id already used is rejected. */
    method Create(m: Migration, newID: string, now: int) returns (r: Result<Migration, StoreError>)
      modifies this`log, this`rows, this`order
      ensures log == old(log) + [StoreCall.Create(newID)]
      ensures r.Success? <==> StoreCall.Create(newID) !in failing && newID !in old(rows)
      ensures r.Success? ==> r.value == m.(id := newID, createAt := now)
                             && rows == old(rows)[newID := r.value] && order == old(order) + [newID]
      ensures r.Failure? ==> rows == old(rows) && order == old(order)
    {
      var c := StoreCall.Create(newID);
      log := log + [c];
      if c in failing || newID in rows {
        r := Failure(StoreError(c));
      } else {
        var created := m.(id := newID, createAt := now);
        rows := rows[newID := created];
        order := order + [newID];
        r := Success(created);
      }
    }
  }
}
