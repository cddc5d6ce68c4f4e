/**
 * The migration endpoints of the provisioning API: creating a migration
 * request, which hands it straight to the supervisor, and locking one
 * migration for the length of a request, with an unlock that runs at most once.
 * Request decoding and the response writer are reduced to an optional request
 * and a status code with an optional body.
 */
module MigrationApi {
  import opened Wrappers
  import opened MigrationStates
  import opened MigrationStore
  import opened MigrationSupervisor

  const StatusAccepted := 202
  const StatusBadRequest := 400
  const StatusNotFound := 404
  const StatusConflict := 409
  const StatusInternalServerError := 500

  /** A decoded create request; an undecodable body is `None`. */
  datatype CreateRequest = CreateRequest(clusterID: string, clusterInstallationID: string)

  datatype Response = Response(status: int, body: Option<Migration>)

  /** The migration a create request asks for, before the store gives it an id and a creation time. */
  function RequestedMigration(request: CreateRequest): (m: Migration)
    ensures m.clusterID == request.clusterID && m.clusterInstallationID == request.clusterInstallationID
    ensures m.state == CreationRequested && m.state in AllCMIRequestStates()
  {
    Migration("", request.clusterID, request.clusterInstallationID, CreationRequested, 0)
  }

  /**
   * `handleCreateClusterInstallationMigration`: an undecodable request is
   * refused with 400 and touches nothing; a store failure answers 500 and does
   * not wake the supervisor; otherwise the supervisor runs one tick and the
   * answer is 202 with the migration as it was created.
   */
  method HandleCreateClusterInstallationMigration(s: Store, sup: Supervisor, request: Option<CreateRequest>,
                                                  newID: string, now: int)
      returns (resp: Response)
    requires sup.store == s && s.Valid()
    modifies s`log, s`rows, s`order, s`locks
    ensures s.Valid()
    ensures request.None? ==>
              resp == Response(StatusBadRequest, None)
              && s.log == old(s.log) && s.rows == old(s.rows) && s.order == old(s.order) && s.locks == old(s.locks)
    ensures request.Some? && (StoreCall.Create(newID) in s.failing || newID in old(s.rows)) ==>
              resp == Response(StatusInternalServerError, None)
              && s.log == old(s.log) + [StoreCall.Create(newID)]
              && s.rows == old(s.rows) && s.order == old(s.order) && s.locks == old(s.locks)
    ensures request.Some? && StoreCall.Create(newID) !in s.failing && newID !in old(s.rows) ==>
              && resp.status == StatusAccepted
              && resp.body == Some(RequestedMigration(request.value).(id := newID, createAt := now))
              && old(s.log) + [StoreCall.Create(newID), ListPendingWork] <= s.log
              && s.order == old(s.order) + [newID]
  {
    if request.None? {
      return Response(StatusBadRequest, None);
    }
    var migration := RequestedMigration(request.value);
    var created := s.Create(migration, newID, now);
    if created.Failure? {
      return Response(StatusInternalServerError, None);
    }
    var _ := sup.Do();
    resp := Response(StatusAccepted, Some(created.value));
  }

  /**
   * The unlock handed out by `lockMigration`: the first call releases the
   * request's lock on the migration, without forcing it; every later call does
   * nothing.
   */
  class MigrationUnlocker {
    const store: Store
    const id: string
    const owner: string
    var done: bool

    constructor (store: Store, id: string, owner: string)
      ensures this.store == store && this.id == id && this.owner == owner && !done
    {
      this.store := store;
      this.id := id;
      this.owner := owner;
      done := false;
    }

    method Unlock()
      modifies this`done, store`log, store`locks
      ensures done
      ensures old(done) ==> store.log == old(store.log) && store.locks == old(store.locks)
      ensures !old(done) ==>
                var call := StoreCall.Unlock(id, owner, false);
                && store.log == old(store.log) + [call]
                && store.locks == (if call !in store.failing && id in old(store.locks) && old(store.locks)[id] == owner
                                   then old(store.locks) - {id} else old(store.locks))
    {
      if done {
        return;
      }
      done := true;
      var _ := store.Unlock(id, owner, false);
    }
  }

  /**
   * `lockMigration`: a failed lookup or lock answers 500, a missing migration
   * 404 and a lock held by someone else 409, none of them with an unlock; on
   * success the status is 0 and a fresh unlock for the request's lock comes
   * with the migration.
   */
  method LockMigration(s: Store, migrationID: string, requestID: string)
      returns (m: Option<Migration>, status: int, unlock: Option<MigrationUnlocker>)
    requires s.Valid()
    modifies s`log, s`locks
    ensures m.Some? <==> status == 0
    ensures unlock.Some? <==> status == 0
    ensures var get := StoreCall.Get(migrationID);
      get in s.failing ==> status == StatusInternalServerError && s.log == old(s.log) + [get]
    ensures var get := StoreCall.Get(migrationID);
      get !in s.failing && migrationID !in s.rows ==> status == StatusNotFound && s.log == old(s.log) + [get]
    ensures var get, lock := StoreCall.Get(migrationID), StoreCall.Lock(migrationID, requestID);
      get !in s.failing && migrationID in s.rows ==>
        && s.log == old(s.log) + [get, lock]
        && (lock in s.failing ==> status == StatusInternalServerError)
        && (lock !in s.failing && migrationID in old(s.locks) ==> status == StatusConflict)
        && (lock !in s.failing && migrationID !in old(s.locks) ==> status == 0)
    ensures status != 0 ==> s.locks == old(s.locks)
    ensures status == 0 ==>
              && m.value == s.rows[migrationID]
              && s.locks == old(s.locks)[migrationID := requestID]
              && fresh(unlock.value) && !unlock.value.done
              && unlock.value.store == s && unlock.value.id == migrationID && unlock.value.owner == requestID
  {
    var migration := s.Get(migrationID);
    if migration.Failure? {
      return None, StatusInternalServerError, None;
    }
    if migration.value.None? {
      return None, StatusNotFound, None;
    }
    var locked := s.Lock(migrationID, requestID);
    if locked.Failure? {
      return None, StatusInternalServerError, None;
    } else if !locked.value {
      return None, StatusConflict, None;
    }
    var unlocker := new MigrationUnlocker(s, migration.value.value.id, requestID);
    m, status, unlock := migration.value, 0, Some(unlocker);
  }
}
