/**
 * The cluster installation migration supervisor: one tick lists the unlocked
 * migrations pending work and supervises each one under its lock, writing a
 * new state only when the transition changes the stored one.
 */
module MigrationSupervisor {
  import opened Wrappers
  import opened MigrationStates
  import opened MigrationStore

  /** The installation states the transition switch tests a migration's state against. */
  const InstallationStateCreationRequested := "creation-requested"
  const InstallationStateCreationNoCompatibleClusters := "creation-no-compatible-clusters"

  /**
   * `transitionClusterInstallationMigration`: the two creation-requested states
   * go to the creation step, which is not implemented and always reports
   * creation-failed; every other state is kept.
   */
  function Transition(m: Migration, clusterID: string): (r: string)
    ensures r != m.state <==>
              m.state == InstallationStateCreationRequested || m.state == InstallationStateCreationNoCompatibleClusters
    ensures r != m.state ==> r == CreationFailed
  {
    if m.state == InstallationStateCreationRequested || m.state == InstallationStateCreationNoCompatibleClusters
    then CreateClusterInstallationMigration(m, clusterID)
    else m.state
  }

  /** `createClusterInstallationMigration`: creation has no steps yet and always fails. */
  function CreateClusterInstallationMigration(m: Migration, clusterID: string): string
  {
    CreationFailed
  }

  /**
   * What the transition does to the catalogue: the requested state is driven
   * to creation-failed, which is terminal and no longer pending work, finished
   * states stay put, and a second transition changes nothing.
   */
  lemma TransitionProperties(m: Migration, clusterID: string)
    ensures m.state == CreationRequested ==> Transition(m, clusterID) == CreationFailed
    ensures m.state in {Stable, CreationFailed, CreationComplete} ==> Transition(m, clusterID) == m.state
    ensures Transition(m, clusterID) != m.state ==> !IsPendingWork(Transition(m, clusterID))
    ensures m.state in AllCIMigrations() ==> Transition(m, clusterID) in AllCIMigrations()
    ensures Transition(m.(state := Transition(m, clusterID)), clusterID) == Transition(m, clusterID)
  {
  }

  /** The calls of a call log that try to take a migration lock, in order. */
  function LockAttempts(log: seq<StoreCall>): seq<StoreCall>
  {
    if log == [] then []
    else (if log[0].Lock? then [log[0]] else []) + LockAttempts(log[1..])
  }

  /** The lock attempts are lock calls of the log, and every lock call of the log is one. */
  lemma {:induction false} LockAttemptsExact(log: seq<StoreCall>)
    ensures forall c :: c in LockAttempts(log) <==> c in log && c.Lock?
  {
    if log != [] {
      LockAttemptsExact(log[1..]);
      assert log == [log[0]] + log[1..];
    }
  }

  lemma {:induction false} LockAttemptsAppend(a: seq<StoreCall>, b: seq<StoreCall>)
    ensures LockAttempts(a + b) == LockAttempts(a) + LockAttempts(b)
  {
    if a == [] {
      assert a + b == b;
    } else {
      var head := if a[0].Lock? then [a[0]] else [];
      assert (a + b)[0] == a[0];
      assert (a + b)[1..] == a[1..] + b;
      assert LockAttempts(a + b) == head + LockAttempts(a[1..] + b);
      LockAttemptsAppend(a[1..], b);
      assert LockAttempts(a) == head + LockAttempts(a[1..]);
      assert head + (LockAttempts(a[1..]) + LockAttempts(b)) == (head + LockAttempts(a[1..])) + LockAttempts(b);
    }
  }

  /** A call that is not a lock attempt adds none. */
  lemma LockAttemptsAppendOther(log: seq<StoreCall>, c: StoreCall)
    requires !c.Lock?
    ensures LockAttempts(log + [c]) == LockAttempts(log)
  {
    LockAttemptsAppend(log, [c]);
    assert LockAttempts([c]) == [];
  }

  /** A lock attempt adds itself. */
  lemma LockAttemptsAppendLock(log: seq<StoreCall>, c: StoreCall)
    requires c.Lock?
    ensures LockAttempts(log + [c]) == LockAttempts(log) + [c]
  {
    LockAttemptsAppend(log, [c]);
    assert LockAttempts([c]) == [c];
  }

  /** The lock attempts one supervision pass per migration makes, in listing order. */
  function LockCalls(ms: seq<Migration>): (r: seq<StoreCall>)
    ensures |r| == |ms| && forall i :: 0 <= i < |ms| ==> r[i] == StoreCall.Lock(ms[i].id, ms[i].clusterID)
  {
    seq(|ms|, i requires 0 <= i < |ms| => StoreCall.Lock(ms[i].id, ms[i].clusterID))
  }

  /** Whether the store grants the migration's lock: the lock call succeeds and nobody holds it. */
  predicate LockGranted(s: Store, m: Migration)
    reads s`failing, s`rows, s`locks
  {
    StoreCall.Lock(m.id, m.clusterID) !in s.failing && m.id in s.rows && m.id !in s.locks
  }

  class Supervisor {
    const clusterID: string
    const store: Store

    constructor (store: Store, clusterID: string)
      ensures this.store == store && this.clusterID == clusterID
    {
      this.store := store;
      this.clusterID := clusterID;
    }

    /**
     * `Supervise`: under the migration's lock, computes the new state, re-reads
     * the row and writes the new state only if it differs from the stored one;
     * the lock, once taken, is released on every path.
     */
    method Supervise(m: Migration)
      requires store.Valid()
      modifies store`log, store`locks, store`rows
      ensures store.Valid()
      ensures old(store.log) <= store.log
      ensures LockAttempts(store.log) == LockAttempts(old(store.log)) + [StoreCall.Lock(m.id, m.clusterID)]
      ensures !old(LockGranted(store, m)) ==>
                store.log == old(store.log) + [StoreCall.Lock(m.id, m.clusterID)]
                && store.rows == old(store.rows) && store.locks == old(store.locks)
      ensures old(LockGranted(store, m)) ==>
                var newState := Transition(m, clusterID);
                var current := old(store.rows)[m.id];
                var get, update := StoreCall.Get(m.id), StoreCall.Update(m.id, newState);
                var unlock := StoreCall.Unlock(m.id, m.clusterID, false);
                var writes := get !in store.failing && current.state != newState;
                && store.log == old(store.log) + [StoreCall.Lock(m.id, m.clusterID), get]
                                + (if writes then [update] else []) + [unlock]
                && store.rows == (if writes && update !in store.failing
                                  then old(store.rows)[m.id := current.(state := newState)] else old(store.rows))
                && store.locks == (if unlock in store.failing then old(store.locks)[m.id := m.clusterID]
                                   else old(store.locks))
    {
      var lock := StoreCall.Lock(m.id, m.clusterID);
      LockAttemptsAppendLock(store.log, lock);
      var locked := store.Lock(m.id, m.clusterID);
      if locked != Success(true) {
        return;
      }
      ghost var current := store.rows[m.id];
      assert current.id == m.id;
      var newState := Transition(m, clusterID);
      LockAttemptsAppendOther(store.log, StoreCall.Get(m.id));
      var got := store.Get(m.id);
      if got.Success? {
        var migration := got.value.value;
        assert migration == current;
        if migration.state != newState {
          LockAttemptsAppendOther(store.log, StoreCall.Update(m.id, newState));
          var e := store.Update(migration.(state := newState));
        }
      }
      assert store.locks == old(store.locks)[m.id := m.clusterID];
      LockAttemptsAppendOther(store.log, StoreCall.Unlock(m.id, m.clusterID, false));
      var unlocked := store.Unlock(m.id, m.clusterID, false);
      assert old(store.locks)[m.id := m.clusterID] - {m.id} == old(store.locks);
    }

    /**
     * `Do`: lists the unlocked migrations pending work and supervises each
     * once, in listing order; a failed listing supervises nothing. It never
     * reports an error.
     */
    method Do() returns (err: Option<StoreError>)
      requires store.Valid()
      modifies store`log, store`locks, store`rows
      ensures store.Valid()
      ensures err == None
      ensures old(store.log) + [ListPendingWork] <= store.log
      ensures ListPendingWork in store.failing ==>
                store.log == old(store.log) + [ListPendingWork]
                && store.rows == old(store.rows) && store.locks == old(store.locks)
      ensures ListPendingWork !in store.failing ==>
                LockAttempts(store.log)
                == LockAttempts(old(store.log)) + LockCalls(old(PendingIn(store.order, store.rows, store.locks)))
    {
      var listed := store.ListPending();
      if listed.Failure? {
        return None;
      }
      var migrations := listed.value;
      LockAttemptsAppend(old(store.log), [ListPendingWork]);
      for i := 0 to |migrations|
        invariant old(store.log) + [ListPendingWork] <= store.log
        invariant LockAttempts(store.log) == LockAttempts(old(store.log)) + LockCalls(migrations[..i])
        invariant store.Valid()
      {
        Supervise(migrations[i]);
        assert LockCalls(migrations[..i + 1]) == LockCalls(migrations[..i]) + [StoreCall.Lock(migrations[i].id, migrations[i].clusterID)];
      }
      assert migrations[..|migrations|] == migrations;
      err := None;
    }
  }
}
