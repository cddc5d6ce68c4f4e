/**
 * The catalogue of cluster installation migration states: the state names
 * and the three lists the rest of the system consults.
 */
module MigrationStates {

  const Stable := "stable"
  const CreationRequested := "creation-requested"
  const CreationComplete := "creation-complete"
  const CreationFailed := "creation-failed"
  const SnapshotCreationIP := "snapshot-creation-in-progress"
  const SnapshotCreationComplete := "snapshot-creation-complete"
  const RestoreDatabaseIP := "restore-database-in-progress"
  const RestoreDatabaseComplete := "restore-database-complete"
  const ClusterInstallationCreationIP := "cluster-installation-in-progress"
  const ClusterInstallationCreationComplete := "cluster-installation-creation-complete"

  /** Every state name the catalogue declares, in declaration order; no two are equal. */
  function Declared(): (r: seq<string>)
    ensures |r| == 10
    ensures forall i, j :: 0 <= i < j < |r| ==> r[i] != r[j]
  {
    [Stable, CreationRequested, CreationComplete, CreationFailed,
     SnapshotCreationIP, SnapshotCreationComplete,
     RestoreDatabaseIP, RestoreDatabaseComplete,
     ClusterInstallationCreationIP, ClusterInstallationCreationComplete]
  }

  /**
   * `AllCIMigrations`: eight distinct declared states; the two
   * cluster-installation states are declared but not listed.
   */
  function AllCIMigrations(): (r: seq<string>)
    ensures |r| == 8
    ensures forall i, j :: 0 <= i < j < |r| ==> r[i] != r[j]
    ensures forall s :: s in r ==> s in Declared()
    ensures ClusterInstallationCreationIP !in r && ClusterInstallationCreationComplete !in r
  {
    [Stable, CreationRequested, CreationComplete, CreationFailed,
     SnapshotCreationIP, SnapshotCreationComplete,
     RestoreDatabaseIP, RestoreDatabaseComplete]
  }

  /**
   * `AllCIMigrationsPendingWork`: the states the supervisor works on. The list
   * repeats two entries, so it is used only through membership.
   */
  function AllCIMigrationsPendingWork(): (r: seq<string>)
    ensures forall s :: s in r ==> s in AllCIMigrations()
    ensures Stable !in r && CreationFailed !in r
    ensures |r| == 8 && r[0] == r[2] && r[1] == r[4]
    ensures forall s :: s in r <==> s in AllCIMigrations() && s != Stable && s != CreationFailed
  {
    [CreationRequested, SnapshotCreationIP, CreationRequested, CreationComplete,
     SnapshotCreationIP, SnapshotCreationComplete,
     RestoreDatabaseIP, RestoreDatabaseComplete]
  }

  /** `AllCMIRequestStates`: the only state a request may ask for is creation-requested. */
  function AllCMIRequestStates(): (r: seq<string>)
    ensures forall s :: s in r <==> s == CreationRequested
    ensures forall s :: s in r ==> s in AllCIMigrations()
  {
    [CreationRequested]
  }

  predicate IsPendingWork(state: string) {
    state in AllCIMigrationsPendingWork()
  }
}
