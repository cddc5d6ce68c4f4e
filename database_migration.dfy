/**
 * The RDS database-migration capability: names derived from the master
 * installation, selection of the most recent tagged snapshot, the snapshot and
 * endpoint status mappings, and the order of checks and calls in `Restore`.
 * The snapshot listing, each snapshot's tag list and the endpoint listing are
 * the answers of RDS, passed in as values.
 */
module DatabaseMigration {
  import opened Wrappers
  import opened Tags
  import opened AwsConstants
  import opened AwsClient
  import Rds

  /** The migration status values the capability reports. */
  datatype MigrationStatus =
    | SnapshotCreationIP
    | SnapshotModifying
    | SnapshotCreationComplete
    | DatabaseCreationIP
    | DatabaseCreationComplete

  datatype RDSDatabaseMigration = RDSDatabaseMigration(
    masterDBClusterID: string,
    masterInstanceName: string,
    replicaClusterID: string,
    replicaDBClusterID: string)

  /** A DB cluster snapshot as RDS describes it; create times are instants as integers. */
  datatype DBClusterSnapshot = DBClusterSnapshot(arn: string, identifier: string, status: string, createTime: int)

  datatype DBClusterEndpoint = DBClusterEndpoint(endpoint: string, status: string)

  const StatusContext := "unabled to check RDS database status"
  const SnapshotContext := "unabled to snapshot RDS database: "
  const NotAvailableMessage := " - snapshot is not available"
  const RestoreContext := "unabled to restore RDS database"
  const Separator := ": "
  const DBClusterLabel := ": DB cluster "
  const DBClusterIDLabel := ": db cluster id "
  const SnapshotIDLabel := ": snapshot id "
  const EndpointLabel := ": endpoint "
  const UnknownEndpointStatusLabel := ": unknown endpoint status "
  const UnknownSnapshotStatusLabel := "unknown snapshot status "
  const NoSnapshotsSuffix := " has no snapshots"
  const NoEndpointsSuffix := " has no endpoints"
  const BeingDeletedSuffix := " is being deleted"
  const BeingModifiedSuffix := " is being modified"
  const VpcWhat := "VPC"
  const MigratedSuffix := "-migrated"
  const MasterSuffix := "-master"

  /** `NewRDSDatabaseMigration`: the replica cluster and its instance are named after the master cluster. */
  function NewRDSDatabaseMigration(masterInstallationID: string, replicaClusterID: string): (d: RDSDatabaseMigration)
    ensures d.masterDBClusterID == CloudID(masterInstallationID)
    ensures d.replicaClusterID == replicaClusterID
    ensures d.replicaDBClusterID == d.masterDBClusterID + MigratedSuffix
    ensures d.masterInstanceName == d.replicaDBClusterID + MasterSuffix
  {
    RDSDatabaseMigration(
      CloudID(masterInstallationID),
      CloudID(masterInstallationID) + MigratedSuffix + MasterSuffix,
      replicaClusterID,
      CloudID(masterInstallationID) + MigratedSuffix)
  }

  /** The three RDS names of a migration are pairwise distinct. */
  lemma NamesDistinct(masterInstallationID: string, replicaClusterID: string)
    ensures var d := NewRDSDatabaseMigration(masterInstallationID, replicaClusterID);
      d.masterDBClusterID != d.replicaDBClusterID && d.replicaDBClusterID != d.masterInstanceName
      && d.masterDBClusterID != d.masterInstanceName
  {
    var d := NewRDSDatabaseMigration(masterInstallationID, replicaClusterID);
    assert |d.masterDBClusterID| < |d.replicaDBClusterID| < |d.masterInstanceName|;
  }

  /** Two installations never share a replica cluster or a replica instance name. */
  lemma NamesInjective(id1: string, id2: string, replicaClusterID: string)
    requires id1 != id2
    ensures var d1, d2 := NewRDSDatabaseMigration(id1, replicaClusterID), NewRDSDatabaseMigration(id2, replicaClusterID);
      d1.masterDBClusterID != d2.masterDBClusterID && d1.replicaDBClusterID != d2.replicaDBClusterID
      && d1.masterInstanceName != d2.masterInstanceName
  {
    var d1, d2 := NewRDSDatabaseMigration(id1, replicaClusterID), NewRDSDatabaseMigration(id2, replicaClusterID);
    if CloudID(id1) == CloudID(id2) {
      CloudIDInjective(id1, id2);
    }
    assert d1.replicaDBClusterID[..|CloudID(id1)|] == CloudID(id1);
    assert d2.replicaDBClusterID[..|CloudID(id2)|] == CloudID(id2);
    assert d1.masterInstanceName[..|CloudID(id1)|] == CloudID(id1);
    assert d2.masterInstanceName[..|CloudID(id2)|] == CloudID(id2);
  }
  /**
   * Across roles the names can coincide: the master cluster of installation
   * `id + "-migrated"` is the replica cluster of installation `id`.
   */
  lemma NamesCollideAcrossRoles(id: string, replicaClusterID: string)
    ensures NewRDSDatabaseMigration(id + MigratedSuffix, replicaClusterID).masterDBClusterID
            == NewRDSDatabaseMigration(id, replicaClusterID).replicaDBClusterID
  {
    assert CloudID(id + MigratedSuffix) == CloudIDPrefix + id + MigratedSuffix;
  }

  /** For installation ids of one length, no name of one migration is a name of another in any role. */
  lemma NamesDisjointForEqualLengthIDs(id1: string, id2: string, replicaClusterID: string)
    requires id1 != id2 && |id1| == |id2|
    ensures var d1, d2 := NewRDSDatabaseMigration(id1, replicaClusterID), NewRDSDatabaseMigration(id2, replicaClusterID);
      var names1, names2 := {d1.masterDBClusterID, d1.replicaDBClusterID, d1.masterInstanceName},
                            {d2.masterDBClusterID, d2.replicaDBClusterID, d2.masterInstanceName};
      names1 !! names2
  {
    var d1, d2 := NewRDSDatabaseMigration(id1, replicaClusterID), NewRDSDatabaseMigration(id2, replicaClusterID);
    NamesInjective(id1, id2, replicaClusterID);
    assert |d1.masterDBClusterID| == |d2.masterDBClusterID| < |d1.replicaDBClusterID| == |d2.replicaDBClusterID|
           < |d1.masterInstanceName| == |d2.masterInstanceName|;
  }


  // ---------------------------------------------------------------------------
  // Snapshot selection

  /** The tag the snapshots of `master` carry. */
  predicate IsSnapshotTag(tag: RDSTag, master: string) {
    tag.key == Some(SnapshotTagKey) && tag.value == Some(SnapshotTagValue(master))
  }

  /** The tags `Snapshot` puts on a snapshot of `master`. */
  function SnapshotTags(master: string): (r: seq<RDSTag>)
    ensures |r| == 1
  {
    [RDSTag(Some(SnapshotTagKey), Some(SnapshotTagValue(master)))]
  }

  /** `s` once for every matching tag among `tags`, as the scan appends it. */
  function MatchesOf(s: DBClusterSnapshot, tags: seq<RDSTag>, master: string): seq<DBClusterSnapshot>
  {
    if tags == [] then []
    else MatchesOf(s, tags[..|tags| - 1], master) + (if IsSnapshotTag(tags[|tags| - 1], master) then [s] else [])
  }

  /** The candidates the scan collects, in listing order, from snapshots whose tags were listed. */
  function Candidates(snaps: seq<DBClusterSnapshot>, tagsOf: seq<Result<seq<RDSTag>, Error>>, master: string)
    : seq<DBClusterSnapshot>
    requires |snaps| == |tagsOf|
  {
    if snaps == [] then []
    else
      var n := |snaps| - 1;
      Candidates(snaps[..n], tagsOf[..n], master)
      + (if tagsOf[n].Success? then MatchesOf(snaps[n], tagsOf[n].value, master) else [])
  }

  /** The error of the first tag listing that failed, if any. */
  function FirstFailure(tagsOf: seq<Result<seq<RDSTag>, Error>>): (r: Option<Error>)
    ensures r.None? <==> forall i :: 0 <= i < |tagsOf| ==> tagsOf[i].Success?
  {
    if tagsOf == [] then None
    else if tagsOf[0].Failure? then Some(tagsOf[0].error)
    else FirstFailure(tagsOf[1..])
  }

  lemma {:induction false} FirstFailureAt(tagsOf: seq<Result<seq<RDSTag>, Error>>, k: nat)
    requires k < |tagsOf| && tagsOf[k].Failure?
    requires forall i :: 0 <= i < k ==> tagsOf[i].Success?
    ensures FirstFailure(tagsOf) == Some(tagsOf[k].error)
  {
    if k > 0 {
      FirstFailureAt(tagsOf[1..], k - 1);
    }
  }

  /** Stable insertion into a list ordered newest first: `x` goes before every element not newer than it. */
  function InsertDesc(x: DBClusterSnapshot, t: seq<DBClusterSnapshot>): (r: seq<DBClusterSnapshot>)
    ensures |r| == |t| + 1
    ensures r[0] == if t == [] || x.createTime >= t[0].createTime then x else t[0]
  {
    if t == [] then [x]
    else if x.createTime >= t[0].createTime then [x] + t
    else [t[0]] + InsertDesc(x, t[1..])
  }

  /** A stable sort by create time, newest first. */
  function SortDesc(s: seq<DBClusterSnapshot>): (r: seq<DBClusterSnapshot>)
    ensures |r| == |s|
  {
    if s == [] then [] else InsertDesc(s[0], SortDesc(s[1..]))
  }

  predicate NewestFirst(s: seq<DBClusterSnapshot>) {
    forall i, j :: 0 <= i < j < |s| ==> s[i].createTime >= s[j].createTime
  }

  /** Reference definition of the answer: the index of the first snapshot with the latest create time. */
  function FirstNewest(s: seq<DBClusterSnapshot>): (k: nat)
    requires s != []
    ensures k < |s|
    ensures forall j :: 0 <= j < |s| ==> s[j].createTime <= s[k].createTime
    ensures forall j :: 0 <= j < k ==> s[j].createTime < s[k].createTime
  {
    if |s| == 1 then 0
    else
      var k := FirstNewest(s[1..]);
      if s[0].createTime >= s[k + 1].createTime then 0 else k + 1
  }

  lemma {:induction false} InsertDescPermutes(x: DBClusterSnapshot, t: seq<DBClusterSnapshot>)
    ensures multiset(InsertDesc(x, t)) == multiset(t) + multiset{x}
  {
    if t != [] && x.createTime < t[0].createTime {
      InsertDescPermutes(x, t[1..]);
      assert t == [t[0]] + t[1..];
    }
  }

  lemma {:induction false} InsertDescKeepsOrder(x: DBClusterSnapshot, t: seq<DBClusterSnapshot>)
    requires NewestFirst(t)
    ensures NewestFirst(InsertDesc(x, t))
  {
    if t != [] && x.createTime < t[0].createTime {
      InsertDescKeepsOrder(x, t[1..]);
      InsertDescPermutes(x, t[1..]);
      var r := InsertDesc(x, t);
      forall i, j | 0 <= i < j < |r|
        ensures r[i].createTime >= r[j].createTime
      {
        if i == 0 {
          assert r[j] in multiset(InsertDesc(x, t[1..]));
          assert r[j] == x || r[j] in t[1..];
        }
      }
    }
  }

  /** The sort returns a permutation of its input. */
  lemma {:induction false} SortDescPermutes(s: seq<DBClusterSnapshot>)
    ensures multiset(SortDesc(s)) == multiset(s)
  {
    if s != [] {
      SortDescPermutes(s[1..]);
      InsertDescPermutes(s[0], SortDesc(s[1..]));
      assert s == [s[0]] + s[1..];
    }
  }

  /** The sort orders newest first. */
  lemma {:induction false} SortDescOrders(s: seq<DBClusterSnapshot>)
    ensures NewestFirst(SortDesc(s))
  {
    if s != [] {
      SortDescOrders(s[1..]);
      InsertDescKeepsOrder(s[0], SortDesc(s[1..]));
    }
  }

  /** Because the sort is stable, its head is the first of the newest snapshots. */
  lemma {:induction false} SortDescHead(s: seq<DBClusterSnapshot>)
    requires s != []
    ensures SortDesc(s)[0] == s[FirstNewest(s)]
  {
    if |s| > 1 {
      SortDescHead(s[1..]);
    }
  }

  /**
   * `getMostRecentSnapshot` as a function of the RDS answers: a failed listing
   * or tag listing is an error, no candidate is an error, and otherwise the
   * head of the candidates sorted newest first.
   */
  function MostRecentSnapshot(described: Result<seq<DBClusterSnapshot>, Error>,
                              tagsOf: seq<Result<seq<RDSTag>, Error>>, master: string)
    : Result<DBClusterSnapshot, Error>
    requires described.Success? ==> |tagsOf| == |described.value|
  {
    if described.Failure? then Failure(Wrapped(RestoreContext, described.error))
    else match FirstFailure(tagsOf)
      case Some(e) => Failure(Wrapped(RestoreContext, e))
      case None =>
        var c := Candidates(described.value, tagsOf, master);
        if c == [] then Failure(Message(RestoreContext + DBClusterLabel + master + NoSnapshotsSuffix))
        else Success(SortDesc(c)[0])
  }

  /** A listed snapshot carrying a matching tag is a candidate. */
  lemma {:induction false} TaggedIsCandidate(snaps: seq<DBClusterSnapshot>, tagsOf: seq<Result<seq<RDSTag>, Error>>,
                                              master: string, i: nat, t: nat)
    requires |snaps| == |tagsOf| && i < |snaps| && tagsOf[i].Success?
    requires t < |tagsOf[i].value| && IsSnapshotTag(tagsOf[i].value[t], master)
    ensures snaps[i] in Candidates(snaps, tagsOf, master)
  {
    var n := |snaps| - 1;
    if i < n {
      TaggedIsCandidate(snaps[..n], tagsOf[..n], master, i, t);
    } else {
      MatchedTagMatches(snaps[i], tagsOf[i].value, master, t);
    }
  }

  lemma {:induction false} MatchedTagMatches(s: DBClusterSnapshot, tags: seq<RDSTag>, master: string, t: nat)
    requires t < |tags| && IsSnapshotTag(tags[t], master)
    ensures s in MatchesOf(s, tags, master)
  {
    if t < |tags| - 1 {
      MatchedTagMatches(s, tags[..|tags| - 1], master, t);
    }
  }

  /** Every candidate is a listed snapshot carrying a matching tag. */
  lemma {:induction false} CandidateIsTagged(snaps: seq<DBClusterSnapshot>, tagsOf: seq<Result<seq<RDSTag>, Error>>,
                                              master: string, x: DBClusterSnapshot)
    requires |snaps| == |tagsOf| && x in Candidates(snaps, tagsOf, master)
    ensures exists i, t :: 0 <= i < |snaps| && snaps[i] == x && tagsOf[i].Success? && 0 <= t < |tagsOf[i].value|
                           && IsSnapshotTag(tagsOf[i].value[t], master)
  {
    var n := |snaps| - 1;
    if x in Candidates(snaps[..n], tagsOf[..n], master) {
      CandidateIsTagged(snaps[..n], tagsOf[..n], master, x);
      var i, t :| 0 <= i < n && snaps[..n][i] == x && tagsOf[..n][i].Success? && 0 <= t < |tagsOf[..n][i].value|
                  && IsSnapshotTag(tagsOf[..n][i].value[t], master);
      assert snaps[i] == x && tagsOf[i] == tagsOf[..n][i];
    } else {
      var t := MatchIsTagged(snaps[n], tagsOf[n].value, master, x);
      assert snaps[n] == x;
    }
  }

  lemma {:induction false} MatchIsTagged(s: DBClusterSnapshot, tags: seq<RDSTag>, master: string, x: DBClusterSnapshot)
    returns (t: nat)
    requires x in MatchesOf(s, tags, master)
    ensures x == s && t < |tags| && IsSnapshotTag(tags[t], master)
  {
    if x in MatchesOf(s, tags[..|tags| - 1], master) {
      t := MatchIsTagged(s, tags[..|tags| - 1], master, x);
    } else {
      t := |tags| - 1;
    }
  }

  /**
   * Selection fails exactly when a listing fails or nothing matches; otherwise it
   * returns the first, in listing order, of the newest matching snapshots.
   */
  lemma MostRecentSnapshotIsNewestCandidate(described: Result<seq<DBClusterSnapshot>, Error>,
                                            tagsOf: seq<Result<seq<RDSTag>, Error>>, master: string)
    requires described.Success? ==> |tagsOf| == |described.value|
    ensures var r := MostRecentSnapshot(described, tagsOf, master);
      r.Success? <==> described.Success? && FirstFailure(tagsOf).None? && Candidates(described.value, tagsOf, master) != []
    ensures var r := MostRecentSnapshot(described, tagsOf, master);
      r.Success? ==>
        var c := Candidates(described.value, tagsOf, master);
        c != [] && r.value == c[FirstNewest(c)] && r.value in c
        && (forall j :: 0 <= j < |c| ==> c[j].createTime <= r.value.createTime)
  {
    var r := MostRecentSnapshot(described, tagsOf, master);
    if r.Success? {
      var c := Candidates(described.value, tagsOf, master);
      SortDescHead(c);
    }
  }

  /** Round trip: the tags `Snapshot` attaches are exactly the ones selection looks for, and no other master's. */
  lemma SnapshotTagsSelected(master: string, other: string)
    ensures IsSnapshotTag(SnapshotTags(master)[0], master)
    ensures IsSnapshotTag(SnapshotTags(other)[0], master) <==> other == master
  {
    if SnapshotTagValue(other) == SnapshotTagValue(master) {
      SnapshotTagValueInjective(other, master);
    }
  }

  /** A listed snapshot carrying the tags `Snapshot` attaches is a selection candidate. */
  lemma SnapshotIsCandidate(snaps: seq<DBClusterSnapshot>, tagsOf: seq<Result<seq<RDSTag>, Error>>, master: string, i: nat)
    requires |snaps| == |tagsOf| && i < |snaps| && tagsOf[i] == Success(SnapshotTags(master))
    ensures snaps[i] in Candidates(snaps, tagsOf, master)
  {
    SnapshotTagsSelected(master, master);
    TaggedIsCandidate(snaps, tagsOf, master, i, 0);
  }

  /** The inner scan of `getMostRecentSnapshot`: the snapshot once per tag that names the master cluster. */
  method ScanTags(s: DBClusterSnapshot, tags: seq<RDSTag>, master: string) returns (matches: seq<DBClusterSnapshot>)
    ensures matches == MatchesOf(s, tags, master)
  {
    matches := [];
    for j := 0 to |tags|
      invariant matches == MatchesOf(s, tags[..j], master)
    {
      var tag := tags[j];
      assert tags[..j + 1][..j] == tags[..j];
      if tag.key.Some? && tag.value.Some? && tag.key.value == SnapshotTagKey && tag.value.value == SnapshotTagValue(master) {
        matches := matches + [s];
      }
    }
    assert tags[..|tags|] == tags;
  }

  /**
   * `getMostRecentSnapshot`: scans every listed snapshot's tags, collecting the
   * snapshot once per matching tag, then sorts the candidates newest first.
   */
  method GetMostRecentSnapshot(master: string, described: Result<seq<DBClusterSnapshot>, Error>,
                               tagsOf: seq<Result<seq<RDSTag>, Error>>)
    returns (r: Result<DBClusterSnapshot, Error>)
    requires described.Success? ==> |tagsOf| == |described.value|
    ensures r == MostRecentSnapshot(described, tagsOf, master)
  {
    if described.Failure? {
      return Failure(Wrapped(RestoreContext, described.error));
    }
    var all := described.value;
    var snapshots: seq<DBClusterSnapshot> := [];
    for i := 0 to |all|
      invariant forall k :: 0 <= k < i ==> tagsOf[k].Success?
      invariant snapshots == Candidates(all[..i], tagsOf[..i], master)
    {
      var tags := tagsOf[i];
      if tags.Failure? {
        FirstFailureAt(tagsOf, i);
        return Failure(Wrapped(RestoreContext, tags.error));
      }
      var matches := ScanTags(all[i], tags.value, master);
      snapshots := snapshots + matches;
      assert all[..i + 1][..i] == all[..i] && tagsOf[..i + 1][..i] == tagsOf[..i];
    }
    assert all[..|all|] == all && tagsOf[..|all|] == tagsOf;
    if snapshots == [] {
      return Failure(Message(RestoreContext + DBClusterLabel + master + NoSnapshotsSuffix));
    }
    var sorted := SortDesc(snapshots);
    r := Success(sorted[0]);
  }

  // ---------------------------------------------------------------------------
  // Status mappings

  /** The `SnapshotStatus` switch on the selected snapshot's status. */
  function SnapshotStatusFor(status: string, identifier: string): (r: Result<MigrationStatus, Error>)
    ensures r == Success(SnapshotCreationComplete) <==> status == RDSStatusAvailable
    ensures r == Success(SnapshotCreationIP) <==> status == RDSStatusCreating
    ensures r == Success(SnapshotModifying) <==> status == RDSStatusModifying
    ensures r.Failure? <==> status !in {RDSStatusAvailable, RDSStatusCreating, RDSStatusModifying}
    ensures r.Success? ==> r.value in {SnapshotCreationComplete, SnapshotCreationIP, SnapshotModifying}
  {
    if status == RDSStatusAvailable then Success(SnapshotCreationComplete)
    else if status == RDSStatusCreating then Success(SnapshotCreationIP)
    else if status == RDSStatusModifying then Success(SnapshotModifying)
    else if status == RDSStatusDeleting then
      Failure(Message(RestoreContext + SnapshotIDLabel + identifier + BeingDeletedSuffix))
    else Failure(Message(UnknownSnapshotStatusLabel + status))
  }

  /** `SnapshotStatus`: the status of the most recently selected snapshot. */
  method SnapshotStatus(d: RDSDatabaseMigration, described: Result<seq<DBClusterSnapshot>, Error>,
                        tagsOf: seq<Result<seq<RDSTag>, Error>>)
    returns (r: Result<MigrationStatus, Error>)
    requires described.Success? ==> |tagsOf| == |described.value|
    ensures var sel := MostRecentSnapshot(described, tagsOf, d.masterDBClusterID);
      && (sel.Failure? ==> r == Failure(Wrapped(RestoreContext, sel.error)))
      && (sel.Success? ==> r == SnapshotStatusFor(sel.value.status, sel.value.identifier))
  {
    var snapshot := GetMostRecentSnapshot(d.masterDBClusterID, described, tagsOf);
    if snapshot.Failure? {
      return Failure(Wrapped(RestoreContext, snapshot.error));
    }
    r := SnapshotStatusFor(snapshot.value.status, snapshot.value.identifier);
  }

  /**
   * `DatabaseStatus`: no endpoint is an error; otherwise the first endpoint
   * that is not available decides, and all available means the replica is ready.
   */
  method DatabaseStatus(d: RDSDatabaseMigration, endpoints: Result<seq<DBClusterEndpoint>, Error>)
    returns (r: Result<MigrationStatus, Error>)
    ensures endpoints.Failure? ==> r == Failure(Wrapped(StatusContext, endpoints.error))
    ensures endpoints.Success? && endpoints.value == [] ==> r.Failure?
    ensures r == Success(DatabaseCreationComplete) <==>
              endpoints.Success? && endpoints.value != []
              && forall k :: 0 <= k < |endpoints.value| ==> endpoints.value[k].status == RDSStatusAvailable
    ensures r == Success(DatabaseCreationIP) <==>
              endpoints.Success? &&
              exists k :: 0 <= k < |endpoints.value| && endpoints.value[k].status == RDSStatusCreating
                          && forall j :: 0 <= j < k ==> endpoints.value[j].status == RDSStatusAvailable
    ensures r.Success? ==> r.value in {DatabaseCreationComplete, DatabaseCreationIP}
  {
    if endpoints.Failure? {
      return Failure(Wrapped(StatusContext, endpoints.error));
    }
    var eps := endpoints.value;
    if |eps| < 1 {
      return Failure(Message(RestoreContext + Separator + d.replicaDBClusterID + NoEndpointsSuffix));
    }
    for i := 0 to |eps|
      invariant forall k :: 0 <= k < i ==> eps[k].status == RDSStatusAvailable
    {
      var status := eps[i].status;
      if status == RDSStatusAvailable {
      } else if status == RDSStatusCreating {
        return Success(DatabaseCreationIP);
      } else if status == RDSStatusModifying {
        return Failure(Message(RestoreContext + DBClusterIDLabel + d.replicaDBClusterID + BeingModifiedSuffix));
      } else if status == RDSStatusDeleting {
        return Failure(Message(RestoreContext + EndpointLabel + eps[i].endpoint + BeingDeletedSuffix));
      } else {
        return Failure(Message(RestoreContext + UnknownEndpointStatusLabel + status));
      }
    }
    r := Success(DatabaseCreationComplete);
  }

  // ---------------------------------------------------------------------------
  // Snapshot and Restore

  /** `Snapshot`: requests a snapshot of the master cluster carrying the selection tag. */
  method Snapshot(d: RDSDatabaseMigration, a: Client, freshID: string) returns (err: Option<Error>)
    modifies a`trace, a`snapshots
    ensures var create := Call.CreateDBClusterSnapshot(d.masterDBClusterID, Rds.SnapshotID(d.masterDBClusterID, freshID),
                                                       SnapshotTags(d.masterDBClusterID));
      a.trace == old(a.trace) + [create] && (err.None? <==> create !in a.failing)
    ensures err.None? ==>
      a.snapshots == old(a.snapshots)
                     + [ClusterSnapshot(d.masterDBClusterID, Rds.SnapshotID(d.masterDBClusterID, freshID),
                                        SnapshotTags(d.masterDBClusterID))]
    ensures err.Some? ==> a.snapshots == old(a.snapshots)
  {
    var e := Rds.EnsureDBClusterSnapshotCreated(a, d.masterDBClusterID, SnapshotTags(d.masterDBClusterID), freshID);
    if e.Some? {
      return Some(Wrapped(SnapshotContext + d.masterDBClusterID, e.value));
    }
    err := None;
  }

  /** What `Restore` decides before it calls RDS. */
  datatype RestoreDecision =
    | Proceed(vpcID: string, snapshotID: string)
    | Stop(err: Error)
    | NilDereference   // the snapshot is dereferenced after the selection failed

  /**
   * The checks of `Restore` as written: the selection error is wrapped and
   * dropped, so a failed selection goes on to read the status of no snapshot.
   */
  function RestoreDecisionAsWritten(d: RDSDatabaseMigration, vpcs: Result<seq<string>, Error>,
                                    selected: Result<DBClusterSnapshot, Error>): RestoreDecision
  {
    if vpcs.Failure? then Stop(Wrapped(RestoreContext, vpcs.error))
    else if |vpcs.value| != 1 then Stop(CountMismatch(VpcWhat, |vpcs.value|))
    else if selected.Failure? then NilDereference
    else if selected.value.status != RDSStatusAvailable then
      Stop(Message(RestoreContext + NotAvailableMessage))
    else Proceed(vpcs.value[0], selected.value.identifier)
  }

  /** The checks of `Restore` with the selection error returned, as the wrapping evidently intends. */
  function RestoreDecisionFor(d: RDSDatabaseMigration, vpcs: Result<seq<string>, Error>,
                              selected: Result<DBClusterSnapshot, Error>): (p: RestoreDecision)
    ensures !p.NilDereference?
    ensures p.Proceed? <==> vpcs.Success? && |vpcs.value| == 1 && selected.Success?
                            && selected.value.status == RDSStatusAvailable
    ensures p.Proceed? ==> p.vpcID == vpcs.value[0] && p.snapshotID == selected.value.identifier
    ensures vpcs.Success? && |vpcs.value| == 1 && selected.Failure? ==> p == Stop(Wrapped(RestoreContext, selected.error))
  {
    if vpcs.Failure? then Stop(Wrapped(RestoreContext, vpcs.error))
    else if |vpcs.value| != 1 then Stop(CountMismatch(VpcWhat, |vpcs.value|))
    else if selected.Failure? then Stop(Wrapped(RestoreContext, selected.error))
    else if selected.value.status != RDSStatusAvailable then
      Stop(Message(RestoreContext + NotAvailableMessage))
    else Proceed(vpcs.value[0], selected.value.identifier)
  }

  /** With one VPC and a failed selection, `Restore` as written dereferences a missing snapshot. */
  lemma RestoreAsWrittenDereferencesNil()
    ensures var d := NewRDSDatabaseMigration("inst1", "cluster1");
      var selected := MostRecentSnapshot(Success([]), [], d.masterDBClusterID);
      selected.Failure? && RestoreDecisionAsWritten(d, Success(["vpc1"]), selected) == NilDereference
      && RestoreDecisionFor(d, Success(["vpc1"]), selected) == Stop(Wrapped(RestoreContext, selected.error))
  {
  }

  /** The corrected checks differ from the written ones only where those dereference nil. */
  lemma RestoreDecisionsAgree(d: RDSDatabaseMigration, vpcs: Result<seq<string>, Error>,
                              selected: Result<DBClusterSnapshot, Error>)
    ensures RestoreDecisionAsWritten(d, vpcs, selected) != NilDereference ==>
              RestoreDecisionAsWritten(d, vpcs, selected) == RestoreDecisionFor(d, vpcs, selected)
    ensures RestoreDecisionAsWritten(d, vpcs, selected) == NilDereference <==>
              vpcs.Success? && |vpcs.value| == 1 && selected.Failure?
  {
  }

  /**
   * `Restore`: checks for exactly one VPC of the replica cluster, then an
   * available selected snapshot, and only then restores the replica cluster
   * from it and creates the replica's instance.
   */
  method Restore(d: RDSDatabaseMigration, a: Client, described: Result<seq<DBClusterSnapshot>, Error>,
                 tagsOf: seq<Result<seq<RDSTag>, Error>>)
    returns (err: Option<Error>)
    requires described.Success? ==> |tagsOf| == |described.value|
    modifies a`trace, a`clusters, a`instances
    ensures old(a.trace) <= a.trace
    ensures var p := RestoreDecisionFor(d, a.VpcsOf(d.replicaClusterID),
                                        MostRecentSnapshot(described, tagsOf, d.masterDBClusterID));
      && (p.Stop? ==> err == Some(p.err) && a.trace == old(a.trace) && a.clusters == old(a.clusters))
      && (p.Proceed? ==> |a.trace| > |old(a.trace)| && a.trace[|old(a.trace)|] == Call.DescribeSecurityGroups(p.vpcID))
      && (p.Proceed? ==> RestoresOnlyReplica(d, p.snapshotID, |old(a.trace)|, a.trace, a.failing))
    ensures err.None? ==> a.ClusterExists(d.replicaDBClusterID) && d.masterInstanceName in a.instances
    ensures var p := RestoreDecisionFor(d, a.VpcsOf(d.replicaClusterID),
                                        MostRecentSnapshot(described, tagsOf, d.masterDBClusterID));
      var present := d.masterInstanceName in old(a.instances);
      p.Proceed? ==>
        && a.trace == old(a.trace) + RestoreReplicaCalls(d, a, p.vpcID, p.snapshotID, present)
        && err == RestoreReplicaOutcome(d, a, p.vpcID, p.snapshotID, present)
        && (err.None? <==>
              && Rds.RestoreOutcome(a, p.vpcID, d.replicaDBClusterID, p.snapshotID).None?
              && Rds.InstanceStepOutcome(d.replicaDBClusterID, d.masterInstanceName, present, a.failing).None?)
    ensures forall c: DBCluster :: c.id != d.replicaDBClusterID ==> (c in a.clusters <==> c in old(a.clusters))
    ensures a.instances == if err.Some? then old(a.instances) else old(a.instances) + {d.masterInstanceName}
  {
    var vpcs := a.VpcsOf(d.replicaClusterID);
    if vpcs.Failure? {
      return Some(Wrapped(RestoreContext, vpcs.error));
    }
    if |vpcs.value| != 1 {
      return Some(CountMismatch(VpcWhat, |vpcs.value|));
    }
    var snapshot := GetMostRecentSnapshot(d.masterDBClusterID, described, tagsOf);
    if snapshot.Failure? {
      return Some(Wrapped(RestoreContext, snapshot.error));
    }
    if snapshot.value.status != RDSStatusAvailable {
      return Some(Message(RestoreContext + NotAvailableMessage));
    }
    err := RestoreReplica(d, a, vpcs.value[0], snapshot.value.identifier);
  }

  /**
   * The calls of `t` from index `from` on touch only the replica: every
   * restore request restores the replica cluster from `snapshotID`, and every
   * instance created is the replica's instance in the replica cluster, after a
   * restore request of the replica cluster that went through.
   */
  predicate RestoresOnlyReplica(d: RDSDatabaseMigration, snapshotID: string, from: int, t: seq<Call>,
                                failing: set<Call>)
  {
    && (forall j :: from <= j < |t| && 0 <= j && t[j].RestoreDBClusterFromSnapshot? ==>
          t[j].clusterID == d.replicaDBClusterID && t[j].snapshotID == snapshotID)
    && (forall j :: from <= j < |t| && 0 <= j && t[j].CreateDBInstance? ==>
          && t[j].clusterID == d.replicaDBClusterID && t[j].instanceName == d.masterInstanceName
          && exists k :: from <= k < j && 0 <= k && t[k].RestoreDBClusterFromSnapshot?
                         && t[k].clusterID == d.replicaDBClusterID && t[k] !in failing)
  }

  /**
   * The calls of the restoring steps, given whether the replica's instance is
   * `present`: the restore's calls, then the instance step's calls only when
   * the restore succeeded.
   */
  function RestoreReplicaCalls(d: RDSDatabaseMigration, a: Client, vpcID: string, snapshotID: string,
                               present: bool): seq<Call>
    reads a`securityGroups, a`subnetGroups, a`failing
  {
    var restore := Rds.LookupsThen(a, vpcID, Rds.RestoreCall(a, vpcID, d.replicaDBClusterID, snapshotID));
    if Rds.RestoreOutcome(a, vpcID, d.replicaDBClusterID, snapshotID).Some? then restore
    else restore + Rds.InstanceStepCalls(d.replicaDBClusterID, d.masterInstanceName, present, a.failing)
  }

  /** The result of the restoring steps: the restore's error or else the instance step's, wrapped. */
  function RestoreReplicaOutcome(d: RDSDatabaseMigration, a: Client, vpcID: string, snapshotID: string,
                                 present: bool): Option<Error>
    reads a`securityGroups, a`subnetGroups, a`failing
  {
    var restore := Rds.RestoreOutcome(a, vpcID, d.replicaDBClusterID, snapshotID);
    var instance := Rds.InstanceStepOutcome(d.replicaDBClusterID, d.masterInstanceName, present, a.failing);
    if restore.Some? then Some(Wrapped(RestoreContext, restore.value))
    else if instance.Some? then Some(Wrapped(RestoreContext, instance.value))
    else None
  }

  /** The restoring steps of `Restore`: the replica cluster from the snapshot, then its instance. */
  method RestoreReplica(d: RDSDatabaseMigration, a: Client, vpcID: string, snapshotID: string) returns (err: Option<Error>)
    modifies a`trace, a`clusters, a`instances
    ensures old(a.trace) <= a.trace
    ensures |a.trace| > |old(a.trace)| && a.trace[|old(a.trace)|] == Call.DescribeSecurityGroups(vpcID)
    ensures RestoresOnlyReplica(d, snapshotID, |old(a.trace)|, a.trace, a.failing)
    ensures err.None? ==> exists k :: |old(a.trace)| <= k < |a.trace| && a.trace[k].RestoreDBClusterFromSnapshot?
                                     && a.trace[k] !in a.failing
    ensures err.None? ==> a.ClusterExists(d.replicaDBClusterID) && d.masterInstanceName in a.instances
    ensures a.trace == old(a.trace) + RestoreReplicaCalls(d, a, vpcID, snapshotID, d.masterInstanceName in old(a.instances))
    ensures err == RestoreReplicaOutcome(d, a, vpcID, snapshotID, d.masterInstanceName in old(a.instances))
    ensures err.None? <==>
              && Rds.RestoreOutcome(a, vpcID, d.replicaDBClusterID, snapshotID).None?
              && Rds.InstanceStepOutcome(d.replicaDBClusterID, d.masterInstanceName,
                                         d.masterInstanceName in old(a.instances), a.failing).None?
    ensures forall c: DBCluster :: c.id != d.replicaDBClusterID ==> (c in a.clusters <==> c in old(a.clusters))
    ensures a.instances == if err.Some? then old(a.instances) else old(a.instances) + {d.masterInstanceName}
  {
    var e := Rds.EnsureRestoreDBClusterFromSnapshot(a, vpcID, d.replicaDBClusterID, snapshotID);
    if e.Some? {
      err := Some(Wrapped(RestoreContext, e.value));
    } else {
      e := Rds.EnsureDBClusterInstanceCreated(a, d.replicaDBClusterID, d.masterInstanceName);
      err := if e.Some? then Some(Wrapped(RestoreContext, e.value)) else None;
    }
    assert err == RestoreReplicaOutcome(d, a, vpcID, snapshotID, d.masterInstanceName in old(a.instances));
    assert a.trace == old(a.trace) + RestoreReplicaCalls(d, a, vpcID, snapshotID, d.masterInstanceName in old(a.instances));
    RestoreReplicaCallsShape(d, a, vpcID, snapshotID, d.masterInstanceName in old(a.instances), old(a.trace), a.trace);
  }

  /**
   * What the restoring steps' calls, appended to any earlier trace `before`,
   * say about the restore: they start with the VPC's security groups; every
   * restore request is of the replica cluster from `snapshotID`; every instance
   * created is the replica's instance in the replica cluster, after a restore
   * request that went through; and success includes such a request.
   */
  lemma RestoreReplicaCallsShape(d: RDSDatabaseMigration, a: Client, vpcID: string, snapshotID: string,
                                 present: bool, before: seq<Call>, t: seq<Call>)
    requires t == before + RestoreReplicaCalls(d, a, vpcID, snapshotID, present)
    ensures && |t| > |before| && t[|before|] == Call.DescribeSecurityGroups(vpcID)
      && RestoresOnlyReplica(d, snapshotID, |before|, t, a.failing)
      && (RestoreReplicaOutcome(d, a, vpcID, snapshotID, present).None? ==>
            exists k :: |before| <= k < |t| && t[k].RestoreDBClusterFromSnapshot? && t[k] !in a.failing)
  {
    var calls := RestoreReplicaCalls(d, a, vpcID, snapshotID, present);
    assert forall j :: |before| <= j < |t| ==> t[j] == calls[j - |before|];
    if Rds.RestoreOutcome(a, vpcID, d.replicaDBClusterID, snapshotID).None? {
      var k := |before| + 2;
      assert t[k] == Rds.RestoreCall(a, vpcID, d.replicaDBClusterID, snapshotID);
    }
  }
}
