/**
 * The RDS helpers: security-group and subnet-group lookup, the idempotent
 * "ensure" steps for clusters, instances and snapshots, and cluster deletion.
 * Each takes the client it calls through as its first parameter.
 */
module Rds {
  import opened Wrappers
  import opened Tags
  import opened AwsConstants
  import opened AwsClient

  const SubnetGroupPrefix := "mattermost-provisioner-db-"

  /** Error messages and wrapping contexts of the RDS helpers. */
  const NoSecurityGroupsMessage :=
    "unable to find security groups tagged for Mattermost DB usage: tag:MattermostCloudInstallationDatabase=MYSQL/Aurora"
  const NoSubnetGroupMessage :=
    "unable to find subnet group tagged for Mattermost DB usage: tag:MattermostCloudInstallationDatabase=MYSQL/Aurora"
  const DBClusterWhat := "DB cluster"
  const DeleteInstanceContext := "unable to delete DB cluster instance"
  const DeleteClusterContext := "unable to delete DB cluster"
  const SnapshotContext := "failed to create a DB cluster snapshot for replication"
  const RestoreLookupContext := "failed to restore a DB cluster from snapshot in the vpc id: "
  const RestoreCreateContext := "failed to create a DB cluster from snapshot in vpc id: "

  /** Name of the DB subnet group the provisioner's infrastructure creates for a VPC. */
  function SubnetGroupName(vpcID: string): (r: string)
    ensures |r| == |SubnetGroupPrefix| + |vpcID| && r[|SubnetGroupPrefix|..] == vpcID
  {
    SubnetGroupPrefix + vpcID
  }

  /** Identifier of a snapshot taken of cluster `awsID`, made unique by `freshID`. */
  function SnapshotID(awsID: string, freshID: string): (r: string)
    ensures |r| == |awsID| + 10 + |freshID|
    ensures r[..|awsID|] == awsID && r[|awsID|..|awsID| + 10] == "-snapshot-" && r[|awsID| + 10..] == freshID
  {
    awsID + "-snapshot-" + freshID
  }

  /** The DB-tagged security groups of a VPC as the describe call reports them. */
  function GroupsOf(a: Client, vpcID: string): seq<SecurityGroup>
    reads a`securityGroups
  {
    if vpcID in a.securityGroups then a.securityGroups[vpcID] else []
  }

  function GroupIDs(groups: seq<SecurityGroup>): (r: seq<string>)
    ensures |r| == |groups| && forall i :: 0 <= i < |groups| ==> r[i] == groups[i].groupID
  {
    seq(|groups|, i requires 0 <= i < |groups| => groups[i].groupID)
  }

  /** The deletions of the member instances, in order. */
  function DeleteInstanceCalls(members: seq<string>): (r: seq<Call>)
    ensures |r| == |members| && forall i :: 0 <= i < |members| ==> r[i] == Call.DeleteDBInstance(members[i])
  {
    seq(|members|, i requires 0 <= i < |members| => Call.DeleteDBInstance(members[i]))
  }

  /** `rdsGetDBSecurityGroupIDs`: the ids of all DB-tagged groups of the VPC, in order; none is an error. */
  method GetDBSecurityGroupIDs(a: Client, vpcID: string) returns (r: Result<seq<string>, Error>)
    modifies a`trace
    ensures a.trace == old(a.trace) + [Call.DescribeSecurityGroups(vpcID)]
    ensures Call.DescribeSecurityGroups(vpcID) in a.failing ==>
              r == Failure(ApiError(Call.DescribeSecurityGroups(vpcID)))
    ensures Call.DescribeSecurityGroups(vpcID) !in a.failing ==>
              (r.Success? <==> |GroupsOf(a, vpcID)| > 0)
              && (r.Failure? ==> r.error == Message(NoSecurityGroupsMessage))
    ensures r.Success? ==> r.value == GroupIDs(GroupsOf(a, vpcID)) && |r.value| > 0
  {
    var described := a.DescribeSecurityGroups(vpcID);
    if described.Failure? {
      return Failure(described.error);
    }
    var groups := described.value;
    var ids: seq<string> := [];
    for i := 0 to |groups|
      invariant |ids| == i
      invariant forall k :: 0 <= k < i ==> ids[k] == groups[k].groupID
    {
      ids := ids + [groups[i].groupID];
    }
    if |ids| == 0 {
      return Failure(Message(NoSecurityGroupsMessage));
    }
    r := Success(ids);
  }

  /** `rdsGetDBSubnetGroupName`: the subnet group named after the VPC, if RDS lists one. */
  method GetDBSubnetGroupName(a: Client, vpcID: string) returns (r: Result<string, Error>)
    modifies a`trace
    ensures a.trace == old(a.trace) + [Call.DescribeDBSubnetGroups]
    ensures Call.DescribeDBSubnetGroups in a.failing ==> r == Failure(ApiError(Call.DescribeDBSubnetGroups))
    ensures Call.DescribeDBSubnetGroups !in a.failing ==>
              (r.Success? <==> SubnetGroupName(vpcID) in a.subnetGroups)
              && (r.Failure? ==> r.error == Message(NoSubnetGroupMessage))
    ensures r.Success? ==> r.value == SubnetGroupName(vpcID)
  {
    var described := a.DescribeDBSubnetGroups();
    if described.Failure? {
      return Failure(described.error);
    }
    var groups := described.value;
    for i := 0 to |groups|
      invariant forall k :: 0 <= k < i ==> groups[k] != SubnetGroupName(vpcID)
    {
      if groups[i] == SubnetGroupName(vpcID) {
        return Success(groups[i]);
      }
    }
    r := Failure(Message(NoSubnetGroupMessage));
  }

  /**
   * `rdsEnsureDBClusterCreated`: does nothing more once the describe call finds
   * the cluster; otherwise looks up the security groups, then the subnet group,
   * and creates the cluster in them, returning the first error unchanged.
   */
  method EnsureDBClusterCreated(a: Client, awsID: string, vpcID: string, username: string, password: string)
    returns (err: Option<Error>)
    modifies a`trace, a`clusters
    ensures old(a.trace) <= a.trace
    ensures var describe := Call.DescribeDBClusters(awsID);
      old(a.ClusterExists(awsID)) && describe !in a.failing ==>
        err == None && a.trace == old(a.trace) + [describe] && a.clusters == old(a.clusters)
    ensures var describe := Call.DescribeDBClusters(awsID);
      !(old(a.ClusterExists(awsID)) && describe !in a.failing) ==>
        a.trace == old(a.trace) + [describe] + ClusterCreationCalls(a, awsID, vpcID, username, password)
        && err == CreationOutcome(a, awsID, vpcID, username, password)
        && (err.Some? ==> a.clusters == old(a.clusters))
    ensures a.trace == old(a.trace) + ClusterStepCalls(a, awsID, vpcID, username, password, old(a.ClusterExists(awsID)))
    ensures err == ClusterStepOutcome(a, awsID, vpcID, username, password, old(a.ClusterExists(awsID)))
    ensures err.None? ==> a.ClusterExists(awsID)
  {
    var described := a.DescribeDBClusters(awsID);
    if described.Success? {
      return None;
    }
    err := CreateDBClusterInVpc(a, awsID, vpcID, username, password);
  }

  /**
   * The calls of `rdsEnsureDBClusterCreated`, given whether the cluster is
   * `present`: the describe call alone when it finds the cluster, otherwise
   * the describe call followed by the creation steps.
   */
  function ClusterStepCalls(a: Client, awsID: string, vpcID: string, username: string, password: string,
                            present: bool): seq<Call>
    reads a`securityGroups, a`subnetGroups, a`failing
  {
    var describe := Call.DescribeDBClusters(awsID);
    if present && describe !in a.failing then [describe]
    else [describe] + ClusterCreationCalls(a, awsID, vpcID, username, password)
  }

  /** The result of `rdsEnsureDBClusterCreated`: none when the cluster is found, otherwise that of the creation steps. */
  function ClusterStepOutcome(a: Client, awsID: string, vpcID: string, username: string, password: string,
                              present: bool): Option<Error>
    reads a`securityGroups, a`subnetGroups, a`failing
  {
    if present && Call.DescribeDBClusters(awsID) !in a.failing then None
    else CreationOutcome(a, awsID, vpcID, username, password)
  }

  /** The cluster step never describes or creates an instance. */
  lemma ClusterStepMakesNoInstanceCall(a: Client, awsID: string, vpcID: string, username: string, password: string,
                                       present: bool)
    ensures forall c :: c in ClusterStepCalls(a, awsID, vpcID, username, password, present) ==>
              !c.DescribeDBInstances? && !c.CreateDBInstance?
  {
  }

  /**
   * The calls made once the describe call has not found the cluster: the
   * security groups, then (with at least one group) the subnet groups, then
   * (with the VPC's subnet group present) the creation in them.
   */
  function ClusterCreationCalls(a: Client, awsID: string, vpcID: string, username: string, password: string): seq<Call>
    reads a`securityGroups, a`subnetGroups, a`failing
  {
    LookupsThen(a, vpcID, ClusterCreateCall(a, awsID, vpcID, username, password))
  }

  /**
   * The calls of a request made in the VPC's DB security groups and subnet
   * group: the security groups, then (with at least one group) the subnet
   * groups, then (with the VPC's subnet group present) the request itself.
   */
  function LookupsThen(a: Client, vpcID: string, request: Call): seq<Call>
    reads a`securityGroups, a`subnetGroups, a`failing
  {
    var sg, sn := Call.DescribeSecurityGroups(vpcID), Call.DescribeDBSubnetGroups;
    if sg in a.failing || |GroupsOf(a, vpcID)| == 0 then [sg]
    else if sn in a.failing || SubnetGroupName(vpcID) !in a.subnetGroups then [sg, sn]
    else [sg, sn, request]
  }

  /** The error of the two lookups before such a request, unwrapped; none when both succeed. */
  function LookupError(a: Client, vpcID: string): Option<Error>
    reads a`securityGroups, a`subnetGroups, a`failing
  {
    var sg := Call.DescribeSecurityGroups(vpcID);
    if sg in a.failing then Some(ApiError(sg))
    else if |GroupsOf(a, vpcID)| == 0 then Some(Message(NoSecurityGroupsMessage))
    else if Call.DescribeDBSubnetGroups in a.failing then Some(ApiError(Call.DescribeDBSubnetGroups))
    else if SubnetGroupName(vpcID) !in a.subnetGroups then Some(Message(NoSubnetGroupMessage))
    else None
  }

  /** The creation call: the cluster in the VPC's subnet group and DB security groups, with the custom parameter group. */
  function ClusterCreateCall(a: Client, awsID: string, vpcID: string, username: string, password: string): Call
    reads a`securityGroups
  {
    Call.CreateDBCluster(awsID, SubnetGroupName(vpcID), GroupIDs(GroupsOf(a, vpcID)), RDSCustomParamGroupName, username, password)
  }

  /** The error of the cluster-creation steps: the first failing lookup or the creation itself; none when all succeed. */
  function CreationOutcome(a: Client, awsID: string, vpcID: string, username: string, password: string): Option<Error>
    reads a`securityGroups, a`subnetGroups, a`failing
  {
    var create := ClusterCreateCall(a, awsID, vpcID, username, password);
    if LookupError(a, vpcID).Some? then LookupError(a, vpcID)
    else if create in a.failing then Some(ApiError(create))
    else None
  }

  /**
   * Every run of the cluster-creation steps creates at most one cluster, only
   * as the last call, named by `awsID`, and only once every lookup succeeded.
   */
  lemma ClusterCreationCreatesOnlyAwsID(a: Client, awsID: string, vpcID: string, username: string, password: string)
    ensures var calls := ClusterCreationCalls(a, awsID, vpcID, username, password);
      && (forall i :: 0 <= i < |calls| && calls[i].CreateDBCluster? ==> i == |calls| - 1 && calls[i].clusterID == awsID)
      && (CreationOutcome(a, awsID, vpcID, username, password).None? ==> |calls| == 3 && calls[2].CreateDBCluster?)
  {
  }

  /** The creating part of `rdsEnsureDBClusterCreated`: security groups, subnet group, then the cluster. */
  method CreateDBClusterInVpc(a: Client, awsID: string, vpcID: string, username: string, password: string)
    returns (err: Option<Error>)
    modifies a`trace, a`clusters
    ensures a.trace == old(a.trace) + ClusterCreationCalls(a, awsID, vpcID, username, password)
    ensures err == CreationOutcome(a, awsID, vpcID, username, password)
    ensures err.Some? ==> a.clusters == old(a.clusters)
    ensures err.None? ==> a.ClusterExists(awsID)
  {
    var groupIDs := GetDBSecurityGroupIDs(a, vpcID);
    if groupIDs.Failure? {
      return Some(groupIDs.error);
    }
    var subnetGroupName := GetDBSubnetGroupName(a, vpcID);
    if subnetGroupName.Failure? {
      return Some(subnetGroupName.error);
    }
    var create := Call.CreateDBCluster(awsID, subnetGroupName.value, groupIDs.value,
                                       RDSCustomParamGroupName, username, password);
    err := a.CreateDBCluster(create);
    assert err.None? ==> DBCluster(awsID, [], a.assignedEndpoint) in a.clusters;
  }

  /**
   * The calls of `rdsEnsureDBClusterInstanceCreated`, given whether the
   * instance is `present`: the describe call alone when it finds the instance,
   * otherwise the describe call and the creation with the custom parameter group.
   */
  function InstanceStepCalls(awsID: string, instanceName: string, present: bool, failing: set<Call>): seq<Call>
  {
    var describe := Call.DescribeDBInstances(instanceName);
    if present && describe !in failing then [describe]
    else [describe, Call.CreateDBInstance(awsID, instanceName, RDSCustomParamGroupName)]
  }

  /** The result of `rdsEnsureDBClusterInstanceCreated`: only a failed creation is an error. */
  function InstanceStepOutcome(awsID: string, instanceName: string, present: bool, failing: set<Call>): Option<Error>
  {
    var create := Call.CreateDBInstance(awsID, instanceName, RDSCustomParamGroupName);
    if present && Call.DescribeDBInstances(instanceName) !in failing then None
    else if create in failing then Some(ApiError(create))
    else None
  }

  /** `rdsEnsureDBClusterInstanceCreated`: creates the instance in the cluster unless the describe call finds it. */
  method EnsureDBClusterInstanceCreated(a: Client, awsID: string, instanceName: string) returns (err: Option<Error>)
    modifies a`trace, a`instances, a`clusters
    ensures var describe := Call.DescribeDBInstances(instanceName);
      instanceName in old(a.instances) && describe !in a.failing ==>
        err == None && a.trace == old(a.trace) + [describe] && a.instances == old(a.instances) && a.clusters == old(a.clusters)
    ensures var describe, create := Call.DescribeDBInstances(instanceName),
                                    Call.CreateDBInstance(awsID, instanceName, RDSCustomParamGroupName);
      !(instanceName in old(a.instances) && describe !in a.failing) ==>
        a.trace == old(a.trace) + [describe, create] && err == (if create in a.failing then Some(ApiError(create)) else None)
    ensures old(a.trace) <= a.trace
    ensures a.trace == old(a.trace) + InstanceStepCalls(awsID, instanceName, instanceName in old(a.instances), a.failing)
    ensures err == InstanceStepOutcome(awsID, instanceName, instanceName in old(a.instances), a.failing)
    ensures err.None? ==> instanceName in a.instances
    ensures a.instances == if err.Some? then old(a.instances) else old(a.instances) + {instanceName}
    ensures forall id :: old(a.ClusterExists(id)) ==> a.ClusterExists(id)
    ensures forall c: DBCluster :: c.id != awsID ==> (c in a.clusters <==> c in old(a.clusters))
  {
    var described := a.DescribeDBInstances(instanceName);
    if described.None? {
      return None;
    }
    err := a.CreateDBInstance(awsID, instanceName, RDSCustomParamGroupName);
    AddMemberKeepsOthers(old(a.clusters), awsID, instanceName);
    forall id | old(a.ClusterExists(id))
      ensures a.ClusterExists(id)
    {
      var c :| c in old(a.clusters) && c.id == id;
      var i :| 0 <= i < |old(a.clusters)| && old(a.clusters)[i] == c;
      assert a.clusters[i] in a.clusters;
    }
  }

  /** `rdsGetDBCluster`: the one cluster the describe call reports; any other count is an error. */
  method GetDBCluster(a: Client, awsID: string) returns (r: Result<DBCluster, Error>)
    modifies a`trace
    ensures a.trace == old(a.trace) + [Call.DescribeDBClusters(awsID)]
    ensures r.Success? <==> Call.DescribeDBClusters(awsID) !in a.failing && |Named(a.clusters, awsID)| == 1
    ensures r.Success? ==> r.value in a.clusters && r.value.id == awsID
    ensures var describe := Call.DescribeDBClusters(awsID);
      describe !in a.failing && Named(a.clusters, awsID) == [] ==> r == Failure(NotFoundFault(describe))
    ensures Call.DescribeDBClusters(awsID) !in a.failing && |Named(a.clusters, awsID)| > 1 ==>
              r == Failure(CountMismatch(DBClusterWhat, |Named(a.clusters, awsID)|))
  {
    var described := a.DescribeDBClusters(awsID);
    if described.Failure? {
      return Failure(described.error);
    }
    if |described.value| != 1 {
      return Failure(CountMismatch(DBClusterWhat, |described.value|));
    }
    assert described.value[0] in described.value;
    r := Success(described.value[0]);
  }

  /**
   * Deletes every member instance in order, then the cluster; the first failed
   * deletion ends the sequence, so a failed member leaves the cluster in place.
   */
  /** Deletes the member instances in order; the first failure ends the sequence and is returned as it is. */
  method DeleteInstances(a: Client, members: seq<string>) returns (err: Option<Error>)
    modifies a`trace, a`instances
    ensures a.trace == old(a.trace) + UpToFailure(DeleteInstanceCalls(members), a.failing)
    ensures err.None? <==> NoneFail(DeleteInstanceCalls(members), a.failing)
    ensures err.None? ==> a.instances == old(a.instances) - set m | m in members
  {
    var calls := DeleteInstanceCalls(members);
    for i := 0 to |members|
      invariant a.trace == old(a.trace) + calls[..i]
      invariant forall k :: 0 <= k < i ==> calls[k] !in a.failing
      invariant a.instances == old(a.instances) - set m | m in members[..i]
    {
      err := a.DeleteDBInstance(members[i]);
      if err.Some? {
        UpToFailureAt(calls, a.failing, i);
        return;
      }
      assert members[..i + 1] == members[..i] + [members[i]];
      assert calls[..i + 1] == calls[..i] + [calls[i]];
    }
    assert members[..|members|] == members;
    assert calls[..|members|] == calls;
    UpToFailureAll(calls, a.failing);
    err := None;
  }

  /**
   * The deletion part of `rdsEnsureDBClusterDeleted`: the member instances in
   * order, then the cluster; the first failure ends the sequence.
   */
  method DeleteMembersThenCluster(a: Client, awsID: string, members: seq<string>) returns (err: Option<Error>)
    modifies a`trace, a`instances, a`clusters
    ensures a.trace == old(a.trace) + UpToFailure(DeleteInstanceCalls(members) + [Call.DeleteDBCluster(awsID)], a.failing)
    ensures err.None? <==> (forall m :: m in members ==> Call.DeleteDBInstance(m) !in a.failing)
                            && Call.DeleteDBCluster(awsID) !in a.failing
    ensures err.None? ==> !a.ClusterExists(awsID) && a.instances == old(a.instances) - set m | m in members
    ensures err.None? <==> NoneFail(DeleteInstanceCalls(members) + [Call.DeleteDBCluster(awsID)], a.failing)
    ensures err.Some? ==> a.clusters == old(a.clusters)
  {
    var deletes := DeleteInstanceCalls(members);
    var cluster := Call.DeleteDBCluster(awsID);
    UpToFailureAppend(deletes, [cluster], a.failing);
    NoneFailAppend(deletes, [cluster], a.failing);
    assert NoneFail(deletes, a.failing) <==> forall m :: m in members ==> Call.DeleteDBInstance(m) !in a.failing;
    var e := DeleteInstances(a, members);
    if e.Some? {
      return Some(Wrapped(DeleteInstanceContext, e.value));
    }
    UpToFailureAll(deletes, a.failing);
    assert UpToFailure([cluster], a.failing) == [cluster];
    e := a.DeleteDBCluster(awsID);
    if e.Some? {
      return Some(Wrapped(DeleteClusterContext, e.value));
    }
    err := None;
  }

  /**
   * `rdsEnsureDBClusterDeleted` as written: every describe error is returned,
   * including the not-found fault, because the branch meant to treat that fault
   * as "already deleted" sits after the error has been returned and never runs.
   */
  method EnsureDBClusterDeletedAsWritten(a: Client, awsID: string) returns (err: Option<Error>)
    modifies a`trace, a`instances, a`clusters
    ensures old(a.trace) + [Call.DescribeDBClusters(awsID)] <= a.trace
    ensures var describe := Call.DescribeDBClusters(awsID);
      describe !in a.failing && !old(a.ClusterExists(awsID)) ==>
        err == Some(NotFoundFault(describe)) && a.trace == old(a.trace) + [describe]
    ensures var describe := Call.DescribeDBClusters(awsID);
      describe in a.failing ==> err == Some(ApiError(describe)) && a.trace == old(a.trace) + [describe]
    ensures var n := |Named(old(a.clusters), awsID)|;
      n > 1 && Call.DescribeDBClusters(awsID) !in a.failing ==>
        err == Some(CountMismatch(DBClusterWhat, n)) && a.clusters == old(a.clusters)
    ensures var cs := Named(old(a.clusters), awsID);
      |cs| == 1 && Call.DescribeDBClusters(awsID) !in a.failing ==>
        a.trace == old(a.trace) + [Call.DescribeDBClusters(awsID)]
                   + UpToFailure(DeleteInstanceCalls(cs[0].members) + [Call.DeleteDBCluster(awsID)], a.failing)
    ensures var cs := Named(old(a.clusters), awsID);
      err.None? <==> Call.DescribeDBClusters(awsID) !in a.failing && |cs| == 1
                     && NoneFail(DeleteInstanceCalls(cs[0].members) + [Call.DeleteDBCluster(awsID)], a.failing)
    ensures err.None? ==> !a.ClusterExists(awsID)
  {
    var described := a.DescribeDBClusters(awsID);
    if described.Failure? {
      return Some(described.error);
    }
    if |described.value| != 1 {
      return Some(CountMismatch(DBClusterWhat, |described.value|));
    }
    err := DeleteMembersThenCluster(a, awsID, described.value[0].members);
  }

  /**
   * When the intended cluster deletion succeeds: the describe call goes through
   * and either finds no cluster named `awsID`, or finds exactly one whose member
   * deletions and own deletion all go through.
   */
  predicate DeletionSucceeds(clusters: seq<DBCluster>, awsID: string, failing: set<Call>)
  {
    var cs := Named(clusters, awsID);
    Call.DescribeDBClusters(awsID) !in failing
    && (cs == [] || (|cs| == 1 && NoneFail(DeleteInstanceCalls(cs[0].members) + [Call.DeleteDBCluster(awsID)], failing)))
  }

  /**
   * `rdsEnsureDBClusterDeleted` as its not-found branch intends: a cluster that
   * RDS does not know is already deleted, which is success.
   */
  method EnsureDBClusterDeleted(a: Client, awsID: string) returns (err: Option<Error>)
    modifies a`trace, a`instances, a`clusters
    ensures old(a.trace) + [Call.DescribeDBClusters(awsID)] <= a.trace
    ensures var describe := Call.DescribeDBClusters(awsID);
      describe !in a.failing && !old(a.ClusterExists(awsID)) ==>
        err == None && a.trace == old(a.trace) + [describe] && a.clusters == old(a.clusters)
    ensures var describe := Call.DescribeDBClusters(awsID);
      describe in a.failing ==> err == Some(ApiError(describe)) && a.trace == old(a.trace) + [describe]
    ensures var n := |Named(old(a.clusters), awsID)|;
      n > 1 && Call.DescribeDBClusters(awsID) !in a.failing ==>
        err == Some(CountMismatch(DBClusterWhat, n)) && a.clusters == old(a.clusters)
    ensures var cs := Named(old(a.clusters), awsID);
      |cs| == 1 && Call.DescribeDBClusters(awsID) !in a.failing ==>
        a.trace == old(a.trace) + [Call.DescribeDBClusters(awsID)]
                   + UpToFailure(DeleteInstanceCalls(cs[0].members) + [Call.DeleteDBCluster(awsID)], a.failing)
    ensures err.None? <==> DeletionSucceeds(old(a.clusters), awsID, a.failing)
    ensures err.None? ==> !a.ClusterExists(awsID)
  {
    var described := a.DescribeDBClusters(awsID);
    if described.Failure? {
      if described.error.NotFoundFault? {
        return None;
      }
      return Some(described.error);
    }
    if |described.value| != 1 {
      return Some(CountMismatch(DBClusterWhat, |described.value|));
    }
    err := DeleteMembersThenCluster(a, awsID, described.value[0].members);
  }

  /** `rdsEnsureDBClusterSnapshotCreated`: requests one snapshot of `awsID`, carrying `tags` unchanged. */
  method EnsureDBClusterSnapshotCreated(a: Client, awsID: string, tags: seq<RDSTag>, freshID: string)
    returns (err: Option<Error>)
    modifies a`trace, a`snapshots
    ensures var create := Call.CreateDBClusterSnapshot(awsID, SnapshotID(awsID, freshID), tags);
      a.trace == old(a.trace) + [create] &&
      err == (if create in a.failing
              then Some(Wrapped(SnapshotContext, ApiError(create))) else None)
    ensures a.snapshots == if err.Some? then old(a.snapshots)
                           else old(a.snapshots) + [ClusterSnapshot(awsID, SnapshotID(awsID, freshID), tags)]
  {
    var e := a.CreateDBClusterSnapshot(awsID, SnapshotID(awsID, freshID), tags);
    if e.Some? {
      return Some(Wrapped(SnapshotContext, e.value));
    }
    err := None;
  }

  /** The restore request: `awsID` from the snapshot, in the VPC's subnet group and DB security groups. */
  function RestoreCall(a: Client, vpcID: string, awsID: string, snapshotID: string): Call
    reads a`securityGroups
  {
    Call.RestoreDBClusterFromSnapshot(awsID, snapshotID, SubnetGroupName(vpcID), GroupIDs(GroupsOf(a, vpcID)),
                                      RDSCustomParamGroupName)
  }

  /** The result of the restore: a failed lookup or a failed request, each wrapped with the VPC id; none otherwise. */
  function RestoreOutcome(a: Client, vpcID: string, awsID: string, snapshotID: string): Option<Error>
    reads a`securityGroups, a`subnetGroups, a`failing
  {
    var restore := RestoreCall(a, vpcID, awsID, snapshotID);
    if LookupError(a, vpcID).Some? then Some(Wrapped(RestoreLookupContext + vpcID, LookupError(a, vpcID).value))
    else if restore in a.failing then Some(Wrapped(RestoreCreateContext + vpcID, ApiError(restore)))
    else None
  }

  /**
   * `rdsEnsureRestoreDBClusterFromSnapshot`, up to its error short-circuits:
   * security groups, then the subnet group, then the restore request.
   */
  method EnsureRestoreDBClusterFromSnapshot(a: Client, vpcID: string, awsID: string, snapshotID: string)
    returns (err: Option<Error>)
    modifies a`trace, a`clusters
    ensures var sg, sn := Call.DescribeSecurityGroups(vpcID), Call.DescribeDBSubnetGroups;
      && (sg in a.failing || |GroupsOf(a, vpcID)| == 0 ==> err.Some? && a.trace == old(a.trace) + [sg])
      && (sg !in a.failing && |GroupsOf(a, vpcID)| > 0 && (sn in a.failing || SubnetGroupName(vpcID) !in a.subnetGroups) ==>
            err.Some? && a.trace == old(a.trace) + [sg, sn])
    ensures var sg, sn := Call.DescribeSecurityGroups(vpcID), Call.DescribeDBSubnetGroups;
      var restore := Call.RestoreDBClusterFromSnapshot(awsID, snapshotID, SubnetGroupName(vpcID),
                                                       GroupIDs(GroupsOf(a, vpcID)), RDSCustomParamGroupName);
      sg !in a.failing && |GroupsOf(a, vpcID)| > 0 && sn !in a.failing && SubnetGroupName(vpcID) in a.subnetGroups ==>
        a.trace == old(a.trace) + [sg, sn, restore] && (err.None? <==> restore !in a.failing)
    ensures a.trace == old(a.trace) + LookupsThen(a, vpcID, RestoreCall(a, vpcID, awsID, snapshotID))
    ensures err == RestoreOutcome(a, vpcID, awsID, snapshotID)
    ensures err.None? ==> a.ClusterExists(awsID)
    ensures err.Some? ==> a.clusters == old(a.clusters)
    ensures forall c: DBCluster :: c.id != awsID ==> (c in a.clusters <==> c in old(a.clusters))
  {
    var groupIDs := GetDBSecurityGroupIDs(a, vpcID);
    if groupIDs.Failure? {
      return Some(Wrapped(RestoreLookupContext + vpcID, groupIDs.error));
    }
    var subnetGroupName := GetDBSubnetGroupName(a, vpcID);
    if subnetGroupName.Failure? {
      return Some(Wrapped(RestoreLookupContext + vpcID, subnetGroupName.error));
    }
    var restore := Call.RestoreDBClusterFromSnapshot(awsID, snapshotID, subnetGroupName.value, groupIDs.value,
                                                     RDSCustomParamGroupName);
    var e := a.RestoreDBClusterFromSnapshot(restore);
    if e.Some? {
      return Some(Wrapped(RestoreCreateContext + vpcID, e.value));
    }
    assert DBCluster(awsID, [], a.assignedEndpoint) in a.clusters;
    err := None;
  }
}
