/**
 * The AWS client as the RDS, database and filestore code sees it: the cloud
 * state those calls read and change, the calls made so far (`trace`), and the
 * calls the cloud rejects (`failing`). Raw SDK calls and the secrets-manager,
 * IAM and S3 helpers are foreign code; each is one method here that records
 * its call, fails exactly when the call is in `failing`, and otherwise has the
 * effect the caller relies on.
 */
module AwsClient {
  import opened Wrappers
  import opened Tags

  /** The calls the modelled code makes, with the arguments that identify them. */
  datatype Call =
    | DescribeSecurityGroups(vpcID: string)
    | DescribeDBSubnetGroups
    | DescribeDBClusters(clusterID: string)
    | CreateDBCluster(clusterID: string, subnetGroupName: string, securityGroupIDs: seq<string>,
                      parameterGroupName: string, masterUsername: string, masterPassword: string)
    | DescribeDBInstances(instanceName: string)
    | CreateDBInstance(clusterID: string, instanceName: string, parameterGroupName: string)
    | DeleteDBInstance(instanceName: string)
    | DeleteDBCluster(clusterID: string)
    | CreateDBClusterSnapshot(clusterID: string, snapshotID: string, tags: seq<RDSTag>)
    | RestoreDBClusterFromSnapshot(clusterID: string, snapshotID: string, subnetGroupName: string,
                                   securityGroupIDs: seq<string>, parameterGroupName: string)
    | EnsureRDSSecretCreated(awsID: string)
    | EnsureRDSSecretDeleted(awsID: string)
    | GetRDSSecret(awsID: string)
    | EnsureIAMUserCreated(name: string)
    | EnsureIAMPolicyCreated(name: string, policyARN: string)
    | EnsureIAMPolicyAttached(name: string, policyARN: string)
    | EnsureS3BucketCreated(name: string)
    | EnsureIAMAccessKeyCreated(name: string)
    | EnsureIAMAccessKeySecretCreated(name: string, key: AccessKey)
    | EnsureIAMUserDeleted(name: string)
    | EnsureIAMAccessKeySecretDeleted(name: string)
    | EnsureS3BucketDeleted(name: string)
    | GetIAMAccessKey(name: string)
      // lookups made by the VPC resolution; they are reads and never enter the trace
    | GetClusterInstallations(installationID: string)
    | GetVpcsWithFilters(clusterID: string)

  /** The errors the modelled code produces or passes on. */
  datatype Error =
    | ApiError(call: Call)                    // the cloud rejected this call
    | NotFoundFault(call: Call)               // the named resource does not exist
    | Wrapped(context: string, cause: Error)  // errors.Wrap(cause, context)
    | Message(text: string)                   // an error created with a fixed text
    | CountMismatch(what: string, got: nat)   // "expected 1 <what>, but got <got>"
    | ArnParseError(userName: string)         // the IAM user's ARN did not parse

  datatype SecurityGroup = SecurityGroup(groupID: string)
  datatype DBCluster = DBCluster(id: string, members: seq<string>, endpoint: string)
  datatype RDSSecret = RDSSecret(masterUsername: string, masterPassword: string)
  datatype AccessKey = AccessKey(id: string, secret: string)
  datatype IAMUser = IAMUser(userName: string, accountID: Option<string>)
  datatype ClusterSnapshot = ClusterSnapshot(clusterID: string, snapshotID: string, tags: seq<RDSTag>)

  /** The clusters of `cs` named `id`, in order. */
  function Named(cs: seq<DBCluster>, id: string): (r: seq<DBCluster>)
    ensures forall c :: c in r <==> c in cs && c.id == id
    ensures |r| <= |cs|
  {
    if cs == [] then []
    else (if cs[0].id == id then [cs[0]] else []) + Named(cs[1..], id)
  }

  /** The clusters of `cs` not named `id`, in order. */
  function Without(cs: seq<DBCluster>, id: string): (r: seq<DBCluster>)
    ensures forall c :: c in r <==> c in cs && c.id != id
  {
    if cs == [] then []
    else (if cs[0].id != id then [cs[0]] else []) + Without(cs[1..], id)
  }

  /** `cs` with `instance` added to the members of every cluster named `id`. */
  function AddMember(cs: seq<DBCluster>, id: string, instance: string): (r: seq<DBCluster>)
    ensures |r| == |cs|
    ensures forall i :: 0 <= i < |cs| ==> r[i].id == cs[i].id
    ensures forall i :: 0 <= i < |cs| && cs[i].id == id ==> r[i].members == cs[i].members + [instance]
    ensures forall i :: 0 <= i < |cs| && cs[i].id != id ==> r[i] == cs[i]
  {
    seq(|cs|, i requires 0 <= i < |cs| =>
      if cs[i].id == id then cs[i].(members := cs[i].members + [instance]) else cs[i])
  }

  /** Adding a member changes only the clusters named `id`. */
  lemma AddMemberKeepsOthers(cs: seq<DBCluster>, id: string, instance: string)
    ensures forall c: DBCluster :: c.id != id ==> (c in AddMember(cs, id, instance) <==> c in cs)
  {
    var r := AddMember(cs, id, instance);
    forall c: DBCluster | c.id != id
      ensures c in r <==> c in cs
    {
      if c in r {
        var i :| 0 <= i < |r| && r[i] == c;
        assert cs[i] == c;
      }
      if c in cs {
        var i :| 0 <= i < |cs| && cs[i] == c;
        assert r[i] == c;
      }
    }
  }

  /**
   * The prefix of `calls` that a sequence of error-checked calls issues:
   * every call up to and including the first one that fails.
   */
  function UpToFailure(calls: seq<Call>, failing: set<Call>): seq<Call>
  {
    if calls == [] then []
    else if calls[0] in failing then [calls[0]]
    else [calls[0]] + UpToFailure(calls[1..], failing)
  }

  /**
   * The calls issued are a prefix of the sequence in which no call but the
   * last fails, and the sequence stops early only at a failing call.
   */
  lemma {:induction false} UpToFailureShape(calls: seq<Call>, failing: set<Call>)
    ensures var r := UpToFailure(calls, failing);
      && r <= calls
      && (forall i :: 0 <= i < |r| - 1 ==> r[i] !in failing)
      && (|r| < |calls| ==> |r| > 0 && r[|r| - 1] in failing)
      && (calls != [] ==> r != [])
  {
    if calls != [] && calls[0] !in failing {
      UpToFailureShape(calls[1..], failing);
      var rest := UpToFailure(calls[1..], failing);
      assert UpToFailure(calls, failing) == [calls[0]] + rest;
      assert calls == [calls[0]] + calls[1..];
    }
  }

  /** No call of the sequence fails. */
  predicate NoneFail(calls: seq<Call>, failing: set<Call>)
  {
    forall i :: 0 <= i < |calls| ==> calls[i] !in failing
  }

  lemma NoneFailAppend(xs: seq<Call>, ys: seq<Call>, failing: set<Call>)
    ensures NoneFail(xs + ys, failing) <==> NoneFail(xs, failing) && NoneFail(ys, failing)
  {
    if NoneFail(xs, failing) && NoneFail(ys, failing) {
      forall i | 0 <= i < |xs + ys| ensures (xs + ys)[i] !in failing {
        if i >= |xs| { assert (xs + ys)[i] == ys[i - |xs|]; }
      }
    }
    if NoneFail(xs + ys, failing) {
      forall i | 0 <= i < |xs| ensures xs[i] !in failing {
        assert xs[i] == (xs + ys)[i];
      }
      forall i | 0 <= i < |ys| ensures ys[i] !in failing {
        assert ys[i] == (xs + ys)[|xs| + i];
      }
    }
  }

  /** Two sequences run back to back: the second starts only when none of the first fails. */
  lemma {:induction false} UpToFailureAppend(xs: seq<Call>, ys: seq<Call>, failing: set<Call>)
    ensures UpToFailure(xs + ys, failing)
            == if NoneFail(xs, failing) then xs + UpToFailure(ys, failing) else UpToFailure(xs, failing)
  {
    if xs == [] {
      assert xs + ys == ys;
    } else {
      assert (xs + ys)[0] == xs[0];
      assert (xs + ys)[1..] == xs[1..] + ys;
      if xs[0] !in failing {
        UpToFailureAppend(xs[1..], ys, failing);
        assert NoneFail(xs, failing) == NoneFail(xs[1..], failing) by {
          if NoneFail(xs[1..], failing) {
            forall i | 0 <= i < |xs| ensures xs[i] !in failing {
              if i > 0 { assert xs[i] == xs[1..][i - 1]; }
            }
          }
        }
        if NoneFail(xs, failing) {
          assert xs == [xs[0]] + xs[1..];
        }
      }
    }
  }

  /** When no call fails, the whole sequence is issued. */
  lemma {:induction false} UpToFailureAll(calls: seq<Call>, failing: set<Call>)
    requires forall i :: 0 <= i < |calls| ==> calls[i] !in failing
    ensures UpToFailure(calls, failing) == calls
  {
    if calls != [] {
      UpToFailureAll(calls[1..], failing);
    }
  }

  /** When call k is the first to fail, the calls issued are those up to and including k. */
  lemma {:induction false} UpToFailureAt(calls: seq<Call>, failing: set<Call>, k: nat)
    requires k < |calls| && calls[k] in failing
    requires forall i :: 0 <= i < k ==> calls[i] !in failing
    ensures UpToFailure(calls, failing) == calls[..k + 1]
  {
    if k > 0 {
      UpToFailureAt(calls[1..], failing, k - 1);
      assert calls[..k + 1] == [calls[0]] + calls[1..][..k];
    }
  }

  class Client {
    // EC2 and RDS
    var securityGroups: map<string, seq<SecurityGroup>>  // per VPC id, the groups tagged for DB use
    var subnetGroups: seq<string>                        // names of all DB subnet groups
    var clusters: seq<DBCluster>
    var instances: set<string>
    var snapshots: seq<ClusterSnapshot>                  // snapshots requested so far
    var assignedEndpoint: string                         // endpoint RDS gives a cluster it creates
    // secrets manager and IAM
    var rdsSecrets: map<string, RDSSecret>
    var generatedSecret: RDSSecret                       // credentials generated for a new RDS secret
    var accessKeys: map<string, AccessKey>              // access keys stored as secrets, per IAM user
    var generatedKey: AccessKey                          // the key IAM issues for a new access key
    var userAccountID: Option<string>                    // account id in IAM user ARNs; None: unparsable ARN
    // the SQL store and VPC lookups
    var hasSQLStore: bool
    var clusterInstallations: map<string, seq<string>>   // installation id to the cluster ids it runs on
    var vpcs: map<string, seq<string>>                   // cluster id to the VPCs claimed by it
    // the environment
    var failing: set<Call>
    var trace: seq<Call>

    constructor ()
      ensures securityGroups == map[] && subnetGroups == [] && clusters == [] && instances == {}
      ensures snapshots == [] && rdsSecrets == map[] && accessKeys == map[] && userAccountID == None
      ensures !hasSQLStore && clusterInstallations == map[] && vpcs == map[]
      ensures failing == {} && trace == []
    {
      securityGroups, subnetGroups, clusters, instances := map[], [], [], {};
      snapshots, assignedEndpoint := [], "";
      rdsSecrets, generatedSecret, accessKeys, userAccountID := map[], RDSSecret("", ""), map[], None;
      generatedKey := AccessKey("", "");
      hasSQLStore, clusterInstallations, vpcs := false, map[], map[];
      failing, trace := {}, [];
    }

    predicate ClusterExists(id: string)
      reads this`clusters
    {
      exists c :: c in clusters && c.id == id
    }

    /** The VPCs tagged as claimed by a cluster, as the VPC lookup reports them. */
    function VpcsOf(clusterID: string): Result<seq<string>, Error>
      reads this`vpcs, this`failing
    {
      var c := Call.GetVpcsWithFilters(clusterID);
      if c in failing then Failure(ApiError(c))
      else Success(if clusterID in vpcs then vpcs[clusterID] else [])
    }

    /** The clusters an installation runs on, as the SQL store's cluster-installation query reports them. */
    function ClusterInstallationsOf(installationID: string): Result<seq<string>, Error>
      reads this`clusterInstallations, this`failing
    {
      var c := Call.GetClusterInstallations(installationID);
      if c in failing then Failure(ApiError(c))
      else Success(if installationID in clusterInstallations then clusterInstallations[installationID] else [])
    }

    /** A call without a result: recorded, and rejected exactly when it is in `failing`. */
    method Step(c: Call) returns (err: Option<Error>)
      modifies this`trace
      ensures trace == old(trace) + [c]
      ensures err == if c in failing then Some(ApiError(c)) else None
    {
      trace := trace + [c];
      err := if c in failing then Some(ApiError(c)) else None;
    }

    /** Calls without results issued in order; the first failure ends the sequence and is returned. */
    method Steps(calls: seq<Call>) returns (err: Option<Error>)
      modifies this`trace
      ensures trace == old(trace) + UpToFailure(calls, failing)
      ensures err.None? <==> NoneFail(calls, failing)
    {
      for i := 0 to |calls|
        invariant trace == old(trace) + calls[..i]
        invariant forall k :: 0 <= k < i ==> calls[k] !in failing
      {
        err := Step(calls[i]);
        if err.Some? {
          UpToFailureAt(calls, failing, i);
          return;
        }
        assert calls[..i + 1] == calls[..i] + [calls[i]];
      }
      assert calls[..|calls|] == calls;
      UpToFailureAll(calls, failing);
      err := None;
    }

    method DescribeSecurityGroups(vpcID: string) returns (r: Result<seq<SecurityGroup>, Error>)
      modifies this`trace
      ensures trace == old(trace) + [Call.DescribeSecurityGroups(vpcID)]
      ensures r == if Call.DescribeSecurityGroups(vpcID) in failing then Failure(ApiError(Call.DescribeSecurityGroups(vpcID)))
                   else Success(if vpcID in securityGroups then securityGroups[vpcID] else [])
    {
      var c := Call.DescribeSecurityGroups(vpcID);
      trace := trace + [c];
      r := if c in failing then Failure(ApiError(c))
           else Success(if vpcID in securityGroups then securityGroups[vpcID] else []);
    }

    method DescribeDBSubnetGroups() returns (r: Result<seq<string>, Error>)
      modifies this`trace
      ensures trace == old(trace) + [Call.DescribeDBSubnetGroups]
      ensures r == if Call.DescribeDBSubnetGroups in failing then Failure(ApiError(Call.DescribeDBSubnetGroups))
                   else Success(subnetGroups)
    {
      trace := trace + [Call.DescribeDBSubnetGroups];
      r := if Call.DescribeDBSubnetGroups in failing then Failure(ApiError(Call.DescribeDBSubnetGroups))
           else Success(subnetGroups);
    }

    /** Describing a cluster identifier that matches nothing is a not-found fault. */
    method DescribeDBClusters(id: string) returns (r: Result<seq<DBCluster>, Error>)
      modifies this`trace
      ensures trace == old(trace) + [Call.DescribeDBClusters(id)]
      ensures r == if Call.DescribeDBClusters(id) in failing then Failure(ApiError(Call.DescribeDBClusters(id)))
                   else if Named(clusters, id) == [] then Failure(NotFoundFault(Call.DescribeDBClusters(id)))
                   else Success(Named(clusters, id))
      ensures r.Success? <==> Call.DescribeDBClusters(id) !in failing && ClusterExists(id)
    {
      var c := Call.DescribeDBClusters(id);
      trace := trace + [c];
      var found := Named(clusters, id);
      assert found == [] <==> !ClusterExists(id) by {
        if found != [] { assert found[0] in found; }
      }
      r := if c in failing then Failure(ApiError(c))
           else if found == [] then Failure(NotFoundFault(c))
           else Success(found);
    }

    method CreateDBCluster(c: Call) returns (err: Option<Error>)
      requires c.CreateDBCluster?
      modifies this`trace, this`clusters
      ensures trace == old(trace) + [c]
      ensures err == if c in failing then Some(ApiError(c)) else None
      ensures clusters == if c in failing then old(clusters) else old(clusters) + [DBCluster(c.clusterID, [], assignedEndpoint)]
    {
      trace := trace + [c];
      if c in failing {
        err := Some(ApiError(c));
      } else {
        err := None;
        clusters := clusters + [DBCluster(c.clusterID, [], assignedEndpoint)];
      }
    }

    /** Describing an instance name that matches nothing is a not-found fault. */
    method DescribeDBInstances(name: string) returns (err: Option<Error>)
      modifies this`trace
      ensures trace == old(trace) + [Call.DescribeDBInstances(name)]
      ensures err == if Call.DescribeDBInstances(name) in failing then Some(ApiError(Call.DescribeDBInstances(name)))
                     else if name !in instances then Some(NotFoundFault(Call.DescribeDBInstances(name)))
                     else None
    {
      var c := Call.DescribeDBInstances(name);
      trace := trace + [c];
      err := if c in failing then Some(ApiError(c))
             else if name !in instances then Some(NotFoundFault(c))
             else None;
    }

    method CreateDBInstance(clusterID: string, name: string, parameterGroupName: string) returns (err: Option<Error>)
      modifies this`trace, this`instances, this`clusters
      ensures trace == old(trace) + [Call.CreateDBInstance(clusterID, name, parameterGroupName)]
      ensures err == if Call.CreateDBInstance(clusterID, name, parameterGroupName) in failing
                     then Some(ApiError(Call.CreateDBInstance(clusterID, name, parameterGroupName))) else None
      ensures instances == if err.Some? then old(instances) else old(instances) + {name}
      ensures clusters == if err.Some? then old(clusters) else AddMember(old(clusters), clusterID, name)
    {
      var c := Call.CreateDBInstance(clusterID, name, parameterGroupName);
      trace := trace + [c];
      if c in failing {
        err := Some(ApiError(c));
      } else {
        err := None;
        instances := instances + {name};
        clusters := AddMember(clusters, clusterID, name);
      }
    }

    method DeleteDBInstance(name: string) returns (err: Option<Error>)
      modifies this`trace, this`instances
      ensures trace == old(trace) + [Call.DeleteDBInstance(name)]
      ensures err == if Call.DeleteDBInstance(name) in failing then Some(ApiError(Call.DeleteDBInstance(name))) else None
      ensures instances == if err.Some? then old(instances) else old(instances) - {name}
    {
      var c := Call.DeleteDBInstance(name);
      trace := trace + [c];
      if c in failing {
        err := Some(ApiError(c));
      } else {
        err := None;
        instances := instances - {name};
      }
    }

    method DeleteDBCluster(id: string) returns (err: Option<Error>)
      modifies this`trace, this`clusters
      ensures trace == old(trace) + [Call.DeleteDBCluster(id)]
      ensures err == if Call.DeleteDBCluster(id) in failing then Some(ApiError(Call.DeleteDBCluster(id))) else None
      ensures clusters == if err.Some? then old(clusters) else Without(old(clusters), id)
    {
      var c := Call.DeleteDBCluster(id);
      trace := trace + [c];
      if c in failing {
        err := Some(ApiError(c));
      } else {
        err := None;
        clusters := Without(clusters, id);
      }
    }

    method CreateDBClusterSnapshot(clusterID: string, snapshotID: string, tags: seq<RDSTag>) returns (err: Option<Error>)
      modifies this`trace, this`snapshots
      ensures trace == old(trace) + [Call.CreateDBClusterSnapshot(clusterID, snapshotID, tags)]
      ensures err == if Call.CreateDBClusterSnapshot(clusterID, snapshotID, tags) in failing
                     then Some(ApiError(Call.CreateDBClusterSnapshot(clusterID, snapshotID, tags))) else None
      ensures snapshots == if err.Some? then old(snapshots)
                           else old(snapshots) + [ClusterSnapshot(clusterID, snapshotID, tags)]
    {
      var c := Call.CreateDBClusterSnapshot(clusterID, snapshotID, tags);
      trace := trace + [c];
      if c in failing {
        err := Some(ApiError(c));
      } else {
        err := None;
        snapshots := snapshots + [ClusterSnapshot(clusterID, snapshotID, tags)];
      }
    }

    method RestoreDBClusterFromSnapshot(c: Call) returns (err: Option<Error>)
      requires c.RestoreDBClusterFromSnapshot?
      modifies this`trace, this`clusters
      ensures trace == old(trace) + [c]
      ensures err == if c in failing then Some(ApiError(c)) else None
      ensures clusters == if c in failing then old(clusters) else old(clusters) + [DBCluster(c.clusterID, [], assignedEndpoint)]
    {
      trace := trace + [c];
      if c in failing {
        err := Some(ApiError(c));
      } else {
        err := None;
        clusters := clusters + [DBCluster(c.clusterID, [], assignedEndpoint)];
      }
    }

    /** Returns the stored credentials for `awsID`, generating and storing them when there are none. */
    method EnsureRDSSecretCreated(awsID: string) returns (r: Result<RDSSecret, Error>)
      modifies this`trace, this`rdsSecrets
      ensures trace == old(trace) + [Call.EnsureRDSSecretCreated(awsID)]
      ensures Call.EnsureRDSSecretCreated(awsID) in failing ==>
                r == Failure(ApiError(Call.EnsureRDSSecretCreated(awsID))) && rdsSecrets == old(rdsSecrets)
      ensures Call.EnsureRDSSecretCreated(awsID) !in failing ==>
                && r == Success(if awsID in old(rdsSecrets) then old(rdsSecrets)[awsID] else generatedSecret)
                && rdsSecrets == old(rdsSecrets)[awsID := r.value]
    {
      var c := Call.EnsureRDSSecretCreated(awsID);
      trace := trace + [c];
      if c in failing {
        r := Failure(ApiError(c));
      } else {
        var secret := if awsID in rdsSecrets then rdsSecrets[awsID] else generatedSecret;
        rdsSecrets := rdsSecrets[awsID := secret];
        r := Success(secret);
      }
    }

    method EnsureRDSSecretDeleted(awsID: string) returns (err: Option<Error>)
      modifies this`trace, this`rdsSecrets
      ensures trace == old(trace) + [Call.EnsureRDSSecretDeleted(awsID)]
      ensures err == if Call.EnsureRDSSecretDeleted(awsID) in failing
                     then Some(ApiError(Call.EnsureRDSSecretDeleted(awsID))) else None
      ensures rdsSecrets == if err.Some? then old(rdsSecrets) else old(rdsSecrets) - {awsID}
    {
      var c := Call.EnsureRDSSecretDeleted(awsID);
      trace := trace + [c];
      if c in failing {
        err := Some(ApiError(c));
      } else {
        err := None;
        rdsSecrets := rdsSecrets - {awsID};
      }
    }

    method GetRDSSecret(awsID: string) returns (r: Result<RDSSecret, Error>)
      modifies this`trace
      ensures trace == old(trace) + [Call.GetRDSSecret(awsID)]
      ensures r == if Call.GetRDSSecret(awsID) in failing then Failure(ApiError(Call.GetRDSSecret(awsID)))
                   else if awsID !in rdsSecrets then Failure(NotFoundFault(Call.GetRDSSecret(awsID)))
                   else Success(rdsSecrets[awsID])
    {
      var c := Call.GetRDSSecret(awsID);
      trace := trace + [c];
      r := if c in failing then Failure(ApiError(c))
           else if awsID !in rdsSecrets then Failure(NotFoundFault(c))
           else Success(rdsSecrets[awsID]);
    }

    method EnsureIAMUserCreated(name: string) returns (r: Result<IAMUser, Error>)
      modifies this`trace
      ensures trace == old(trace) + [Call.EnsureIAMUserCreated(name)]
      ensures r == if Call.EnsureIAMUserCreated(name) in failing then Failure(ApiError(Call.EnsureIAMUserCreated(name)))
                   else Success(IAMUser(name, userAccountID))
    {
      var c := Call.EnsureIAMUserCreated(name);
      trace := trace + [c];
      r := if c in failing then Failure(ApiError(c)) else Success(IAMUser(name, userAccountID));
    }

    method EnsureIAMAccessKeyCreated(name: string) returns (r: Result<AccessKey, Error>)
      modifies this`trace
      ensures trace == old(trace) + [Call.EnsureIAMAccessKeyCreated(name)]
      ensures r == if Call.EnsureIAMAccessKeyCreated(name) in failing
                   then Failure(ApiError(Call.EnsureIAMAccessKeyCreated(name))) else Success(generatedKey)
    {
      var c := Call.EnsureIAMAccessKeyCreated(name);
      trace := trace + [c];
      r := if c in failing then Failure(ApiError(c)) else Success(generatedKey);
    }

    /** Stores `key` as the access-key secret of user `name`. */
    method EnsureIAMAccessKeySecretCreated(name: string, key: AccessKey) returns (err: Option<Error>)
      modifies this`trace, this`accessKeys
      ensures trace == old(trace) + [Call.EnsureIAMAccessKeySecretCreated(name, key)]
      ensures err == if Call.EnsureIAMAccessKeySecretCreated(name, key) in failing
                     then Some(ApiError(Call.EnsureIAMAccessKeySecretCreated(name, key))) else None
      ensures accessKeys == if err.Some? then old(accessKeys) else old(accessKeys)[name := key]
    {
      var c := Call.EnsureIAMAccessKeySecretCreated(name, key);
      trace := trace + [c];
      if c in failing {
        err := Some(ApiError(c));
      } else {
        err := None;
        accessKeys := accessKeys[name := key];
      }
    }

    method EnsureIAMAccessKeySecretDeleted(name: string) returns (err: Option<Error>)
      modifies this`trace, this`accessKeys
      ensures trace == old(trace) + [Call.EnsureIAMAccessKeySecretDeleted(name)]
      ensures err == if Call.EnsureIAMAccessKeySecretDeleted(name) in failing
                     then Some(ApiError(Call.EnsureIAMAccessKeySecretDeleted(name))) else None
      ensures accessKeys == if err.Some? then old(accessKeys) else old(accessKeys) - {name}
    {
      var c := Call.EnsureIAMAccessKeySecretDeleted(name);
      trace := trace + [c];
      if c in failing {
        err := Some(ApiError(c));
      } else {
        err := None;
        accessKeys := accessKeys - {name};
      }
    }

    method GetIAMAccessKey(name: string) returns (r: Result<AccessKey, Error>)
      modifies this`trace
      ensures trace == old(trace) + [Call.GetIAMAccessKey(name)]
      ensures r == if Call.GetIAMAccessKey(name) in failing then Failure(ApiError(Call.GetIAMAccessKey(name)))
                   else if name !in accessKeys then Failure(NotFoundFault(Call.GetIAMAccessKey(name)))
                   else Success(accessKeys[name])
    {
      var c := Call.GetIAMAccessKey(name);
      trace := trace + [c];
      r := if c in failing then Failure(ApiError(c))
           else if name !in accessKeys then Failure(NotFoundFault(c))
           else Success(accessKeys[name]);
    }
  }
}
