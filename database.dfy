/**
 * An installation database backed by an RDS cluster: resolving the VPC the
 * installation's cluster runs in, provisioning (secret, cluster, master
 * instance), teardown, and the database spec and secret handed to the cluster.
 */
module RdsDatabase {
  import opened Wrappers
  import opened AwsConstants
  import opened AwsClient
  import Rds
  import opened Kube

  datatype RDSDatabase = RDSDatabase(installationID: string, parentInstallationID: string)

  /** `NewRDSDatabase`: a database of its own, with no parent installation to restore from. */
  function NewRDSDatabase(installationID: string): (d: RDSDatabase)
    ensures d.installationID == installationID && d.parentInstallationID == ""
  {
    RDSDatabase(installationID, "")
  }

  const NoSQLStoreMessage := "the provided AWS client does not have SQL store access"
  const LookupContext := "unable to lookup cluster installations for installation "
  const ClusterInstallationWhat := "cluster installation"
  const VpcWhat := "VPC"
  const NoClusterInstallationsMessage := "no cluster installations found for "
  const DeleteSecretContext := "unable to delete RDS secret"
  const DeleteClusterContext := "unable to delete RDS DB cluster"
  const TeardownContext := "unable to teardown RDS database"
  const ProvisionContext := "unable to get resources required for provisioning an RDS database"
  const ConnectionStringKey := "DB_CONNECTION_STRING"
  const ConnectionOptions := ":3306)/mattermost?charset=utf8mb4,utf8&readTimeout=30s&writeTimeout=30s"

  function MasterInstanceName(awsID: string): (r: string)
    ensures |r| == |awsID| + 7 && r[..|awsID|] == awsID && r[|awsID|..] == "-master"
  {
    awsID + "-master"
  }

  /** Name of the Kubernetes secret holding an installation's connection string. */
  function DatabaseSecretName(installationID: string): (r: string)
    ensures |r| == |installationID| + 4 && r[..|installationID|] == installationID && r[|installationID|..] == "-rds"
  {
    installationID + "-rds"
  }

  /** The MySQL connection string of the cluster endpoint, with the master credentials. */
  function ConnectionString(username: string, password: string, endpoint: string): (r: string)
    ensures |r| == 14 + |username| + |password| + |endpoint| + |ConnectionOptions|
    ensures r[..8] == "mysql://"
    ensures r[8..8 + |username|] == username && r[8 + |username|] == ':'
    ensures r[9 + |username|..9 + |username| + |password|] == password
    ensures r[9 + |username| + |password|..14 + |username| + |password|] == "@tcp("
    ensures r[14 + |username| + |password|..14 + |username| + |password| + |endpoint|] == endpoint
  {
    "mysql://" + username + ":" + password + "@tcp(" + endpoint + ConnectionOptions
  }

  /**
   * `getVpcID`: needs the SQL store, exactly one cluster installation of the
   * installation, and exactly one VPC claimed by that cluster.
   */
  function GetVpcID(installationID: string, a: Client): (r: Result<string, Error>)
    reads a`hasSQLStore, a`clusterInstallations, a`vpcs, a`failing
    ensures !a.hasSQLStore ==> r == Failure(Message(NoSQLStoreMessage))
    ensures a.hasSQLStore && a.ClusterInstallationsOf(installationID).Failure? ==> r.Failure?
    ensures r.Success? <==>
              && a.hasSQLStore
              && a.ClusterInstallationsOf(installationID).Success?
              && |a.ClusterInstallationsOf(installationID).value| == 1
              && a.VpcsOf(a.ClusterInstallationsOf(installationID).value[0]).Success?
              && |a.VpcsOf(a.ClusterInstallationsOf(installationID).value[0]).value| == 1
    ensures r.Success? ==>
              && installationID in a.clusterInstallations && |a.clusterInstallations[installationID]| == 1
              && var clusterID := a.clusterInstallations[installationID][0];
                 clusterID in a.vpcs && a.vpcs[clusterID] == [r.value]
  {
    if !a.hasSQLStore then Failure(Message(NoSQLStoreMessage))
    else
      var cis := a.ClusterInstallationsOf(installationID);
      if cis.Failure? then
        Failure(Wrapped(LookupContext + installationID, cis.error))
      else if |cis.value| == 0 then Failure(Message(NoClusterInstallationsMessage + installationID))
      else if |cis.value| != 1 then Failure(CountMismatch(ClusterInstallationWhat, |cis.value|))
      else
        var vpcs := a.VpcsOf(cis.value[0]);
        if vpcs.Failure? then Failure(vpcs.error)
        else if |vpcs.value| != 1 then Failure(CountMismatch(VpcWhat, |vpcs.value|))
        else Success(vpcs.value[0])
  }

  /**
   * `Provision` for an installation without a parent: attaches the SQL store,
   * resolves the VPC, ensures the credentials secret, the cluster and finally
   * the master instance, stopping at the first error.
   */
  method Provision(d: RDSDatabase, a: Client) returns (err: Option<Error>)
    requires d.parentInstallationID == ""
    modifies a`hasSQLStore, a`trace, a`rdsSecrets, a`clusters, a`instances
    ensures a.hasSQLStore
    ensures old(a.trace) <= a.trace
    ensures GetVpcID(d.installationID, a).Failure? ==>
              err == Some(Wrapped(ProvisionContext, GetVpcID(d.installationID, a).error)) && a.trace == old(a.trace)
    ensures var secret := Call.EnsureRDSSecretCreated(CloudID(d.installationID));
      GetVpcID(d.installationID, a).Success? ==> old(a.trace) + [secret] <= a.trace
    ensures var secret := Call.EnsureRDSSecretCreated(CloudID(d.installationID));
      GetVpcID(d.installationID, a).Success? && secret in a.failing ==>
        err == Some(ApiError(secret)) && a.trace == old(a.trace) + [secret] && a.clusters == old(a.clusters)
    ensures var awsID := CloudID(d.installationID);
      err.None? ==>
        && awsID in a.rdsSecrets && a.ClusterExists(awsID) && MasterInstanceName(awsID) in a.instances
        && a.trace[|a.trace| - 1] in {Call.DescribeDBInstances(MasterInstanceName(awsID)),
                                      Call.CreateDBInstance(awsID, MasterInstanceName(awsID), RDSCustomParamGroupName)}
    ensures var awsID, vpcID := CloudID(d.installationID), GetVpcID(d.installationID, a);
      var cred := if awsID in old(a.rdsSecrets) then old(a.rdsSecrets)[awsID] else a.generatedSecret;
      vpcID.Success? && Call.EnsureRDSSecretCreated(awsID) !in a.failing ==>
        && a.trace == old(a.trace) + [Call.EnsureRDSSecretCreated(awsID)]
                      + ClusterThenInstanceCalls(a, awsID, vpcID.value, cred, old(a.ClusterExists(awsID)),
                                                 MasterInstanceName(awsID) in old(a.instances))
        && err == ClusterThenInstanceOutcome(a, awsID, vpcID.value, cred, old(a.ClusterExists(awsID)),
                                             MasterInstanceName(awsID) in old(a.instances))
    ensures var awsID, vpcID := CloudID(d.installationID), GetVpcID(d.installationID, a);
      var cred := if awsID in old(a.rdsSecrets) then old(a.rdsSecrets)[awsID] else a.generatedSecret;
      err.None? <==>
        && vpcID.Success?
        && Call.EnsureRDSSecretCreated(awsID) !in a.failing
        && Rds.ClusterStepOutcome(a, awsID, vpcID.value, cred.masterUsername, cred.masterPassword,
                                  old(a.ClusterExists(awsID))).None?
        && Rds.InstanceStepOutcome(awsID, MasterInstanceName(awsID), MasterInstanceName(awsID) in old(a.instances),
                                   a.failing).None?
  {
    a.hasSQLStore := true;
    var vpcID := GetVpcID(d.installationID, a);
    if vpcID.Failure? {
      return Some(Wrapped(ProvisionContext, vpcID.error));
    }
    err := ProvisionInVpc(CloudID(d.installationID), vpcID.value, a);
  }

  /** The cluster step's calls, followed by the instance step's calls only when the cluster step succeeded. */
  function ClusterThenInstanceCalls(a: Client, awsID: string, vpcID: string, cred: RDSSecret,
                                    clusterPresent: bool, instancePresent: bool): seq<Call>
    reads a`securityGroups, a`subnetGroups, a`failing
  {
    var cluster := Rds.ClusterStepCalls(a, awsID, vpcID, cred.masterUsername, cred.masterPassword, clusterPresent);
    if Rds.ClusterStepOutcome(a, awsID, vpcID, cred.masterUsername, cred.masterPassword, clusterPresent).Some?
    then cluster
    else cluster + Rds.InstanceStepCalls(awsID, MasterInstanceName(awsID), instancePresent, a.failing)
  }

  /** The cluster step's error, or else the instance step's. */
  function ClusterThenInstanceOutcome(a: Client, awsID: string, vpcID: string, cred: RDSSecret,
                                      clusterPresent: bool, instancePresent: bool): Option<Error>
    reads a`securityGroups, a`subnetGroups, a`failing
  {
    var cluster := Rds.ClusterStepOutcome(a, awsID, vpcID, cred.masterUsername, cred.masterPassword, clusterPresent);
    if cluster.Some? then cluster
    else Rds.InstanceStepOutcome(awsID, MasterInstanceName(awsID), instancePresent, a.failing)
  }

  /**
   * After the secret, provisioning succeeds exactly when the cluster and
   * instance steps both do, and a failed cluster step is the result and ends
   * it before any instance call.
   */
  lemma ClusterThenInstanceCompose(a: Client, awsID: string, vpcID: string, cred: RDSSecret,
                                   clusterPresent: bool, instancePresent: bool)
    ensures var cluster := Rds.ClusterStepOutcome(a, awsID, vpcID, cred.masterUsername, cred.masterPassword, clusterPresent);
      && (ClusterThenInstanceOutcome(a, awsID, vpcID, cred, clusterPresent, instancePresent).None? <==>
            cluster.None? && Rds.InstanceStepOutcome(awsID, MasterInstanceName(awsID), instancePresent, a.failing).None?)
      && (cluster.Some? ==>
            && ClusterThenInstanceOutcome(a, awsID, vpcID, cred, clusterPresent, instancePresent) == cluster
            && forall c :: c in ClusterThenInstanceCalls(a, awsID, vpcID, cred, clusterPresent, instancePresent) ==>
                 !c.DescribeDBInstances? && !c.CreateDBInstance?)
  {
    Rds.ClusterStepMakesNoInstanceCall(a, awsID, vpcID, cred.masterUsername, cred.masterPassword, clusterPresent);
  }

  /** The steps of `Provision` once the VPC is known: the credentials secret, the cluster, the master instance. */
  method ProvisionInVpc(awsID: string, vpcID: string, a: Client) returns (err: Option<Error>)
    modifies a`trace, a`rdsSecrets, a`clusters, a`instances
    ensures old(a.trace) + [Call.EnsureRDSSecretCreated(awsID)] <= a.trace
    ensures var secret := Call.EnsureRDSSecretCreated(awsID);
      secret in a.failing ==> err == Some(ApiError(secret)) && a.trace == old(a.trace) + [secret] && a.clusters == old(a.clusters)
    ensures err.None? ==>
              && awsID in a.rdsSecrets && a.ClusterExists(awsID) && MasterInstanceName(awsID) in a.instances
              && a.trace[|a.trace| - 1] in {Call.DescribeDBInstances(MasterInstanceName(awsID)),
                                            Call.CreateDBInstance(awsID, MasterInstanceName(awsID), RDSCustomParamGroupName)}
    ensures var secret := Call.EnsureRDSSecretCreated(awsID);
      var cred := if awsID in old(a.rdsSecrets) then old(a.rdsSecrets)[awsID] else a.generatedSecret;
      secret !in a.failing ==>
        && a.trace == old(a.trace) + [secret] + ClusterThenInstanceCalls(a, awsID, vpcID, cred, old(a.ClusterExists(awsID)),
                                                                         MasterInstanceName(awsID) in old(a.instances))
        && err == ClusterThenInstanceOutcome(a, awsID, vpcID, cred, old(a.ClusterExists(awsID)),
                                             MasterInstanceName(awsID) in old(a.instances))
    ensures var cred := if awsID in old(a.rdsSecrets) then old(a.rdsSecrets)[awsID] else a.generatedSecret;
      err.None? <==>
        && Call.EnsureRDSSecretCreated(awsID) !in a.failing
        && Rds.ClusterStepOutcome(a, awsID, vpcID, cred.masterUsername, cred.masterPassword, old(a.ClusterExists(awsID))).None?
        && Rds.InstanceStepOutcome(awsID, MasterInstanceName(awsID), MasterInstanceName(awsID) in old(a.instances), a.failing).None?
  {
    var rdsSecret := a.EnsureRDSSecretCreated(awsID);
    if rdsSecret.Failure? {
      return Some(rdsSecret.error);
    }
    err := ClusterThenInstance(awsID, vpcID, rdsSecret.value, a);
    ClusterThenInstanceCompose(a, awsID, vpcID, rdsSecret.value, old(a.ClusterExists(awsID)),
                               MasterInstanceName(awsID) in old(a.instances));
  }

  /** The cluster step and then, when it succeeded, the master instance step. */
  method ClusterThenInstance(awsID: string, vpcID: string, cred: RDSSecret, a: Client) returns (err: Option<Error>)
    modifies a`trace, a`clusters, a`instances
    ensures a.trace == old(a.trace) + ClusterThenInstanceCalls(a, awsID, vpcID, cred, old(a.ClusterExists(awsID)),
                                                               MasterInstanceName(awsID) in old(a.instances))
    ensures err == ClusterThenInstanceOutcome(a, awsID, vpcID, cred, old(a.ClusterExists(awsID)),
                                              MasterInstanceName(awsID) in old(a.instances))
    ensures err.None? ==>
              && a.ClusterExists(awsID) && MasterInstanceName(awsID) in a.instances
              && a.trace[|a.trace| - 1] in {Call.DescribeDBInstances(MasterInstanceName(awsID)),
                                            Call.CreateDBInstance(awsID, MasterInstanceName(awsID), RDSCustomParamGroupName)}
  {
    err := Rds.EnsureDBClusterCreated(a, awsID, vpcID, cred.masterUsername, cred.masterPassword);
    if err.Some? {
      return;
    }
    err := Rds.EnsureDBClusterInstanceCreated(a, awsID, MasterInstanceName(awsID));
  }

  /**
   * `rdsDatabaseTeardown`: deletes the credentials secret first, and the
   * cluster with its instances only when data is not kept. The deletion is
   * the corrected `Rds.EnsureDBClusterDeleted`: a cluster that is already gone
   * counts as deleted.
   */
  method RdsDatabaseTeardown(installationID: string, keepData: bool, a: Client) returns (err: Option<Error>)
    modifies a`trace, a`rdsSecrets, a`instances, a`clusters
    ensures var awsID := CloudID(installationID);
      old(a.trace) + [Call.EnsureRDSSecretDeleted(awsID)] <= a.trace
    ensures var secret := Call.EnsureRDSSecretDeleted(CloudID(installationID));
      secret in a.failing ==>
        err == Some(Wrapped(DeleteSecretContext, ApiError(secret))) && a.trace == old(a.trace) + [secret]
        && a.clusters == old(a.clusters) && a.instances == old(a.instances)
    ensures var secret := Call.EnsureRDSSecretDeleted(CloudID(installationID));
      keepData ==>
        a.trace == old(a.trace) + [secret] && a.clusters == old(a.clusters) && a.instances == old(a.instances)
        && (err.None? <==> secret !in a.failing)
    ensures var awsID := CloudID(installationID);
      !keepData && Call.EnsureRDSSecretDeleted(awsID) !in a.failing ==>
        && old(a.trace) + [Call.EnsureRDSSecretDeleted(awsID), Call.DescribeDBClusters(awsID)] <= a.trace
        && (err.Some? ==> err.value.Wrapped? && err.value.context == DeleteClusterContext)
    ensures var awsID := CloudID(installationID);
      err.None? <==> Call.EnsureRDSSecretDeleted(awsID) !in a.failing
                     && (keepData || Rds.DeletionSucceeds(old(a.clusters), awsID, a.failing))
    ensures var awsID := CloudID(installationID); var describe := Call.DescribeDBClusters(awsID);
      !keepData && Call.EnsureRDSSecretDeleted(awsID) !in a.failing && describe !in a.failing
      && !old(a.ClusterExists(awsID)) ==>
        err == None && a.trace == old(a.trace) + [Call.EnsureRDSSecretDeleted(awsID), describe]
    ensures err.None? ==> CloudID(installationID) !in a.rdsSecrets
    ensures err.None? && !keepData ==> !a.ClusterExists(CloudID(installationID))
  {
    var awsID := CloudID(installationID);
    var e := a.EnsureRDSSecretDeleted(awsID);
    if e.Some? {
      return Some(Wrapped(DeleteSecretContext, e.value));
    }
    if !keepData {
      var before := a.trace;
      e := Rds.EnsureDBClusterDeleted(a, awsID);
      assert a.trace[..|before|] == before;
      if e.Some? {
        return Some(Wrapped(DeleteClusterContext, e.value));
      }
    }
    err := None;
  }

  /** `Teardown`: succeeds exactly when `RdsDatabaseTeardown` does, and wraps its error otherwise. */
  method Teardown(d: RDSDatabase, keepData: bool, a: Client) returns (err: Option<Error>)
    modifies a`trace, a`rdsSecrets, a`instances, a`clusters
    ensures err.None? ==> CloudID(d.installationID) !in a.rdsSecrets
    ensures err.None? && !keepData ==> !a.ClusterExists(CloudID(d.installationID))
    ensures var awsID := CloudID(d.installationID);
      err.None? <==> Call.EnsureRDSSecretDeleted(awsID) !in a.failing
                     && (keepData || Rds.DeletionSucceeds(old(a.clusters), awsID, a.failing))
    ensures err.Some? ==> err.value.Wrapped? && err.value.context == TeardownContext
    ensures keepData ==> a.clusters == old(a.clusters) && a.instances == old(a.instances)
  {
    var e := RdsDatabaseTeardown(d.installationID, keepData, a);
    if e.Some? {
      return Some(Wrapped(TeardownContext, e.value));
    }
    err := None;
  }

  /**
   * `GenerateDatabaseSpecAndSecret`: reads the stored credentials and the one
   * cluster of the installation and names both spec and secret after the
   * installation; the secret's connection string uses those credentials and
   * the cluster's endpoint.
   */
  method GenerateDatabaseSpecAndSecret(d: RDSDatabase, a: Client) returns (r: Result<(DatabaseSpec, Secret), Error>)
    modifies a`trace
    ensures var awsID := CloudID(d.installationID);
      r.Success? <==> Call.GetRDSSecret(awsID) !in a.failing && awsID in a.rdsSecrets
                      && Call.DescribeDBClusters(awsID) !in a.failing && |Named(a.clusters, awsID)| == 1
    ensures var awsID := CloudID(d.installationID);
      r.Success? ==>
        var (spec, secret) := r.value;
        var credentials := a.rdsSecrets[awsID];
        && spec.secret == DatabaseSecretName(d.installationID) && secret.name == spec.secret
        && secret.stringData == map[ConnectionStringKey := ConnectionString(credentials.masterUsername, credentials.masterPassword,
                                                                            Named(a.clusters, awsID)[0].endpoint)]
    ensures var awsID := CloudID(d.installationID);
      Call.GetRDSSecret(awsID) in a.failing || awsID !in a.rdsSecrets ==> a.trace == old(a.trace) + [Call.GetRDSSecret(awsID)]
  {
    var awsID := CloudID(d.installationID);
    var rdsSecret := a.GetRDSSecret(awsID);
    if rdsSecret.Failure? {
      return Failure(rdsSecret.error);
    }
    var dbCluster := Rds.GetDBCluster(a, awsID);
    if dbCluster.Failure? {
      return Failure(dbCluster.error);
    }
    var cs := Named(a.clusters, awsID);
    assert dbCluster.value in cs;
    var databaseSecretName := DatabaseSecretName(d.installationID);
    var connection := ConnectionString(rdsSecret.value.masterUsername, rdsSecret.value.masterPassword,
                                       dbCluster.value.endpoint);
    r := Success((DatabaseSpec(databaseSecretName), Secret(databaseSecretName, map[ConnectionStringKey := connection])));
  }
}
