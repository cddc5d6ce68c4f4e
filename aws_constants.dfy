/** Naming constants of the AWS tooling package and the `CloudID` naming rule. */
module AwsConstants {

  /** Prefix of every AWS resource name derived from an installation id. */
  const CloudIDPrefix := "cloud-"

  /** The S3 endpoint written into generated filestore specs. */
  const S3URL := "s3.amazonaws.com"

  /** Tag key and value template that mark a snapshot as belonging to a cluster installation. */
  const SnapshotTagKey := "tag:ClusterInstallationSnapshot"
  const SnapshotTagValuePrefix := "rds-snapshot-"

  /** RDS parameters. `RDSCustomParamGroupName` takes the value declared beside the other constants. */
  const RDSCustomParamGroupName := "mattermost-provisioner-rds-pg"
  const RDSDefaultSnapshotType := "manual"

  /** Resource statuses reported by RDS. */
  const RDSStatusAvailable := "available"
  const RDSStatusDeleting := "deleting"
  const RDSStatusCreating := "creating"
  const RDSStatusModifying := "modifying"

  /** The AWS name of an installation's resources. */
  function CloudID(id: string): (r: string)
    ensures |r| == |CloudIDPrefix| + |id|
    ensures r[..|CloudIDPrefix|] == CloudIDPrefix && r[|CloudIDPrefix|..] == id
  {
    CloudIDPrefix + id
  }

  /** The tag value that identifies snapshots of the DB cluster `masterDBClusterID`. */
  function SnapshotTagValue(masterDBClusterID: string): (r: string)
    ensures |r| == |SnapshotTagValuePrefix| + |masterDBClusterID|
    ensures r[..|SnapshotTagValuePrefix|] == SnapshotTagValuePrefix
    ensures r[|SnapshotTagValuePrefix|..] == masterDBClusterID
  {
    SnapshotTagValuePrefix + masterDBClusterID
  }

  /** Different installations never share an AWS name. */
  lemma CloudIDInjective(a: string, b: string)
    requires CloudID(a) == CloudID(b)
    ensures a == b
  {
    assert a == CloudID(a)[|CloudIDPrefix|..];
  }

  /** Different DB clusters never share a snapshot tag value. */
  lemma SnapshotTagValueInjective(a: string, b: string)
    requires SnapshotTagValue(a) == SnapshotTagValue(b)
    ensures a == b
  {
    assert a == SnapshotTagValue(a)[|SnapshotTagValuePrefix|..];
  }
}
