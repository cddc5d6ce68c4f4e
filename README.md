# Cluster installation migration in the Mattermost cloud provisioner, in Dafny

This project models the part of the Mattermost cloud provisioner that moves a
cluster installation from one Kubernetes cluster to another. It also models the
AWS database and filestore logic that such a migration depends on. The pieces are:

- the migration supervisor, which lists the migrations pending work, locks each
  one, computes its next state and writes it back;
- the catalogue of migration states;
- the API endpoint that creates a migration, and the request-scoped migration lock
  with its unlock-once closure;
- the backend dispatch that picks an installation's database, filestore and
  database-migration implementation;
- the RDS migration logic: naming, snapshot selection by tag and newest creation
  time, snapshot and endpoint status, snapshotting and restoring;
- the RDS helpers, each an idempotent "ensure" step. They create clusters and
  instances, delete a cluster after its members, and take and restore snapshots;
- the RDS database (VPC lookup, provisioning, teardown, the connection secret);
- the S3 filestore (names, the ordered provisioning and teardown of IAM user,
  policy, bucket and access key, the Minio secret);
- the AWS session options and the tag conversion.

The AWS SDK is replaced by the `AwsClient.Client` class. Its fields hold the
cloud state: clusters, instances, snapshots, secrets, IAM keys, VPCs and
security groups. Every call appends to a `trace`. A call listed in `failing`
fails, so every error path can be reached, and the contracts say which calls
happen, in which order, and what state each path leaves behind.

The SQL store is replaced by the `MigrationStore.Store` class. It holds the rows,
the listing order, a lock table, a failure set and a call log. Answers the SDK
returns to the migration logic, such as the snapshot listing, the tags of each
snapshot and the cluster endpoints, are passed in as sequences.

`CloudID(id)` is `"cloud-" + id`, from the prefix declared at
internal/tools/aws/constants.go:137.

## Model

| member | source | states |
|---|---|---|
| AwsConstants.CloudID | internal/tools/aws/constants.go:137 | An AWS resource name is the `cloud-` prefix followed by the installation id. |
| AwsConstants.CloudIDInjective | internal/tools/aws/constants.go:134-137 | Two installations with the same AWS resource name are the same installation. |
| AwsConstants.SnapshotTagValue | internal/tools/aws/constants.go:90-92 | The snapshot tag value is `rds-snapshot-` followed by the master cluster id. |
| AwsConstants.SnapshotTagValueInjective | internal/tools/aws/constants.go:90-92 | Two master clusters with the same snapshot tag value are the same cluster. |
| Tags.RDS | model/tag.go:12-18 | The RDS tags have the input's length, and the k-th one carries the k-th key and value. |
| Session.Region | internal/tools/aws/session.go:16-21 | No region is set exactly when the configured region is empty; otherwise it is the configured one. |
| Session.Retries | internal/tools/aws/session.go:23-28 | A positive retry count is passed on unchanged; any other count becomes -1. |
| Session.RetriesNeverZero | internal/tools/aws/session.go:23-28 | The retry option is either positive or -1, never 0. |
| MigrationStates.Declared | model/cluster_installation_migration_states.go:6-29 | Ten states are declared, and their names are pairwise distinct. |
| MigrationStates.AllCIMigrations | model/cluster_installation_migration_states.go:40-49 | Eight distinct declared states are listed; the two cluster-installation states are not. |
| MigrationStates.AllCIMigrationsPendingWork | model/cluster_installation_migration_states.go:56-65 | The list repeats two entries. As a set it is every listed state except stable and creation-failed. |
| MigrationStates.AllCMIRequestStates | model/cluster_installation_migration_states.go:72-74 | Creation-requested is the only state a request may ask for, and it is a listed state. |
| MigrationStore.PendingInExact | internal/supervisor/cluster_installation_migration.go:58 | Every listed migration is a stored row in a pending-work state that is not locked. Every such row filed under its own id is listed. |
| MigrationStore.PendingNeverTerminal | model/cluster_installation_migration_states.go:56-65 | The listing never offers a stable or creation-failed migration. |
| MigrationStore.Store.Lock | internal/supervisor/cluster_installation_migration.go:77-78 | Compare-and-set: the lock is granted exactly when the row exists and nobody holds it, and then the caller holds it. |
| MigrationStore.Store.Create | internal/api/cluster_installation_migration.go:37 | A stored migration gets the fresh id and the creation time. Nothing is stored on failure or when the id is taken. |
| MigrationSupervisor.Transition | internal/supervisor/cluster_installation_migration.go:109-126 | The state changes exactly for the two creation-requested installation states, and then becomes creation-failed. |
| MigrationSupervisor.TransitionProperties | internal/supervisor/cluster_installation_migration.go:109-126 | Creation-requested goes to creation-failed, which is not pending work. Stable and finished states stay put. The result is a listed state, and a second transition changes nothing. |
| MigrationSupervisor.Supervisor.Supervise | internal/supervisor/cluster_installation_migration.go:72-106 | A refused lock makes exactly one store call. Otherwise the row is re-read, a write happens only when the re-read state differs and changes only the state, and the lock is released on every path. |
| MigrationSupervisor.Supervisor.Do | internal/supervisor/cluster_installation_migration.go:57-69 | Never reports an error. A failed listing supervises nothing. Otherwise exactly one lock attempt per listed migration is made, in listing order. |
| MigrationApi.RequestedMigration | internal/api/cluster_installation_migration.go:31-35 | The new migration carries the requested cluster and cluster installation and is in creation-requested, a request state. |
| MigrationApi.HandleCreateClusterInstallationMigration | internal/api/cluster_installation_migration.go:23-49 | An undecodable body gives 400 and touches nothing. A failed create gives 500 and the supervisor does not run. Otherwise the supervisor runs after the create, and 202 carries the created migration. |
| MigrationApi.MigrationUnlocker.Unlock | internal/api/cluster_installation_migration.go:72-83 | The first call releases the request's lock without force; every later call makes no store call. |
| MigrationApi.LockMigration | internal/api/cluster_installation_migration.go:53-84 | A lookup error gives 500, a missing migration 404, a lock error 500 and a held lock 409, none with an unlock. On success the status is 0 and a fresh, unused unlock for the request comes with it. |
| Utils.GetFilestore | internal/tools/utils/utils.go:77-87 | Minio exactly for the operator kind and S3 exactly for the S3 kind, with the installation's bucket; anything else is unsupported. |
| Utils.GetDatabase | internal/tools/utils/utils.go:89-99 | MySQL operator and RDS exactly for their kinds, the RDS database belonging to the installation with no parent; anything else is not supported. |
| Utils.GetDatabaseMigration | internal/tools/utils/utils.go:101-109 | An RDS migration exactly for RDS installations, from the installation's cluster to the cluster installation's cluster. |
| Utils.MigrationFollowsDatabase | internal/tools/utils/utils.go:89-109 | An installation has an RDS migration exactly when it has an RDS database, and both name the same AWS cluster. |
| DatabaseMigration.NewRDSDatabaseMigration | internal/tools/aws/database_migration.go:26-37 | The master cluster is the installation's cloud id, the replica cluster adds `-migrated`, and the replica instance adds `-master` to that. |
| DatabaseMigration.NamesDistinct | internal/tools/aws/database_migration.go:26-37 | The master cluster, the replica cluster and the replica instance have three different names. |
| DatabaseMigration.NamesInjective | internal/tools/aws/database_migration.go:26-37 | For two different installations, each role's name differs: master cluster from master cluster, replica cluster from replica cluster, instance name from instance name. |
| DatabaseMigration.NamesCollideAcrossRoles | internal/tools/aws/database_migration.go:26-37 | Across roles names can coincide: the master cluster of installation `id-migrated` is the replica cluster of installation `id`. |
| DatabaseMigration.NamesDisjointForEqualLengthIDs | internal/tools/aws/database_migration.go:26-37 | For two different installation ids of one length, the two migrations share no name in any role. |
| DatabaseMigration.SnapshotTags | internal/tools/aws/database_migration.go:122-125 | A snapshot is created with exactly one tag. |
| DatabaseMigration.FirstFailure | internal/tools/aws/database_migration.go:50-56 | Tag listing fails exactly when the tags of some snapshot could not be listed. |
| DatabaseMigration.FirstFailureAt | internal/tools/aws/database_migration.go:50-56 | The error returned is that of the first snapshot whose tags could not be listed. |
| DatabaseMigration.FirstNewest | internal/tools/aws/database_migration.go:69-73 | Finds a snapshot that no other is newer than, and none before it is as new. |
| DatabaseMigration.InsertDescPermutes | internal/tools/aws/database_migration.go:69-73 | Inserting into the sorted list adds exactly that snapshot. |
| DatabaseMigration.InsertDescKeepsOrder | internal/tools/aws/database_migration.go:69-73 | Inserting keeps the list ordered newest first. |
| DatabaseMigration.SortDescPermutes | internal/tools/aws/database_migration.go:69-73 | Sorting is a permutation of the candidates. |
| DatabaseMigration.SortDescOrders | internal/tools/aws/database_migration.go:69-73 | The sorted candidates are ordered newest first. |
| DatabaseMigration.SortDescHead | internal/tools/aws/database_migration.go:69-73 | The stable sort puts first the earliest-listed of the newest candidates. |
| DatabaseMigration.TaggedIsCandidate | internal/tools/aws/database_migration.go:57-61 | A snapshot carrying the expected tag key and value is a candidate. |
| DatabaseMigration.CandidateIsTagged | internal/tools/aws/database_migration.go:57-61 | Every candidate is a listed snapshot carrying the expected tag key and value. |
| DatabaseMigration.MostRecentSnapshotIsNewestCandidate | internal/tools/aws/database_migration.go:39-74 | Selection succeeds exactly when the listings succeed and some snapshot matches. It then returns the earliest-listed of the newest candidates. |
| DatabaseMigration.SnapshotTagsSelected | internal/tools/aws/database_migration.go:122-125 | The tag a snapshot is created with is the one selection looks for, and it matches only the cluster it was created for. |
| DatabaseMigration.SnapshotIsCandidate | internal/tools/aws/database_migration.go:57-61 | A snapshot taken by `Snapshot` is a selection candidate for its cluster. |
| DatabaseMigration.ScanTags | internal/tools/aws/database_migration.go:57-61 | The inner loop collects the snapshot once for every tag that names the master cluster. |
| DatabaseMigration.GetMostRecentSnapshot | internal/tools/aws/database_migration.go:39-74 | The loops compute the selection specified by `MostRecentSnapshot`. |
| DatabaseMigration.SnapshotStatusFor | internal/tools/aws/database_migration.go:142-155 | Available maps to complete, creating to in-progress and modifying to modifying; every other status is an error. |
| DatabaseMigration.SnapshotStatus | internal/tools/aws/database_migration.go:136-156 | A failed selection is wrapped; otherwise the status of the selected snapshot is mapped. |
| DatabaseMigration.DatabaseStatus | internal/tools/aws/database_migration.go:159-190 | No endpoint is an error. Complete means every endpoint is available. In-progress means the first non-available endpoint is creating. |
| DatabaseMigration.Snapshot | internal/tools/aws/database_migration.go:121-133 | One snapshot of the master cluster is requested, tagged with exactly the selection tag. |
| DatabaseMigration.RestoreDecisionFor | internal/tools/aws/database_migration.go:89-102 | Restore proceeds exactly with one VPC, a selected snapshot and that snapshot available; a failed selection is returned wrapped. |
| DatabaseMigration.RestoreAsWrittenDereferencesNil | internal/tools/aws/database_migration.go:96-100 | With one VPC and no matching snapshot, the checks as written read the status of no snapshot. |
| DatabaseMigration.RestoreDecisionsAgree | internal/tools/aws/database_migration.go:89-102 | The corrected checks differ from the written ones only where those dereference nil. |
| DatabaseMigration.Restore | internal/tools/aws/database_migration.go:78-118 | A failed check calls nothing. Otherwise the trace and the error are exactly those of the restoring steps in the one VPC with the selected snapshot, and success holds exactly when the restore and the instance step both succeed. Every restore request restores the replica cluster from the selected snapshot, and every instance created is the replica's instance, after a successful restore. Clusters other than the replica are untouched, and instances gain only the replica's instance, on success. |
| DatabaseMigration.RestoreReplica | internal/tools/aws/database_migration.go:106-113 | The trace is the restore's calls followed by the instance step's calls only when the restore went through; the error is the first step's, wrapped. Succeeds exactly when both steps do. Clusters other than the replica are untouched, and instances gain only the replica's instance, on success. |
| DatabaseMigration.RestoreReplicaCallsShape | internal/tools/aws/database_migration.go:106-113 | The restoring steps start with the VPC's security groups. Every restore request is of the replica cluster from the given snapshot. Every instance created is the replica's instance in the replica cluster, after a restore request that went through. Success includes such a request. |
| Rds.SubnetGroupName | internal/tools/aws/rds.go:95 | The subnet group name is `mattermost-provisioner-db-` followed by the VPC id. |
| Rds.SnapshotID | internal/tools/aws/rds.go:277 | The snapshot id is the cluster id, `-snapshot-` and a fresh id. |
| Rds.GetDBSecurityGroupIDs | internal/tools/aws/rds.go:37-72 | Returns the ids of all the VPC's DB groups in order, fails when there are none, and passes a lookup error on unchanged. |
| Rds.GetDBSubnetGroupName | internal/tools/aws/rds.go:74-104 | Succeeds exactly when the group named after the VPC is listed, and returns that name. |
| Rds.EnsureDBClusterCreated | internal/tools/aws/rds.go:106-165 | An existing cluster ends the step after the describe call. Otherwise the calls and the error are those of the creation steps, clusters are untouched on error, and success leaves the cluster in place. |
| Rds.ClusterStepMakesNoInstanceCall | internal/tools/aws/rds.go:106-165 | The cluster step never describes or creates an instance. |
| Rds.CreateDBClusterInVpc | internal/tools/aws/rds.go:120-164 | Security groups, then the subnet group, then the creation in them. The first failure ends the sequence and is returned unchanged, an error leaves clusters untouched, and success leaves the cluster in place. |
| Rds.ClusterCreationCreatesOnlyAwsID | internal/tools/aws/rds.go:120-164 | At most one cluster is created, only as the last call and under the given id. Success means every lookup passed and the creation was issued. |
| Rds.EnsureDBClusterInstanceCreated | internal/tools/aws/rds.go:167-197 | An existing instance ends the step after the describe; otherwise one instance of the cluster is created with the custom parameter group. Only a failed creation is an error; instances gain exactly the named one on success, and clusters of other ids are untouched. |
| Rds.GetDBCluster | internal/tools/aws/rds.go:199-216 | Returns the cluster exactly when the describe call goes through and one cluster has the id. No cluster gives the describe call's not-found fault; more than one reports the count. |
| Rds.DeleteInstances | internal/tools/aws/rds.go:246-255 | The member instances are deleted in order up to the first failure. It succeeds exactly when no deletion fails, and then every member is gone. |
| Rds.DeleteMembersThenCluster | internal/tools/aws/rds.go:246-263 | Member instances are deleted in order, then the cluster. The first failure ends the sequence, so the cluster is not deleted. |
| Rds.EnsureDBClusterDeletedAsWritten | internal/tools/aws/rds.go:218-268 | A cluster that cannot be found is reported as an error, because the already-deleted branch is unreachable. Succeeds exactly when the describe call goes through, exactly one cluster has the id, and every member deletion and the cluster deletion go through. |
| Rds.EnsureDBClusterDeleted | internal/tools/aws/rds.go:218-268 | A cluster that cannot be found counts as deleted. Otherwise exactly one cluster is required, and it is deleted after its members. Succeeds exactly when the describe call goes through and either no cluster has the id or every deletion goes through. |
| Rds.EnsureDBClusterSnapshotCreated | internal/tools/aws/rds.go:270-285 | One snapshot of the cluster is requested, with the snapshot id and the tags unchanged. |
| Rds.EnsureRestoreDBClusterFromSnapshot | internal/tools/aws/rds.go:351-388 | Security groups, then the subnet group, then the restore; the first error stops the sequence and is returned wrapped with the VPC id. Clusters of other ids are untouched. |
| RdsDatabase.NewRDSDatabase | internal/tools/aws/database.go:34-38 | A new RDS database belongs to the installation and has no parent. |
| RdsDatabase.MasterInstanceName | internal/tools/aws/database.go:53 | The master instance is named after the cluster with `-master`. |
| RdsDatabase.DatabaseSecretName | internal/tools/aws/database.go:135 | The connection secret is named after the installation with `-rds`. |
| RdsDatabase.ConnectionString | internal/tools/aws/database.go:136-139 | The connection string embeds the username, password and endpoint at fixed positions. |
| RdsDatabase.GetVpcID | internal/tools/aws/database.go:183-226 | Fails without SQL store access. Succeeds exactly with one cluster installation whose cluster has one VPC, and returns that VPC. |
| RdsDatabase.Provision | internal/tools/aws/database.go:41-108 | A VPC error calls nothing. Otherwise the trace is the secret, then the cluster step, then the instance step only when the cluster step succeeded; the first error is returned. Succeeds exactly when the VPC lookup and all three steps do, and success leaves the secret, the cluster and the master instance in place. |
| RdsDatabase.ProvisionInVpc | internal/tools/aws/database.go:55-64 | The secret is ensured first, and its failure stops before any cluster call. After it come the cluster step and the instance step with the secret's credentials. Succeeds exactly when the secret, cluster and instance steps all do. Success leaves the secret, the cluster and the master instance in place. |
| RdsDatabase.ClusterThenInstance | internal/tools/aws/database.go:60-105 | The cluster step's calls, then the instance step's only when the cluster step succeeded; the first error is the result. Success leaves the cluster and the master instance in place. |
| RdsDatabase.ClusterThenInstanceCompose | internal/tools/aws/database.go:60-105 | Succeeds exactly when both steps do. A failed cluster step is the result, and no instance call is made. |
| RdsDatabase.RdsDatabaseTeardown | internal/tools/aws/database.go:159-181 | The secret is deleted first, and its failure stops before any cluster call. The cluster is deleted exactly when data is not kept. Succeeds exactly when the secret deletion goes through and, unless data is kept, the cluster deletion succeeds. A cluster that is already gone counts as deleted. |
| RdsDatabase.Teardown | internal/tools/aws/database.go:111-118 | Succeeds exactly when the secret deletion goes through and, unless data is kept, the cluster deletion succeeds. Keeping data leaves clusters and instances untouched. |
| RdsDatabase.GenerateDatabaseSpecAndSecret | internal/tools/aws/database.go:122-157 | The spec and secret share the `-rds` name, and the secret's connection string uses the stored credentials and the one cluster's endpoint. |
| S3Filestore.NewS3Filestore | internal/tools/aws/filestore.go:25-32 | The bucket is the installation's cloud id, and the secret is the bucket followed by `-iam-access-key`. |
| S3Filestore.FilestoreNamesDistinct | internal/tools/aws/filestore.go:25-32 | Different installations get different buckets and secrets, and no secret shares its bucket's name. |
| S3Filestore.PolicyARNFormat | internal/tools/aws/filestore.go:14 | The policy ARN names the account and then, after `:policy/`, the bucket. |
| S3Filestore.S3FilestoreProvision | internal/tools/aws/filestore.go:84-134 | User, policy, attachment, bucket, access key and secret happen in that order; the first error ends the sequence. Success stores the new key for the bucket. |
| S3Filestore.ProvisionUserResources | internal/tools/aws/filestore.go:99-130 | Policy, attachment, bucket, access key and secret in that order, up to the first failure. Success stores the new key for the bucket. |
| S3Filestore.ProvisionAccessKey | internal/tools/aws/filestore.go:121-130 | The key is created, then stored as the secret, up to the first failure. The key is stored exactly on success. |
| S3Filestore.S3FilestoreTeardown | internal/tools/aws/filestore.go:136-159 | The user, then the secret, then the bucket exactly when data is not kept; the first error ends the sequence. |
| S3Filestore.Provision | internal/tools/aws/filestore.go:35-42 | Succeeds exactly when every provisioning step does; an error is wrapped. |
| S3Filestore.Teardown | internal/tools/aws/filestore.go:45-52 | Succeeds exactly when every teardown step does; an error is wrapped. |
| S3Filestore.GenerateFilestoreSpecAndSecret | internal/tools/aws/filestore.go:56-81 | The spec points at the bucket through the S3 URL and names the secret, which holds the bucket user's key id and secret. |

## Left out

- The branch of `Provision` that waits for a parent installation's snapshot (internal/tools/aws/database.go:65-100) is left out. It is a timeout plus a `select` over status channels, and `RdsDatabase.Provision` requires an installation without a parent.
- The SQL behind the store and the lock helper `newClusterInstallationMigrationLock` are not part of this model. The store is an abstract class and the lock a compare-and-set on the lock table. The supervisor takes the lock with the migration's cluster id as locker, as the call at internal/supervisor/cluster_installation_migration.go:77 passes it.
- MigrationSupervisor.Supervisor.Supervise: a stored row that disappears between the lock and the re-read would be a nil dereference in the source. The model runs one caller at a time, so a locked row is always found.
- MigrationSupervisor.Supervisor.Do: states the lock attempts in listing order rather than the full log and rows after the tick.
- MigrationApi.HandleCreateClusterInstallationMigration: states the calls up to the supervisor tick and the response. The stored row after the tick is left to `Supervisor.Do`.
- The AWS SDK calls themselves, `CreateSession`, `NewClient` and the session wiring are not modelled. They are foreign calls; each SDK call is one step of `AwsClient.Client` that succeeds or fails.
- `rdsGetSnapshotTagsMap` is not modelled. It is not used by the modelled operations, and the selection takes the tag listing of each snapshot as an input.
- `CopyDirectory` and `copyFile` are not modelled: they are filesystem I/O.
- Kubernetes objects are reduced to the fields the code fills in: names, the secret's string data and the Minio URL and bucket.
- Request decoding, routing, response writing and logging are left out. A decoded request is an `Option`, and a response is a status code with an optional body.
- DatabaseMigration.GetMostRecentSnapshot: the sort is a functional stable insertion sort on a sequence, not an in-place sort. Create times are integers.
- DatabaseMigration.Restore: the VPC lookup filters are abstracted into the client's VPCs of the replica cluster.
- `NewRDSDatabaseMigration` is declared twice, in internal/tools/aws/database.go:26 and internal/tools/aws/database_migration.go:26. The model follows the second, which the migration code uses. The extra client argument at internal/tools/utils/utils.go:95,105 is dropped.
- The migration status constants used at internal/tools/aws/database_migration.go:146,177 are not defined in the files modelled, and the `DatabaseMigration` interface does not match the RDS methods. The statuses are the enumeration `MigrationStatus`.
- `RDSCustomParamGroupName` is declared twice with different values. The model uses `mattermost-provisioner-rds-pg` from internal/tools/aws/constants.go:104. internal/tools/aws/rds_test.go expects a cluster parameter group for the cluster; the model follows the code, which passes the instance group.
- The supervisor's failed state is `creation-failed`, the catalogue's value.
- The installation states the transition tests are assumed to be `creation-requested` and `creation-no-compatible-clusters`. The installation backend kinds are assumed to be `mysql-operator`, `aws-rds`, `minio-operator` and `aws-s3`. Those declarations are not part of this model.
- The IAM user's account id comes from parsing the user's ARN. That parser is not part of this model; a missing account id stands for a parse failure.
- RdsDatabase.RdsDatabaseTeardown: calls the corrected `Rds.EnsureDBClusterDeleted`, so a cluster that is already gone counts as deleted. As written, internal/tools/aws/database.go:170-173 calls the defective deletion of the second finding: that teardown, and `Teardown` around it, fail with the wrapped not-found fault. `Rds.EnsureDBClusterDeletedAsWritten` states that outcome.
- DatabaseMigration.NamesInjective: distinctness is stated role by role only. Names of different roles can coincide when installation ids differ in length (`NamesCollideAcrossRoles`). `NamesDisjointForEqualLengthIDs` rules this out for ids of one length.
- The random part of snapshot ids (`model.NewID`) and the store's fresh ids and clock are parameters.

## Findings

| source | as written | input that shows it | evidently intended | confidence | as-written member | corrected member |
|---|---|---|---|---|---|---|
| internal/tools/aws/database_migration.go:96-100 | The selection error is wrapped and discarded, and the snapshot's status is read anyway. | One VPC for the replica cluster and no snapshot carrying the expected tag: selection fails, and the status of a nil snapshot is read. | Return the wrapped selection error. | not executed | DatabaseMigration.RestoreAsWrittenDereferencesNil | DatabaseMigration.RestoreDecisionFor |
| internal/tools/aws/rds.go:236-244 | The not-found check follows a `return err` for the same error, so it never runs. A missing cluster is reported as an error. | A describe call that fails with `DBClusterNotFoundFault`: teardown fails instead of treating the cluster as already deleted. `RdsDatabase.RdsDatabaseTeardown` uses the corrected deletion. | Treat a cluster that cannot be found as already deleted. | not executed | Rds.EnsureDBClusterDeletedAsWritten | Rds.EnsureDBClusterDeleted |
