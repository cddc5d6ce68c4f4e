/**
 * Backend dispatch: which database, filestore and database-migration
 * implementation an installation gets, chosen by the backend kinds it records.
 */
module Utils {
  import opened AwsConstants
  import RdsDatabase
  import S3Filestore
  import DatabaseMigration

  /** The backend kinds an installation can record. */
  const InstallationDatabaseMysqlOperator := "mysql-operator"
  const InstallationDatabaseAwsRDS := "aws-rds"
  const InstallationFilestoreMinioOperator := "minio-operator"
  const InstallationFilestoreAwsS3 := "aws-s3"

  datatype Installation = Installation(id: string, database: string, filestore: string)

  datatype ClusterInstallation = ClusterInstallation(id: string, clusterID: string, installationID: string)

  datatype Filestore =
    | MinioOperatorFilestore
    | S3(s3: S3Filestore.S3Filestore)
    | UnsupportedFilestore

  datatype Database =
    | MysqlOperatorDatabase
    | RDS(rds: RdsDatabase.RDSDatabase)
    | NotSupportedDatabase

  datatype Migration =
    | RDSMigration(migration: DatabaseMigration.RDSDatabaseMigration)
    | NotSupportedDatabaseMigration

  /** `GetFilestore`: Minio for the operator kind, the installation's S3 bucket for S3, unsupported otherwise. */
  function GetFilestore(i: Installation): (r: Filestore)
    ensures r.MinioOperatorFilestore? <==> i.filestore == InstallationFilestoreMinioOperator
    ensures r.S3? <==> i.filestore == InstallationFilestoreAwsS3
    ensures r.UnsupportedFilestore? <==>
              i.filestore != InstallationFilestoreMinioOperator && i.filestore != InstallationFilestoreAwsS3
    ensures r.S3? ==> r.s3.installationID == i.id && r.s3.bucketID == CloudID(i.id)
  {
    if i.filestore == InstallationFilestoreMinioOperator then MinioOperatorFilestore
    else if i.filestore == InstallationFilestoreAwsS3 then S3(S3Filestore.NewS3Filestore(i.id))
    else UnsupportedFilestore
  }

  /** `GetDatabase`: the MySQL operator, the installation's own RDS database, or not supported. */
  function GetDatabase(i: Installation): (r: Database)
    ensures r.MysqlOperatorDatabase? <==> i.database == InstallationDatabaseMysqlOperator
    ensures r.RDS? <==> i.database == InstallationDatabaseAwsRDS
    ensures r.NotSupportedDatabase? <==>
              i.database != InstallationDatabaseMysqlOperator && i.database != InstallationDatabaseAwsRDS
    ensures r.RDS? ==> r.rds.installationID == i.id && r.rds.parentInstallationID == ""
  {
    if i.database == InstallationDatabaseMysqlOperator then MysqlOperatorDatabase
    else if i.database == InstallationDatabaseAwsRDS then RDS(RdsDatabase.NewRDSDatabase(i.id))
    else NotSupportedDatabase
  }

  /**
   * `GetDatabaseMigration`: an RDS migration exactly for RDS installations,
   * moving the installation's cluster to the cluster installation's cluster.
   */
  function GetDatabaseMigration(i: Installation, ci: ClusterInstallation): (r: Migration)
    ensures r.RDSMigration? <==> i.database == InstallationDatabaseAwsRDS
    ensures r.RDSMigration? ==>
              && r.migration.masterDBClusterID == CloudID(i.id)
              && r.migration.replicaClusterID == ci.clusterID
  {
    if i.database == InstallationDatabaseAwsRDS
    then RDSMigration(DatabaseMigration.NewRDSDatabaseMigration(i.id, ci.clusterID))
    else NotSupportedDatabaseMigration
  }

  /**
   * The migration dispatch agrees with the database dispatch: an installation
   * has an RDS migration exactly when it has an RDS database, and both work on
   * the same cluster.
   */
  lemma MigrationFollowsDatabase(i: Installation, ci: ClusterInstallation)
    ensures GetDatabaseMigration(i, ci).RDSMigration? <==> GetDatabase(i).RDS?
    ensures GetDatabase(i).RDS? ==>
              GetDatabaseMigration(i, ci).migration.masterDBClusterID == CloudID(GetDatabase(i).rds.installationID)
  {
  }
}
