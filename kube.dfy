/** The Kubernetes objects handed to an installation, reduced to their string fields. */
module Kube {
  /** A secret: its name and its string data. */
  datatype Secret = Secret(name: string, stringData: map<string, string>)

  /** The operator's database spec: the secret holding the connection string. */
  datatype DatabaseSpec = DatabaseSpec(secret: string)

  /** The operator's Minio spec for an external bucket. */
  datatype MinioSpec = MinioSpec(externalURL: string, externalBucket: string, secret: string)
}
