/**
 * An installation filestore backed by an S3 bucket: its names, the ordered
 * provisioning and teardown of the IAM user, policy, bucket and access key,
 * and the Minio spec and secret handed to the cluster.
 */
module S3Filestore {
  import opened Wrappers
  import opened AwsConstants
  import opened AwsClient
  import opened Kube

  datatype S3Filestore = S3Filestore(installationID: string, bucketID: string, filestoreSecretName: string)

  const PolicyARNPrefix := "arn:aws:iam::"
  const PolicyARNInfix := ":policy/"
  const ProvisionContext := "unable to provision AWS S3 filestore"
  const TeardownContext := "unable to teardown AWS S3 filestore"
  const AccessKeyField := "accesskey"
  const SecretKeyField := "secretkey"

  /** `NewS3Filestore`: the bucket, the IAM user and the secret are all named after the installation's cloud id. */
  function NewS3Filestore(installationID: string): (f: S3Filestore)
    ensures f.installationID == installationID && f.bucketID == CloudID(installationID)
    ensures f.filestoreSecretName == f.bucketID + "-iam-access-key"
  {
    S3Filestore(installationID, CloudID(installationID), CloudID(installationID) + "-iam-access-key")
  }

  /** Distinct installations get distinct buckets and secrets, and no secret shares its bucket's name. */
  lemma FilestoreNamesDistinct(id1: string, id2: string)
    ensures var f1, f2 := NewS3Filestore(id1), NewS3Filestore(id2);
      && (id1 != id2 ==> f1.bucketID != f2.bucketID && f1.filestoreSecretName != f2.filestoreSecretName)
      && f1.filestoreSecretName != f1.bucketID
  {
    var f1, f2 := NewS3Filestore(id1), NewS3Filestore(id2);
    if CloudID(id1) == CloudID(id2) {
      CloudIDInjective(id1, id2);
    }
    assert f1.filestoreSecretName[..|f1.bucketID|] == f1.bucketID;
    assert f2.filestoreSecretName[..|f2.bucketID|] == f2.bucketID;
  }

  /** The ARN of the bucket's IAM policy in the account of the IAM user. */
  function PolicyARN(accountID: string, bucketID: string): string
  {
    PolicyARNPrefix + accountID + PolicyARNInfix + bucketID
  }

  /** The policy ARN names the account and, after the policy marker, the bucket. */
  lemma PolicyARNFormat(accountID: string, bucketID: string)
    ensures var r := PolicyARN(accountID, bucketID);
      && |r| == |PolicyARNPrefix| + |accountID| + |PolicyARNInfix| + |bucketID|
      && r[..|PolicyARNPrefix|] == PolicyARNPrefix
      && r[|PolicyARNPrefix|..|PolicyARNPrefix| + |accountID|] == accountID
      && r[|PolicyARNPrefix| + |accountID|..|r| - |bucketID|] == PolicyARNInfix
      && r[|r| - |bucketID|..] == bucketID
  {
  }

  /** The calls provisioning makes, in order, once the IAM user's account is known. */
  function ProvisionCalls(bucketID: string, policyARN: string, key: AccessKey): seq<Call>
  {
    [Call.EnsureIAMUserCreated(bucketID)] + (PolicyCalls(bucketID, policyARN) + AccessKeyCalls(bucketID, key))
  }

  /** The policy is created and attached to the user, then the bucket is created. */
  function PolicyCalls(bucketID: string, policyARN: string): seq<Call>
  {
    [Call.EnsureIAMPolicyCreated(bucketID, policyARN), Call.EnsureIAMPolicyAttached(bucketID, policyARN),
     Call.EnsureS3BucketCreated(bucketID)]
  }

  /** An access key is created, then stored as the user's secret. */
  function AccessKeyCalls(bucketID: string, key: AccessKey): seq<Call>
  {
    [Call.EnsureIAMAccessKeyCreated(bucketID), Call.EnsureIAMAccessKeySecretCreated(bucketID, key)]
  }

  /** The calls teardown makes, in order; the bucket is deleted only when data is not kept. */
  function TeardownCalls(bucketID: string, keepData: bool): seq<Call>
  {
    [Call.EnsureIAMUserDeleted(bucketID), Call.EnsureIAMAccessKeySecretDeleted(bucketID)]
    + (if keepData then [] else [Call.EnsureS3BucketDeleted(bucketID)])
  }

  /**
   * `s3FilestoreProvision`: user, then the policy named by the user's account,
   * its attachment, the bucket, an access key and the secret storing it; the
   * first error ends the sequence and is returned as it is.
   */
  method S3FilestoreProvision(f: S3Filestore, a: Client) returns (err: Option<Error>)
    modifies a`trace, a`accessKeys
    ensures var user := Call.EnsureIAMUserCreated(f.bucketID);
      user in a.failing ==> err == Some(ApiError(user)) && a.trace == old(a.trace) + [user]
    ensures var user := Call.EnsureIAMUserCreated(f.bucketID);
      user !in a.failing && a.userAccountID.None? ==>
        err == Some(ArnParseError(f.bucketID)) && a.trace == old(a.trace) + [user]
    ensures a.userAccountID.Some? ==>
      var calls := ProvisionCalls(f.bucketID, PolicyARN(a.userAccountID.value, f.bucketID), a.generatedKey);
      && a.trace == old(a.trace) + UpToFailure(calls, a.failing)
      && (err.None? <==> NoneFail(calls, a.failing))
    ensures err.None? ==> a.accessKeys == old(a.accessKeys)[f.bucketID := a.generatedKey]
    ensures err.Some? ==> a.accessKeys == old(a.accessKeys)
  {
    var user := a.EnsureIAMUserCreated(f.bucketID);
    if user.Failure? {
      return Some(user.error);
    }
    if user.value.accountID.None? {
      return Some(ArnParseError(user.value.userName));
    }
    var rest := PolicyCalls(f.bucketID, PolicyARN(a.userAccountID.value, f.bucketID)) + AccessKeyCalls(f.bucketID, a.generatedKey);
    var first := [Call.EnsureIAMUserCreated(f.bucketID)];
    assert NoneFail(first, a.failing);
    UpToFailureAppend(first, rest, a.failing);
    NoneFailAppend(first, rest, a.failing);
    err := ProvisionUserResources(f, user.value.accountID.value, a);
  }

  /** Everything after the IAM user: the policy, its attachment, the bucket and the access key. */
  method ProvisionUserResources(f: S3Filestore, accountID: string, a: Client) returns (err: Option<Error>)
    modifies a`trace, a`accessKeys
    ensures var calls := PolicyCalls(f.bucketID, PolicyARN(accountID, f.bucketID)) + AccessKeyCalls(f.bucketID, a.generatedKey);
      && a.trace == old(a.trace) + UpToFailure(calls, a.failing)
      && (err.None? <==> NoneFail(calls, a.failing))
    ensures err.None? ==> a.accessKeys == old(a.accessKeys)[f.bucketID := a.generatedKey]
    ensures err.Some? ==> a.accessKeys == old(a.accessKeys)
  {
    var policy := PolicyCalls(f.bucketID, PolicyARN(accountID, f.bucketID));
    var keys := AccessKeyCalls(f.bucketID, a.generatedKey);
    err := a.Steps(policy);
    UpToFailureAppend(policy, keys, a.failing);
    NoneFailAppend(policy, keys, a.failing);
    if err.Some? {
      return;
    }
    UpToFailureAll(policy, a.failing);
    err := ProvisionAccessKey(f, a);
  }

  /** The access key of the bucket's user, created and then stored as a secret; the first error ends the sequence. */
  method ProvisionAccessKey(f: S3Filestore, a: Client) returns (err: Option<Error>)
    modifies a`trace, a`accessKeys
    ensures a.trace == old(a.trace) + UpToFailure(AccessKeyCalls(f.bucketID, a.generatedKey), a.failing)
    ensures err.None? <==> NoneFail(AccessKeyCalls(f.bucketID, a.generatedKey), a.failing)
    ensures err.None? ==> a.accessKeys == old(a.accessKeys)[f.bucketID := a.generatedKey]
    ensures err.Some? ==> a.accessKeys == old(a.accessKeys)
  {
    var ak := a.EnsureIAMAccessKeyCreated(f.bucketID);
    if ak.Failure? {
      return Some(ak.error);
    }
    err := a.EnsureIAMAccessKeySecretCreated(f.bucketID, ak.value);
    assert UpToFailure([Call.EnsureIAMAccessKeySecretCreated(f.bucketID, ak.value)], a.failing)
           == [Call.EnsureIAMAccessKeySecretCreated(f.bucketID, ak.value)];
  }

  /**
   * `s3FilestoreTeardown`: deletes the IAM user, then the access-key secret,
   * then the bucket unless data is kept; the first error ends the sequence.
   */
  method S3FilestoreTeardown(f: S3Filestore, keepData: bool, a: Client) returns (err: Option<Error>)
    modifies a`trace, a`accessKeys
    ensures a.trace == old(a.trace) + UpToFailure(TeardownCalls(f.bucketID, keepData), a.failing)
    ensures err.None? <==> forall c :: c in TeardownCalls(f.bucketID, keepData) ==> c !in a.failing
    ensures err.None? ==> a.accessKeys == old(a.accessKeys) - {f.bucketID}
    ensures err.None? && !keepData ==> Call.EnsureS3BucketDeleted(f.bucketID) in a.trace[|old(a.trace)|..]
    ensures keepData ==> forall c :: c in a.trace[|old(a.trace)|..] ==> !c.EnsureS3BucketDeleted?
  {
    var calls := TeardownCalls(f.bucketID, keepData);
    err := a.Step(Call.EnsureIAMUserDeleted(f.bucketID));
    if err.Some? {
      UpToFailureAt(calls, a.failing, 0);
      return;
    }
    err := a.EnsureIAMAccessKeySecretDeleted(f.bucketID);
    if err.Some? {
      UpToFailureAt(calls, a.failing, 1);
      assert keepData ==> calls[..2] == calls;
      return;
    }
    if !keepData {
      err := a.Step(Call.EnsureS3BucketDeleted(f.bucketID));
      if err.Some? {
        UpToFailureAt(calls, a.failing, 2);
        assert calls[..3] == calls;
        return;
      }
    }
    UpToFailureAll(calls, a.failing);
  }

  /** `Provision`: succeeds exactly when `s3FilestoreProvision` does. */
  method Provision(f: S3Filestore, a: Client) returns (err: Option<Error>)
    modifies a`trace, a`accessKeys
    ensures err.None? <==>
              a.userAccountID.Some?
              && NoneFail(ProvisionCalls(f.bucketID, PolicyARN(a.userAccountID.value, f.bucketID), a.generatedKey), a.failing)
    ensures err.Some? ==> err.value.Wrapped? && err.value.context == ProvisionContext
    ensures err.None? ==> a.accessKeys == old(a.accessKeys)[f.bucketID := a.generatedKey]
  {
    var e := S3FilestoreProvision(f, a);
    if e.Some? {
      return Some(Wrapped(ProvisionContext, e.value));
    }
    err := None;
  }

  /** `Teardown`: succeeds exactly when `s3FilestoreTeardown` does. */
  method Teardown(f: S3Filestore, keepData: bool, a: Client) returns (err: Option<Error>)
    modifies a`trace, a`accessKeys
    ensures err.None? <==> forall c :: c in TeardownCalls(f.bucketID, keepData) ==> c !in a.failing
    ensures err.Some? ==> err.value.Wrapped? && err.value.context == TeardownContext
    ensures err.None? ==> a.accessKeys == old(a.accessKeys) - {f.bucketID}
  {
    var e := S3FilestoreTeardown(f, keepData, a);
    if e.Some? {
      return Some(Wrapped(TeardownContext, e.value));
    }
    err := None;
  }

  /**
   * `GenerateFilestoreSpecAndSecret`: the spec points at the bucket through S3
   * and names the secret, which carries the access key stored for the bucket's user.
   */
  method GenerateFilestoreSpecAndSecret(f: S3Filestore, a: Client) returns (r: Result<(MinioSpec, Secret), Error>)
    modifies a`trace
    ensures a.trace == old(a.trace) + [Call.GetIAMAccessKey(f.bucketID)]
    ensures r.Success? <==> Call.GetIAMAccessKey(f.bucketID) !in a.failing && f.bucketID in a.accessKeys
    ensures r.Success? ==>
      var (spec, secret) := r.value;
      && spec == MinioSpec(S3URL, f.bucketID, f.filestoreSecretName)
      && secret.name == spec.secret
      && secret.stringData == map[AccessKeyField := a.accessKeys[f.bucketID].id,
                                  SecretKeyField := a.accessKeys[f.bucketID].secret]
  {
    var iamAccessKey := a.GetIAMAccessKey(f.bucketID);
    if iamAccessKey.Failure? {
      return Failure(iamAccessKey.error);
    }
    var filestoreSecret := Secret(f.filestoreSecretName,
                                  map[AccessKeyField := iamAccessKey.value.id, SecretKeyField := iamAccessKey.value.secret]);
    var filestoreSpec := MinioSpec(S3URL, f.bucketID, f.filestoreSecretName);
    r := Success((filestoreSpec, filestoreSecret));
  }
}
