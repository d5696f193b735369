/** The Kubernetes objects the operator reads and writes (api/v1alpha1, COSI objects, Secrets). */
module Kube {
  import opened Text
  import opened Lifecycle

  datatype Key = Key(namespace: string, name: string)

  // "<namespace>-<name>": the account id, and the default bucket name before lower-casing.
  function Joined(k: Key): string { k.namespace + "-" + k.name }

  datatype ClaimSpec = ClaimSpec(
    className: string,
    bucketName: string,
    quotaBytes: Option<int>,          // None: no quota, or one that AsInt64 cannot represent
    accessType: string,
    lifecycleRules: seq<ClaimRule>,
    replicationTarget: Option<string>)

  // The phases and condition reasons the controller writes, by name. NoPhase is the empty string.
  datatype Phase = NoPhase | Pending | Failed | Bound

  datatype Reason =
    | Provisioning | BucketProvisioned | BucketClassLookupFailed | UnsupportedDriver
    | CreateBucketFailed | ConfigureBucketFailed | GrantAccessFailed | ReconcileSecretFailed
    | MinioCredentialSecretInvalid | AwsCredentialSecretInvalid | UnsupportedBackend

  // The Ready condition; the messages of conditions are left out.
  datatype Condition = Condition(isTrue: bool, observedGeneration: nat, reason: Reason)

  datatype ClaimStatus = ClaimStatus(
    phase: Phase,
    bucketReady: bool,
    ready: Option<Condition>,
    bucketName: string,
    endpoint: string,
    secretReference: Option<Key>)

  const EMPTY_STATUS := ClaimStatus(NoPhase, false, None, "", "", None)

  // "objectstorage.k8s.io/finalizer", "cosi.objectstorage.k8s.io/bucketaccess-finalizer", and anybody else's.
  datatype Finalizer = ClaimFinalizer | AccessFinalizer | Foreign(name: string)

  datatype Claim = Claim(
    uid: nat,
    resourceVersion: nat,
    generation: nat,
    deleting: bool,
    finalizers: set<Finalizer>,
    spec: ClaimSpec,
    status: ClaimStatus)

  const EMPTY_SPEC := ClaimSpec("", "", None, "", [], None)
  const EMPTY_CLAIM := Claim(0, 0, 0, false, {}, EMPTY_SPEC, EMPTY_STATUS)

  datatype BucketClass = BucketClass(
    driverName: string,
    backend: string,
    deletionPolicy: string,
    objectLockingEnabled: bool,
    parameters: map<string, string>)

  const EMPTY_CLASS := BucketClass("", "", "", false, map[])

  // The entries of a Secret that the operator knows, and any others.
  datatype Entry = AccessKeyID | AccessSecretKey | BucketName | Endpoint | BucketInfo | Other(name: string)

  // `owner` is the uid of the controller reference. The BucketInfo entry of a Secret is kept as the access
  // key it carries: its JSON text is not modelled.
  datatype Secret = Secret(resourceVersion: nat, owner: Option<nat>, data: map<Entry, string>)

  datatype Access = Access(
    uid: nat,
    resourceVersion: nat,
    deleting: bool,
    finalizers: set<Finalizer>,
    claimName: string,
    secretName: string,
    granted: bool,
    accountID: string)

  const EMPTY_ACCESS := Access(0, 0, false, {}, "", "", false, "")

  datatype CosiBucket = CosiBucket(resourceVersion: nat, deletionPolicy: string, bucketReady: bool, bucketID: string)

  const DRIVER_NAME := "k8s-s3-bucket-operator"

  predicate Handled(bc: BucketClass) { bc.driverName == DRIVER_NAME }

  predicate Deletes(deletionPolicy: string) { deletionPolicy == "Delete" }

  function Lookup<K>(data: map<K, string>, key: K): string {
    if key in data then data[key] else ""
  }

  predicate IsBound(s: ClaimStatus) {
    s.ready.Some? && s.ready.value.isTrue && s.phase == Bound
  }

  // Phase, BucketReady and the Ready condition tell the same story, and a bound claim is fully described.
  predicate Coherent(s: ClaimStatus) {
    && (s.phase == Bound <==> s.bucketReady)
    && (s.phase == Bound <==> s.ready.Some? && s.ready.value.isTrue)
    && (s.phase == Bound ==> s.bucketName != "" && s.endpoint != "" && s.secretReference.Some?)
  }
}
