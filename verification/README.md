# A model of the S3 bucket operator

This project models the control plane of the operator and proves what its users rely on.

The operator serves `BucketClaim` objects: it creates a bucket on a storage backend, configures it, grants an account
access to it, publishes the credentials in a Secret and marks the claim Bound. When a claim is deleted, a finalizer
revokes the access and, under the policy Delete, removes the bucket. A second reconciler serves `BucketAccess` objects
on buckets that claims have bound, and a COSI driver serves bucket and access requests of its own.

## How the model is built

- `Cluster` is the world outside the operator: the Kubernetes API store (claims, classes, Secrets, BucketAccess objects
  and COSI Buckets, with optimistic concurrency, generations, uids and finalizers) and a MinIO deployment (`Minio`:
  buckets, users, policies, attachments). One call is one step. Every call can be served, lost before it takes effect,
  or served with its reply lost.
- `ClaimMachine`, `AccessMachine` and `DriverMachine` are the three handlers, one call per step, with every branch of the
  program between two calls. `System` interleaves any number of their activations with each other, with crashes of the
  process, and with users who create, edit, delete and recreate objects at any time.
- `MinioClient`, `Provisioner`, `ClaimController`, `AccessController` and `DriverServer` are the handlers in the order of
  the program, as methods on a client that they mutate. Each is proved to do exactly what its machine does when it runs
  alone, so what is proved of the machines is proved of them.
- `ClaimFlow` reads the claim machine's transitions backwards; `ClaimInvariant` holds what a claim's thread may rely on
  while others write; `RecordedName` the one bucket name a status records; `Memos` observes what each activation has
  been told and what it created, by name.
- `BucketPolicy`, `IamAccounts` and `Lifecycle` model the AWS provider; `Resolver` and `ResolverRuns` the provider cache;
  `CosiNames`, `Errors`, `Limits`, `Leftovers`, `AwsRegrant` and `SlippedEdits` names, error classes and the exact ends of
  some promises.

`dafny verify dfyconfig.toml` checks everything.

## Model

| member | source | states |
|---|---|---|
| ClaimController.BucketClaimReconciler.Reconcile | internal/controller/bucketclaim_controller.go:61-335 | one reconcile, call by call and through every early return, has the world, result and number of calls that the claim machine reaches alone, for every fault of every call |
| ClaimController.BucketClaimReconciler.MergeClaimStatus | internal/controller/bucketclaim_controller.go:471-484 | a note never touches a claim that is gone, being deleted or bound, and its own failure does not change what the reconcile does next |
| ClaimController.BucketClaimReconciler.ServeClaim | internal/controller/bucketclaim_controller.go:131-203 | class look-up, driver check, provider resolution and the reading of existing keys follow the machine, missing class and foreign driver included |
| ClaimController.BucketClaimReconciler.ReportProvider | internal/controller/bucketclaim_controller.go:157-189 | every way in which the provider cannot be resolved ends in its note and its retry decision |
| ClaimController.BucketClaimReconciler.ReadKeysAndProvision | internal/controller/bucketclaim_controller.go:194-258 | keys found in the credentials Secret are asked for again, others are derived; provisioning then runs its whole script or stops at the first failure that counts |
| ClaimController.BucketClaimReconciler.ReportFailure | internal/controller/bucketclaim_controller.go:204-258 | a failed operation ends as a retry in 15 seconds when it is transient and under the reason of its operation when it is not |
| ClaimController.BucketClaimReconciler.Publish | internal/controller/bucketclaim_controller.go:260-289 | the Secret is created or updated under the claim's ownership, and another owner's Secret is refused |
| ClaimController.BucketClaimReconciler.UpdateStatus | internal/controller/bucketclaim_controller.go:291-334 | the status is written on a second read of the claim; the COSI Bucket follows only after that write succeeded |
| ClaimController.BucketClaimReconciler.EnsureCosiBucket | internal/controller/bucketclaim_controller.go:337-389 | the COSI Bucket is created with the class's deletion policy, or only its status is refreshed |
| ClaimController.BucketClaimReconciler.FinalizeAndRelease | internal/controller/bucketclaim_controller.go:82-102 | the finalizer is taken away only after finalization succeeded or was skipped for one of the listed reasons |
| ClaimController.BucketClaimReconciler.TearDown | internal/controller/bucketclaim_controller.go:421-429 | access is revoked before the policy decides whether the bucket is deleted |
| Provisioner.CreateBucketAndConfigure | internal/provisioning/provisioning.go:60-161 | the bucket name and the ordered effects, with the operation that a failure is reported under, are those of the provisioning script |
| Provisioner.GrantBucketAccess | internal/provisioning/provisioning.go:163-221 | the grant's three effects in order, and refusal of credentials with a blank part |
| Provisioner.ProvisionBucketAndGrantAccess | internal/provisioning/provisioning.go:27-47 | no access is granted on a bucket whose creation or configuration failed |
| Provisioner.RevokeAccessAndMaybeDeleteBucket | internal/provisioning/provisioning.go:243-271 | both parts of the revocation are tried whatever happens, then the bucket is deleted under Delete and under no other policy |
| MinioClient.CreateBucket | internal/minio/client.go:109-129 | a bucket that exists is left as it is and reported as created |
| MinioClient.DeleteBucket | internal/minio/client.go:153-169 | a bucket that is gone is reported as deleted |
| MinioClient.SetBucketQuota | internal/minio/client.go:132-140 | a quota that is not positive makes no call |
| MinioClient.KeysSettle | internal/minio/client.go:177-184 | a given key is kept, a missing one comes from the account alone, neither is ever blank, and keys that went through the Secret are chosen again, so that a reconcile does not rotate them |
| MinioClient.GrantAccess | internal/minio/client.go:173-220 | user, policy and attachment in this order, stopping at the first refusal |
| MinioClient.RevokeAccess | internal/minio/client.go:223-240 | user, then policy, each tried whatever became of the other |
| Minio.CredentialsAreTrimmed | internal/minio/client.go:244-258 | derived keys are not blank and survive the trimming on their way through the Secret |
| Minio.AccessKeysCollideIff | internal/minio/client.go:244-253 | accounts share the MinIO user exactly when their first twelve alphanumerics agree up to case, or each has none or the word "user" |
| Minio.AccessKeysCollide | internal/minio/client.go:244-253 | the common case: any two accounts that start with the same twelve alphanumerics, as in one long namespace, share the user |
| ClaimFlow.Arrives | internal/controller/bucketclaim_controller.go:61-429 | for every reply, where a reconcile can be next and what it must have read and decided to be there |
| ClaimInvariant.OwnStep | internal/controller/bucketclaim_controller.go:61-335 | each step of a claim's own reconcile keeps what it knows: the snapshots it holds are of this claim, are no newer than the store, and it works only under the finalizer |
| ClaimInvariant.OthersEvolve | internal/controller/bucketclaim_controller.go:104-113 | users and other controllers change a claim only in ways a reconcile under way can bear: versions and generations grow, a spec keeps its generation, deletion is never undone |
| ClaimRuns.StatusIsCoherent | internal/controller/bucketclaim_controller.go:292-318 | in every reachable state phase Bound, bucketReady and Ready=True coincide; a bound claim has a bucket name, an endpoint and a Secret; no claim has observed a generation beyond its own |
| ClaimRuns.BoundIsLatched | internal/controller/bucketclaim_controller.go:439-484 | from every reachable state on, a bound claim stays bound, its observed generation never falls and a recorded bucket name is never cleared |
| Credentials.CredentialsStayValid | internal/controller/bucketclaim_controller.go:194-318 | in every reachable state a bound claim that stays has a Secret with the keys of an existing user, mapped to the policy scoped to the claim's bucket |
| Credentials.ProvisionStep | internal/minio/client.go:173-220 | a provisioning call keeps what earlier ones achieved and achieves what the next one needs, best-effort calls included |
| ManyClaims.AllCredentialsStayValid | internal/controller/bucketclaim_controller.go:194-318 | the same for any number of claims at once, whose reconciles and finalizations interleave freely, when access keys and policy names are pairwise distinct |
| ManyClaims.ApartIff | internal/minio/client.go:192-192 | access keys and policy names are pairwise distinct exactly when the access keys are and no claim's bucket goes on, behind a hyphen, with the beginning of another's account |
| ManyClaims.DefaultNamesApart | internal/provisioning/provisioning.go:79-82 | claims that leave the bucket name to the operator never share a policy name unless they share the access key |
| ManyClaims.RevokesApartStep | internal/provisioning/provisioning.go:250-258 | a revocation works with the recorded bucket name, which is the claim's own, or with a fallback, and removes no other claim's policy |
| ManyClaims.SameLengthApart | internal/minio/client.go:192-192 | accounts of one length never share a policy name, whatever their buckets are called |
| ManyClaims.OrderlyIsUndisputed | internal/controller/bucketclaim_controller.go:421-428 | with distinct access keys and policy names, no claim's reconcile or finalization names another claim's user, policy or Secret |
| FinalizerGuard.FinalizerGuards | internal/controller/bucketclaim_controller.go:83-113 | in every reachable state a claim for which a bucket, user or policy was created carries the finalizer, or lost it for a listed reason to skip, or after the removal of its user and of its policy on the finalization's bucket name was asked for and, under Delete, the bucket of that name was found or made absent |
| Leftovers.NothingCreatedStays | internal/provisioning/provisioning.go:243-271 | under Delete, when finalization works with the name that was provisioned, a claim is let go only with every bucket that was created for it absent and the removal of every user and policy that was created asked for |
| Leftovers.OnlyFinalNameGoes | internal/provisioning/provisioning.go:250-270 | in every reachable state the bucket that a claim's finalization makes disappear is the one its finalization name leads to, so one provisioned under another name stays |
| FinalizerGuard.CreatesUnderHold | internal/controller/bucketclaim_controller.go:104-113 | a call that creates a bucket, user or policy is issued only while the stored claim carries the finalizer |
| RetainSafety.OnlyDeleteAsks | internal/provisioning/provisioning.go:260-270 | in every reachable state, only an activation that was itself answered the policy Delete asks a backend, MinIO or not, to delete a bucket |
| RetainSafety.OnlyDeleteDeletes | internal/cosi/server.go:153-199 | the step in which a bucket disappears belongs to such an activation, of the claim finalizer or of the driver and never of the BucketAccess reconciler |
| RetainSafety.RetainedBucketsStay | internal/controller/bucketclaim_controller.go:391-429 | while no class and no COSI Bucket says Delete, no bucket disappears in any run |
| RetainSafety.GuessNeverDeletes | internal/cosi/server.go:174-189 | the driver's guess of a class from the bucket's name ends the request before any deletion |
| Generations.UpToDateMeansConfigured | internal/controller/bucketclaim_controller.go:117-129 | in every reachable state a bound status rests on a reading of that claim no newer than the generation it shows; up to date on a reading of the current generation, bucket, quota, lifecycle and policy are those of the spec |
| Generations.UpToDateIsLeftAlone | internal/controller/bucketclaim_controller.go:117-129 | a reconcile of such a claim makes one read, no backend call and no write |
| Generations.PublishesSecondRead | internal/controller/bucketclaim_controller.go:292-311 | publishing records the generation of the second read and leaves the backend as it is |
| SlippedEdits.EditSlipsIn | internal/controller/bucketclaim_controller.go:292-313 | from every initial state, for every claim and every edit, a run without faults ends bound and up to date on the edited spec with the server as the old spec asks; bucket, configuration and access are as the edited spec asks exactly when its class is MinIO's, its effective bucket name is the old one and it asks for nothing new |
| SlippedEdits.QuotaIsLost | internal/controller/bucketclaim_controller.go:292-313 | a quota added to a claim on a new bucket is lost in such a run: the bucket has none and the claim is up to date |
| Effects.ScriptReachesGoal | internal/provisioning/provisioning.go:60-208 | the whole script, served, takes any deployment to the state the claim asks for |
| Effects.GoalAbsorbs | internal/minio/client.go:109-129 | any part of provisioning done before, by an attempt that died, changes nothing about the state provisioning ends in |
| Convergence.RetriesConverge | internal/controller/bucketclaim_controller.go:61-335 | for a claim that is not up to date, new or provisioned before and edited since, any series of reconciles disturbed or cut off anywhere, then one without faults, ends with the same backend, Secret, status and finalizers as that one alone |
| Convergence.LostReadKeepsKeysIff | internal/controller/bucketclaim_controller.go:194-202 | a reconcile that cannot read the Secret asks for the same keys as one that can exactly when those in it, if any, are the account's own |
| Restore.FinalizationRestores | internal/controller/bucketclaim_controller.go:391-429 | provisioning with any failures, deletion, and finalization after any number of attempts that died anywhere or met any fault but the loss of a request to revoke give back the server as it was before the claim, and one more reconcile changes nothing |
| Restore.RestoredIff | internal/controller/bucketclaim_controller.go:391-429 | exactly when one attempt in which nothing else fails leaves the server as it was before the claim: the provider is not reported as one to skip, and no request to revoke an existing user or policy is lost |
| Restore.LostRevocationLeaks | internal/minio/client.go:229-236 | whenever the request to remove the user is lost, finalization goes on, lets go of the claim and leaves the user behind |
| Restore.BearableStep | internal/controller/bucketclaim_controller.go:391-429 | after any bearable fault a finalization is still on course, over with the claim held, or over with nothing left behind |
| Limits.NamesAgreeIff | internal/provisioning/provisioning.go:250-256 | exactly when finalization works on the name that was provisioned |
| Limits.CosiBucketIff | internal/controller/bucketclaim_controller.go:322-329 | after the status write the COSI Bucket exists at the end exactly when it did before, or its look-up was answered and its creation arrived |
| Limits.CosiBucketForgotten | internal/controller/bucketclaim_controller.go:124-129 | a COSI Bucket whose creation failed after the status write is never tried again: the claim is bound and every later reconcile does nothing |
| Limits.StoredIffComplete | internal/provisioning/provisioning.go:189-200 | a provider's answer is published exactly when no part of it is blank, and is reported as a failed grant otherwise |
| AwsRegrant.GrantAgain | internal/backend/aws/provider.go:477-485 | for every fault and state of IAM, credentials are published exactly when the grant succeeds with nothing blank and the Secret did not hold both keys already; a claim provisioned again is reported as failed |
| Limits.GrantSparesClaimIff | internal/controller/bucketaccess_controller.go:201-206 | granting a BucketAccess leaves a claim's credentials valid exactly when it touches another user, or the same one with the same secret key and policy, and gives the claim's policy no other bucket |
| Limits.AccessSparesClaimIff | internal/controller/bucketaccess_controller.go:125-140 | revoking a BucketAccess leaves a claim's credentials valid exactly when the two accounts have different access keys |
| AccessController.BucketAccessReconciler.Reconcile | internal/controller/bucketaccess_controller.go:57-172 | one reconcile of a BucketAccess has the world, result and number of calls that the access machine reaches alone, for every fault of every call |
| AccessController.BucketAccessReconciler.Grant | internal/controller/bucketaccess_controller.go:175-187 | access waits for a claim that is ready and has a bucket name |
| AccessController.BucketAccessReconciler.GrantOn | internal/controller/bucketaccess_controller.go:201-206 | the grant is made on the name from the claim's status, for the object's own account |
| AccessController.BucketAccessReconciler.StoreInfo | internal/controller/bucketaccess_controller.go:208-264 | the BucketInfo entry is created or added to the existing Secret before the status says granted |
| AccessController.BucketAccessReconciler.Revoke | internal/controller/bucketaccess_controller.go:86-108 | without a claim the finalizer goes at once; otherwise the name comes from status, spec or key, trimmed and lower-cased |
| AccessController.BucketAccessReconciler.RevokeOn | internal/controller/bucketaccess_controller.go:130-158 | the Secret and the finalizer go only after the revocation did not fail |
| Agreement.RevokedIsWhatWasGranted | internal/controller/bucketaccess_controller.go:86-160 | in every reachable state, a thread that revokes for a BucketAccess removes the very user and policy that were asked for on behalf of this object on this claim |
| RecordedName.NameStep | internal/controller/bucketclaim_controller.go:297-297 | with a fixed effective name, no step of anyone makes a claim's status record another bucket name |
| Agreement.AgreementStep | internal/controller/bucketaccess_controller.go:175-206 | every step of either reconciler, of the driver and of users keeps the recorded grants, the stored key and the claim's recorded bucket name in agreement |
| DriverServer.Server.DriverCreateBucket | internal/cosi/server.go:109-151 | the request's world and answer are those of the driver machine alone, and a success names the bucket that was provisioned and the region it was created in |
| DriverServer.Server.DriverDeleteBucket | internal/cosi/server.go:153-200 | the stored COSI Bucket's policy decides; without it nothing is deleted |
| DriverServer.Server.DriverGrantBucketAccess | internal/cosi/server.go:202-248 | keys given as parameters are used, others derived from the account id; a success answers with that id and with the keys that were granted, none of them blank |
| DriverServer.Server.DriverRevokeBucketAccess | internal/cosi/server.go:250-277 | an id without two nonempty parts is refused before any call; an accepted one is revoked under the id's own spelling |
| DriverServer.SyntheticClassFromParameters | internal/cosi/server.go:279-318 | the loop copies every parameter, and only the region is overlaid |
| DriverRoundTrip.GrantThenRevokeRestores | internal/cosi/server.go:215-276 | a driver grant on unused names, with derived or given keys, and the revocation of the id it returned restore the cluster exactly when that id has no trailing space and a given key is the account's own |
| DriverRoundTrip.AccountIsAccepted | internal/cosi/server.go:257-271 | every id the driver hands out is accepted back, and read as itself without trailing spaces |
| DriverRoundTrip.TrimmedKey | internal/minio/client.go:244-253 | trimming an account does not change its access key |
| CosiNames.DecodeIsTheMatch | internal/cosi/mapper.go:32-39 | decoding finds exactly the regular expression's match, which can only split 36 characters from the end |
| CosiNames.ClassNameRoundTrip | internal/cosi/mapper.go:13-39 | class followed by uid decodes to the class exactly when the class has no newline and no leading space |
| CosiNames.GuessedClassRetains | internal/cosi/server.go:289-303 | a class built without parameters has policy Retain |
| CosiNames.SplitThenJoin | internal/cosi/server.go:257-271 | joining what an accepted id was split into gives the id, and ids are refused exactly when a part is empty |
| CosiNames.JoinThenSplit | internal/cosi/server.go:236-266 | namespace and name come back from the joined id exactly when the namespace has no hyphen, neither is empty and no space is cut off |
| CosiNames.AccountsCollideIff | internal/provisioning/provisioning.go:171-171 | two claims share an account id exactly when one namespace goes on, behind a hyphen, with the beginning of the other's name |
| CosiNames.AccountsApart | internal/provisioning/provisioning.go:171-171 | distinct claims in namespaces without hyphens or of one length never share an account id |
| Resolver.ResolverState.MinioSection | internal/backend/resolve/resolver.go:88-102 | under the lock: a hit needs the version just read, a miss gives and stores what building without a cache gives, a refused build stores nothing |
| Resolver.ResolverState.AwsSection | internal/backend/resolve/resolver.go:171-188 | the same with the composed key and the combined version, a provider that cannot be built included |
| ResolverRuns.RunSection | internal/backend/resolve/resolver.go:88-188 | the critical section of the program, on the resolver's own maps, is the step that the interleaved runs take |
| Resolver.MinioCacheKeyInjective | internal/backend/resolve/resolver.go:88-88 | classes with legal references share a key exactly when they name the same Secret |
| Resolver.AwsCacheKeyInjective | internal/backend/resolve/resolver.go:136-171 | classes share a key exactly when they name the same Secret and the same entry of the same policy object |
| Resolver.CombinedVersionInjective | internal/backend/resolve/resolver.go:177-177 | equal combined versions mean that both objects have equal versions |
| ResolverRuns.CachedResolverRefinesUncached | internal/backend/resolve/resolver.go:66-189 | under every interleaving of calls with updates, deletions and recreations of Secrets and ConfigMaps, a call returns what building without a cache gives for the object versions that this very call read |
| ResolverRuns.ApplyKeepsInv | internal/backend/resolve/resolver.go:78-102 | every step of every call and of users keeps each cache entry equal to what its recorded versions build |
| BucketPolicy.MergePolicyDocuments | internal/backend/aws/provider.go:164-220 | the merged document or the refusal that the specification gives |
| BucketPolicy.MergeJoinsVerdicts | internal/backend/aws/provider.go:139-220 | on every request the merged policy decides the join of the two decisions: explicit deny over allow over implicit deny |
| BucketPolicy.MergeKeepsUserFields | internal/backend/aws/provider.go:200-219 | exactly when a merge succeeds; then a Version is named and every other user field is kept |
| BucketPolicy.TlsGuardrailAlwaysHolds | internal/backend/aws/provider.go:139-162 | whatever document the user adds, plain-text requests to the bucket are denied |
| BucketPolicy.S3Bucket.ConfigureBucketSecurity | internal/backend/aws/provider.go:224-339 | success puts in force every protection asked for and missing parameters ask for it; no failure, even of a call that took effect, takes one away or changes anything to what was not asked for |
| BucketPolicy.HardenThenDeny | internal/backend/aws/provider.go:316-338 | a hardened bucket denies every plain-text request |
| IamAccounts.Iam.GrantAccess | internal/backend/aws/provider.go:446-515 | with any faults: never more than two keys, keys vanish only after a quota refusal, a success means a live new key and the stored policy, supplied keys stay and come back with no endpoint |
| IamAccounts.Iam.RotateKey | internal/backend/aws/provider.go:487-507 | the key loop creates one key the user did not have and deletes only after the quota was exceeded |
| IamAccounts.Iam.RevokeAccess | internal/backend/aws/provider.go:517-547 | with any faults nothing is added and no other user is touched; without faults the result is the specified one |
| IamAccounts.RevokedUserGoneIff | internal/backend/aws/provider.go:517-547 | the user is gone exactly when the deleted keys cover its keys and the policy of this bucket and account was its only one |
| IamAccounts.Iam.GrantThenRevoke | internal/backend/aws/provider.go:446-547 | a first grant and its revocation, one after the other and without faults, leave all of IAM as it was, with created or supplied keys, remembered or not |
| IamAccounts.RegrantIsIdempotent | internal/backend/aws/provider.go:477-485 | granting again with the keys from the Secret changes nothing, and a later revocation removes the same |
| IamAccounts.UserNamesCollideIff | internal/backend/aws/provider.go:418-440 | two legal accounts share an IAM user exactly when they agree, a dot being as good as a hyphen, up to a point behind which neither has anything but dots and hyphens before its 65th character |
| IamAccounts.ShortUserNamesCollideIff | internal/backend/aws/provider.go:418-440 | accounts of at most 64 characters share a user exactly when they differ in nothing but dots against hyphens |
| Lifecycle.BuildConfiguration | internal/provisioning/provisioning.go:116-129 | one rule for each rule of the claim, in order |
| Lifecycle.TranslateForAws | internal/backend/aws/provider.go:379-399 | one AWS rule for each rule, in order, with blank ids and prefixes left out |
| Lifecycle.TranslationMeaning | internal/backend/aws/provider.go:385-399 | a translated rule expires the same objects at the same age exactly for rules that are enabled, fit 32 bits and have no prefix of spaces, or expire nothing |
| Lifecycle.ConfigureForAws | internal/provisioning/provisioning.go:116-138 | end to end, portable rules expire exactly the objects the claim asked for |
| Errors.WrappingKeepsRetryClass | internal/provisioning/errors.go:29-70 | wrapping keeps the retry class for every error, operation and bucket, except exactly when the bucket's name reads like a transient failure and nothing else decides |
| Errors.BucketNameCanMislead | internal/provisioning/errors.go:51-67 | a bucket name for which a permanent refusal is retried |

## Left out

What the model takes as a parameter or does not have:

- Informer caches: every read is answered from the store as it is; stale reads by the controllers are not modelled.
- The AWS provider inside the machines: grant, revocation and deletion are one opaque call each, answered arbitrarily. Its own steps are modelled in IamAccounts, BucketPolicy and Lifecycle; its CreateBucket, which treats an existing bucket as created, is not.
- Provider resolution inside the machines is one call that succeeds or fails in one of the ways the code tells apart; the cache is modelled in Resolver. MinIO is taken to be one deployment, whichever credentials a class names.
- JSON: policy documents are values, parameters that carry JSON or quantities arrive parsed or as invalid, and the BucketInfo entry of a Secret is reduced to its access key.
- SHA-1 in secretForAccount is an arbitrary function into 20 bytes, and the retry classification inside the machines an arbitrary predicate on errors; Errors models the real one.
- Non-ASCII text: case mapping and trimming cover ASCII only, and strings are cut by characters.
- Messages and transition times of conditions, logs and metrics, the retention mode of a class, and all COSI Bucket fields but deletion policy and status.
- The gRPC server, leader election, and two operator processes at once. One reconcile at a time per object is assumed, as the controller runtime guarantees.
- IAM authentication in the driver, and a driver without a Kubernetes client: both return before any effect.
- The upstream COSI controller and sidecar, and anyone else who writes claim status or BucketAccess status, or strips finalizers; users may edit specs and add or remove finalizers of their own.
- Direct changes on the storage server by others, except that buckets fill up and empty. For this reason UpToDateMeansConfigured names what other activations may not touch.
- ClaimController.BucketClaimReconciler.EnsureCosiBucket: of the spec of a COSI Bucket only the deletion policy is modelled, because nothing in the operator reads the other fields.
- Resolver.ResolverState.AwsSection: whether a client library accepts a configuration depends on the configuration alone.
- Status of replication: it is best effort by design, so equal outcomes are equal up to it.

Hypotheses of the theorems over runs, each forced by the code:

- Credentials.CredentialsStayValid: the claim's effective bucket name is fixed and its class is served by MinIO when it is provisioned, nobody else names its user, policy or Secret, and its Secret is collected only when it is gone. ManyClaims derives all of this but the first for claims with distinct names. Minio.AccessKeysCollideIff, CosiNames.AccountsCollideIff, Limits.AccessSparesClaimIff and Limits.GrantSparesClaimIff say which names break it.
- ManyClaims.AllCredentialsStayValid: access keys and policy names are assumed pairwise distinct, as the code gives no injective encoding of namespace and name (ManyClaims.ApartIff says what that comes to); no tenant starts with a credentials Secret; and a finalization that finds no recorded bucket name must not fall back on one under which another claim has its policy. Where Limits.NamesAgreeIff holds, the fallback is the claim's own name and the last point follows from the others (ManyClaims.OwnFallbackSpares).
- Generations.UpToDateMeansConfigured: nobody else reconfigures or removes the claim's bucket or its policy; SlippedEdits.EditSlipsIn shows why the reading must be of the current generation.
- Convergence.RetriesConverge: MinIO only, because an AWS grant with existing keys returns no endpoint and is then rejected (AwsRegrant.GrantAgain); claim, class and other objects are at rest during the attempts. A credentials Secret that is there at the start is the claim's own or nobody's, since another owner's is refused, and the keys in it, if any, are the account's own, since with others an attempt that cannot read it makes another user (Convergence.LostReadKeepsKeysIff).
- Leftovers.NothingCreatedStays: the claim's effective bucket name is fixed, nobody else makes a bucket of that name, and the claim's Secrets tell no other account's key; finalization found the name recorded, or fell back on the same one (Limits.NamesAgreeIff). Leftovers.OnlyFinalNameGoes says what happens otherwise.
- Restore.FinalizationRestores: the claim's names were unused, claim and class stay as they are from provisioning to deletion, and the bucket is empty when it is deleted. No request to revoke is lost and the provider is never reported as one that finalization skips (Restore.RestoredIff). Finalization does not look at the class's driver name again, so neither does the model.
- Agreement.RevokedIsWhatWasGranted: the claim's effective name is fixed, the class is served by MinIO when a grant begins, nobody else writes the Secret of the BucketAccess, and one recreated under the same key refers to the same claim and Secret. Nothing is revoked when the claim is already gone.
- DriverRoundTrip.GrantThenRevokeRestores: both requests are served without faults, and the user and the policy that are granted did not exist before.
- A bound claim need not have a COSI Bucket (Limits.CosiBucketForgotten), so no theorem says that it has one.
