/** Credentials stay valid: the keys in the Secret of a bound claim are those of a user that exists on the
    storage server and is mapped to the policy scoped to the claim's bucket. */
module Credentials {
  import opened Text
  import opened Kube
  import opened Cluster
  import opened Frames
  import opened Provisioning
  import opened ClaimFlow
  import opened ClaimInvariant
  import opened ClaimRuns
  import opened System
  import M = Minio
  import C = ClaimMachine

  // What a claim owns, given the name of its bucket.
  datatype Tenant = Tenant(bucket: string, accessKey: string, secretKey: string, policy: string, endpoint: string,
                           secret: Key)

  function TenantOf(cfg: Config, k: Key, bucket: string): Tenant {
    Tenant(bucket, M.AccessKeyForAccount(Joined(k)), M.SecretForAccount(cfg.digest, Joined(k)),
           M.PolicyName(bucket, Joined(k)), TrimSpace(cfg.endpoint), CredentialsKey(k))
  }

  ghost predicate UserReady(m: M.Server, n: Tenant) { n.accessKey in m.users && m.users[n.accessKey] == n.secretKey }

  ghost predicate PolicyReady(m: M.Server, n: Tenant) {
    n.policy in m.policies && m.policies[n.policy].bucket == n.bucket
  }

  /** The user exists with this secret key, and is mapped to a policy scoped to the bucket. */
  ghost predicate Accessible(m: M.Server, n: Tenant) {
    && UserReady(m, n) && PolicyReady(m, n)
    && n.accessKey in m.attached && m.attached[n.accessKey] == n.policy
  }

  predicate Holds(data: map<Entry, string>, n: Tenant) {
    && Lookup(data, AccessKeyID) == n.accessKey && Lookup(data, AccessSecretKey) == n.secretKey
    && Lookup(data, BucketName) == n.bucket && Lookup(data, Endpoint) == n.endpoint
  }

  /** The claim's Secret tells the tenant's credentials. */
  ghost predicate SecretReady(api: Api, n: Tenant, uid: nat) {
    && n.secret in api.secrets && api.secrets[n.secret].owner == Some(uid)
    && Holds(api.secrets[n.secret].data, n)
  }

  ghost predicate BoundAndStaying(api: Api, k: Key) {
    k in api.claims && IsBound(api.claims[k].status) && !api.claims[k].deleting
  }

  /** The property itself, for one claim in one state. */
  ghost predicate Valid(w: World, k: Key, n: Tenant) {
    BoundAndStaying(w.api, k) ==>
      Accessible(w.minio, n) && SecretReady(w.api, n, w.api.claims[k].uid)
        && w.api.claims[k].status.bucketName == n.bucket
  }

  /* The provisioning script of a tenant, from any point on */

  function AttachPart(n: Tenant): Script { Then(AttachPolicy(n.policy, n.accessKey), End) }

  predicate PolicyPart(n: Tenant, s: Script) {
    s.Then? && s.call.AddPolicy? && s.call.policyName == n.policy && s.call.policy.bucket == n.bucket
      && s.rest == AttachPart(n)
  }

  predicate UserPart(n: Tenant, s: Script) {
    s.Then? && s.call == AddUser(n.accessKey, n.secretKey) && PolicyPart(n, s.rest)
  }

  predicate Configures(call: Call, b: string) {
    (call.BucketExists? || call.MakeBucket? || call.SetQuota? || call.SetLifecycle? || call.SetReplication?)
      && call.b == b
  }

  predicate BucketPart(n: Tenant, s: Script) {
    s.Then? && (UserPart(n, s) || (Configures(s.call, n.bucket) && BucketPart(n, s.rest)))
  }

  predicate OnScript(n: Tenant, s: Script) { BucketPart(n, s) || PolicyPart(n, s) || s == AttachPart(n) }

  lemma ScriptOfTenant(cfg: Config, k: Key, c: Claim, bc: BucketClass, creds: Creds)
    requires UsesMinio(bc)
    requires var n := TenantOf(cfg, k, creds.bucket); creds.accessKey == n.accessKey && creds.secretKey == n.secretKey
    ensures BucketPart(TenantOf(cfg, k, creds.bucket), C.ProvisionScript(k, c, bc, creds))
  {
    hide UsesMinio, M.AccessKeyForAccount, M.SecretForAccount, M.PolicyName, EqualFold, Region, Rules, Joined;
    var n := TenantOf(cfg, k, creds.bucket);
    var b, spec := creds.bucket, c.spec;
    var grant := GrantScript(b, Joined(k), spec.accessType, creds.accessKey, creds.secretKey);
    assert UserPart(n, grant);
    hide GrantScript, UserPart, TenantOf;
    assert BucketPart(n, ReplicationScript(b, spec, grant));
    assert BucketPart(n, LifecycleScript(b, spec, grant));
    assert BucketPart(n, QuotaScript(b, spec, grant));
  }

  lemma StaysOnScript(n: Tenant, call: BackendCall, rest: Script, r: Reply)
    requires OnScript(n, Then(call, rest))
    ensures Advance(call, rest, r).Goes? && Advance(call, rest, r).todo.Then? ==>
              OnScript(n, Advance(call, rest, r).todo)
  {
    hide CallError, OperationOf;
    if rest.Then? && Configures(call, n.bucket) {
      assert BucketPart(n, rest);
      if rest.call.MakeBucket? { assert BucketPart(n, rest.rest); }
    }
  }

  /* What a thread has achieved when it is about to issue a call */

  ghost predicate ReadyFor(m: M.Server, n: Tenant, call: Call) {
    && (call.AddPolicy? ==> UserReady(m, n))
    && (call.AttachPolicy? ==> UserReady(m, n) && PolicyReady(m, n))
  }

  function CredsOf(n: Tenant, endpoint: string): Creds { Creds(n.bucket, n.accessKey, n.secretKey, endpoint) }

  // The local variables of a thread that provisions.
  predicate OwnNames(cfg: Config, n: Tenant, t: C.Thread) {
    && (t.pc.Provision? ==> t.creds == CredsOf(n, cfg.endpoint) && OnScript(n, Then(t.pc.call, t.pc.rest)))
    && (Publishing(t.pc) ==> t.creds == CredsOf(n, n.endpoint))
    && (t.pc.StoreSecret? ==> Holds(t.pc.secret.data, n) && t.pc.secret.owner == Some(t.claim.uid))
  }

  predicate Published(pc: C.Pc) { pc.Refetch? || pc.StoreStatus? || pc.FetchCosi? || pc.StoreCosi? }

  // What it has achieved.
  ghost predicate Achieved(w: World, n: Tenant, t: C.Thread) {
    && (t.pc.Provision? ==> ReadyFor(w.minio, n, t.pc.call))
    && (Publishing(t.pc) ==> Accessible(w.minio, n))
    && (Published(t.pc) ==> SecretReady(w.api, n, t.claim.uid))
  }

  // A credentials Secret, whoever's, tells the account's own keys.
  ghost predicate OwnSecret(api: Api, n: Tenant) {
    n.secret in api.secrets ==>
      Lookup(api.secrets[n.secret].data, AccessKeyID) == n.accessKey
        && Lookup(api.secrets[n.secret].data, AccessSecretKey) == n.secretKey
  }

  ghost predicate TenantFine(cfg: Config, w: World, k: Key, n: Tenant, t: C.Thread) {
    Valid(w, k, n) && OwnSecret(w.api, n) && OwnNames(cfg, n, t) && Achieved(w, n, t)
  }

  /* Everybody else */

  // A call that leaves a tenant's user, policy and Secret alone.
  predicate Respects(call: Call, n: Tenant) {
    match call
    case AddUser(ak, _) => ak != n.accessKey
    case AttachPolicy(_, ak) => ak != n.accessKey
    case RemoveUser(ak) => ak != n.accessKey
    case AddPolicy(policy, _) => policy != n.policy
    case RemovePolicy(policy) => policy != n.policy
    case CreateSecret(k, _) => k != n.secret
    case UpdateSecret(k, _) => k != n.secret
    case DeleteSecret(k) => k != n.secret
    case _ => true
  }

  ghost predicate SameAccess(a: M.Server, b: M.Server, n: Tenant) {
    && (n.accessKey in a.users ==> n.accessKey in b.users && a.users[n.accessKey] == b.users[n.accessKey])
    && (n.policy in a.policies ==> n.policy in b.policies && a.policies[n.policy] == b.policies[n.policy])
    && (n.accessKey in a.attached ==> n.accessKey in b.attached && a.attached[n.accessKey] == b.attached[n.accessKey])
  }

  ghost predicate SameSecret(a: Api, b: Api, n: Tenant) {
    (n.secret in a.secrets <==> n.secret in b.secrets)
      && (n.secret in a.secrets ==> a.secrets[n.secret] == b.secrets[n.secret])
  }

  lemma RespectedEffect(m: M.Server, call: Call, n: Tenant)
    requires OnMinio(call) && Respects(call, n)
    ensures SameAccess(m, ServeMinio(m, call).0, n)
  {
    if call.AddUser? || call.AddPolicy? || call.AttachPolicy? || call.RemoveUser? || call.RemovePolicy? { }
    else { BucketsOnly(m, call); hide ServeMinio; }
  }

  lemma BucketsOnly(m: M.Server, call: Call)
    requires OnMinio(call) && !call.AddUser? && !call.AddPolicy? && !call.AttachPolicy? && !call.RemoveUser?
    requires !call.RemovePolicy?
    ensures var m' := ServeMinio(m, call).0;
            m'.users == m.users && m'.policies == m.policies && m'.attached == m.attached
  {
  }

  lemma RespectedSecrets(api: Api, call: Call, n: Tenant)
    requires OnSecrets(call) && Respects(call, n)
    ensures SameSecret(api, ServeSecrets(api, call).0, n)
  {
  }

  lemma Respected(w: World, call: Call, c: Choice, n: Tenant)
    requires Respects(call, n)
    ensures var w' := Serve(w, call, c).0; SameAccess(w.minio, w'.minio, n) && SameSecret(w.api, w'.api, n)
  {
    hide Serve, Perform, Respects, ServeMinio, ServeSecrets;
    Frame(w, call, c);
    ServeWorld(w, call, c);
    if OnMinio(call) { RespectedEffect(w.minio, call, n); Performs(w, call, c); }
    if OnSecrets(call) { RespectedSecrets(w.api, call, n); Performs(w, call, c); }
  }

  // What is written down about a tenant outlives everything that others do to the claim and the backend.
  lemma OthersLeaveFine(cfg: Config, w: World, w': World, k: Key, n: Tenant, t: C.Thread)
    requires TenantFine(cfg, w, k, n, t)
    requires SameAccess(w.minio, w'.minio, n) && SameSecret(w.api, w'.api, n)
    requires Evolves(w.api, w'.api, k) && Undisturbed(w.api, w'.api, k)
    ensures TenantFine(cfg, w', k, n, t)
  {
    hide OwnNames;
  }

  // Garbage collection takes the Secret of a claim that is gone.
  lemma CollectionLeavesFine(cfg: Config, w: World, k: Key, n: Tenant, t: C.Thread)
    requires TenantFine(cfg, w, k, n, t) && Knows(w.api, k, t)
    requires n.secret in w.api.secrets && k in w.api.claims ==>
               w.api.secrets[n.secret].owner != Some(w.api.claims[k].uid)
    ensures TenantFine(cfg, w.(api := w.api.(secrets := w.api.secrets - {n.secret})), k, n, t)
  {
    hide OwnNames, IsBound, Snapshot;
  }

  /* A tenant's own thread: provisioning */

  ghost predicate Gains(a: M.Server, b: M.Server, n: Tenant) {
    && (UserReady(a, n) ==> UserReady(b, n)) && (PolicyReady(a, n) ==> PolicyReady(b, n))
        && (Accessible(a, n) ==> Accessible(b, n))
  }

  ghost predicate ReadyForRest(m: M.Server, n: Tenant, todo: Script) {
    if todo.Then? then ReadyFor(m, n, todo.call) else Accessible(m, n)
  }

  lemma ProvisionEffect(m: M.Server, n: Tenant, call: BackendCall, rest: Script)
    requires OnScript(n, Then(call, rest)) && ReadyFor(m, n, call)
    ensures OnMinio(call)
    ensures var (m', r) := ServeMinio(m, call);
            Gains(m, m', n) && (!r.Refused? && Advance(call, rest, r).Goes? ==>
                                  ReadyForRest(m', n, Advance(call, rest, r).todo))
  {
    hide CallError, OperationOf;
    if Configures(call, n.bucket) {
      assert BucketPart(n, rest);
      if rest.call.MakeBucket? { assert BucketPart(n, rest.rest); }
    }
  }

  lemma BestEffortIsEarly(m: M.Server, n: Tenant, call: BackendCall, rest: Script)
    requires OnScript(n, Then(call, rest)) && BestEffort(call)
    ensures ReadyForRest(m, n, rest)
  {
    assert BucketPart(n, rest);
  }

  lemma ProvisionStep(w: World, n: Tenant, call: BackendCall, rest: Script, c: Choice)
    requires OnScript(n, Then(call, rest)) && ReadyFor(w.minio, n, call)
    ensures var (w', r) := Serve(w, call, c);
            && Gains(w.minio, w'.minio, n) && w'.api == w.api
            && (Advance(call, rest, r).Goes? ==> ReadyForRest(w'.minio, n, Advance(call, rest, r).todo))
  {
    ProvisionEffect(w.minio, n, call, rest);
    ServeReply(w, call, c);
    ServeWorld(w, call, c);
    Performs(w, call, c);
    if BestEffort(call) {
      BestEffortIsEarly(w.minio, n, call, rest);
      BestEffortIsEarly(Serve(w, call, c).0.minio, n, call, rest);
    }
    hide Serve, Perform, ServeMinio, OnScript, ReadyFor, CallError, OperationOf, Skip, UserReady, PolicyReady,
         Accessible, ReadyForRest, BestEffort;
  }

  /* A tenant's own thread: every other call */

  lemma DerivedCreds(cfg: Config, k: Key, c: Claim, bc: BucketClass, data: map<Entry, string>)
    requires var n := TenantOf(cfg, k, EffectiveBucketName(k, c.spec, bc));
             data == map[] || (Lookup(data, AccessKeyID) == n.accessKey && Lookup(data, AccessSecretKey) == n.secretKey)
    ensures C.ChosenCreds(cfg, k, c, bc, data)
            == CredsOf(TenantOf(cfg, k, EffectiveBucketName(k, c.spec, bc)), cfg.endpoint)
  {
    M.CredentialsAreTrimmed(cfg.digest, Joined(k));
    TrimSpaceTrimmed("");
    hide EffectiveBucketName, Joined, M.AccessKeyForAccount, M.SecretForAccount, M.PolicyName;
  }

  lemma TrimmedTenant(cfg: Config, k: Key, bucket: string)
    ensures TrimmedCreds(CredsOf(TenantOf(cfg, k, bucket), cfg.endpoint))
            == CredsOf(TenantOf(cfg, k, bucket), TenantOf(cfg, k, bucket).endpoint)
  {
    M.CredentialsAreTrimmed(cfg.digest, Joined(k));
    hide TrimSpace, Joined, M.AccessKeyForAccount, M.SecretForAccount, M.PolicyName;
  }

  // The reply about the credentials Secret tells the account's keys, or nothing.
  ghost predicate HonestSecret(n: Tenant, t: C.Thread, r: Reply) {
    t.pc.ReadKeys? && r.SecretIs? ==>
      Lookup(r.secret.data, AccessKeyID) == n.accessKey && Lookup(r.secret.data, AccessSecretKey) == n.secretKey
  }

  // When provisioning begins, the claim's bucket has its fixed name and the class is served by MinIO.
  predicate NameFixed(k: Key, bucket: string, t: C.Thread) {
    t.pc.ReadKeys? ==> EffectiveBucketName(k, t.claim.spec, t.bc) == bucket && UsesMinio(t.bc)
  }

  lemma BeginsOwn(cfg: Config, k: Key, bucket: string, t: C.Thread, r: Reply, next: C.Thread)
    requires HonestSecret(TenantOf(cfg, k, bucket), t, r) && NameFixed(k, bucket, t)
    requires t.pc.ReadKeys? && next.pc.Provision? && Arrival(cfg, k, t, r, next)
    ensures OwnNames(cfg, TenantOf(cfg, k, bucket), next)
  {
    hide TenantOf, BucketPart, Advance, C.ProvisionScript, C.ChosenCreds, EffectiveBucketName, UsesMinio;
    DerivedCreds(cfg, k, t.claim, t.bc, if r.SecretIs? then r.secret.data else map[]);
    BucketOfTenant(cfg, k, bucket);
    ScriptOfTenant(cfg, k, t.claim, t.bc, next.creds);
  }

  lemma BucketOfTenant(cfg: Config, k: Key, bucket: string)
    ensures TenantOf(cfg, k, bucket).bucket == bucket
  {
  }

  lemma StaysOwn(cfg: Config, k: Key, bucket: string, t: C.Thread, r: Reply, next: C.Thread)
    requires OwnNames(cfg, TenantOf(cfg, k, bucket), t) && HonestSecret(TenantOf(cfg, k, bucket), t, r)
    requires NameFixed(k, bucket, t) && Arrival(cfg, k, t, r, next) && (t.pc.Provision? ==> !r.Granted?)
    ensures OwnNames(cfg, TenantOf(cfg, k, bucket), next)
  {
    hide TenantOf, OnScript, Advance, StartingCreds, C.ProvisionScript, TrimmedCreds, EffectiveBucketName, UsesMinio,
         Begins, C.Destruction, C.UpToDate, Complete, C.CredentialData, HonestSecret, NameFixed, IsBound, Handled,
         TrimSpace;
    var n := TenantOf(cfg, k, bucket);
    if next.pc.Provision? && t.pc.ReadKeys? { BeginsOwn(cfg, k, bucket, t, r, next); }
    else if next.pc.Provision? { StaysOnScript(n, t.pc.call, t.pc.rest, r); }
    else if next.pc.FetchSecret? { TrimmedTenant(cfg, k, bucket); }
    else if next.pc.StoreSecret? { DataOfTenant(n, t.creds, if next.pc.create then map[] else r.secret.data); }
  }

  lemma DataOfTenant(n: Tenant, creds: Creds, data: map<Entry, string>)
    requires creds == CredsOf(n, n.endpoint)
    ensures Holds(C.CredentialData(creds, data), n)
  {
  }

  // Provisioning calls.
  lemma ProvisionTurn(cfg: Config, k: Key, n: Tenant, w: World, t: C.Thread, c: Choice, next: C.Thread)
    requires t.pc.Provision? && TenantFine(cfg, w, k, n, t)
    requires var (w', r) := Serve(w, t.pc.call, c); Arrival(cfg, k, t, r, next) && OwnNames(cfg, n, next)
    ensures TenantFine(cfg, Serve(w, t.pc.call, c).0, k, n, next)
  {
    hide Serve, OwnNames, Advance, OnScript, ReadyFor, UserReady, PolicyReady, Accessible, StartingCreds,
         C.ProvisionScript, TrimmedCreds, Begins, C.Destruction, Complete, IsBound, Handled, GivenCreds, Holds;
    ProvisionStep(w, n, t.pc.call, t.pc.rest, c) by { OwnNamesOnScript(cfg, n, t); }
  }

  lemma OwnNamesOnScript(cfg: Config, n: Tenant, t: C.Thread)
    requires t.pc.Provision? && OwnNames(cfg, n, t)
    ensures OnScript(n, Then(t.pc.call, t.pc.rest))
  {
    hide OnScript;
  }

  // Finalization: the claim is going, and that is all a tenant asks.
  lemma FinalTurn(cfg: Config, k: Key, n: Tenant, w: World, t: C.Thread, c: Choice, next: C.Thread)
    requires C.Finalizing(t.pc) && TenantFine(cfg, w, k, n, t) && Knows(w.api, k, t) && Sane(t) && Sound(w.api, k)
    requires var (w', r) := Serve(w, C.Request(k, t), c); Arrival(cfg, k, t, r, next) && OwnNames(cfg, n, next)
    ensures TenantFine(cfg, Serve(w, C.Request(k, t), c).0, k, n, next)
  {
    var w' := Serve(w, C.Request(k, t), c).0;
    ServeEvolves(w, C.Request(k, t), c, k);
    Frame(w, C.Request(k, t), c);
    FinalCalls(k, t);
    hide Serve, C.Request, OwnNames, Advance, OnScript, StartingCreds, C.ProvisionScript, TrimmedCreds, Begins,
         C.Destruction, Complete, Handled, Holds, Accessible, SecretReady;
  }

  lemma FinalCalls(k: Key, t: C.Thread)
    requires C.Finalizing(t.pc)
    ensures OnSecrets(C.Request(k, t)) ==> C.Request(k, t).GetSecret?
  {
  }

  // Storing the Secret.
  lemma StoreTurn(cfg: Config, k: Key, n: Tenant, w: World, t: C.Thread, c: Choice, next: C.Thread)
    requires t.pc.StoreSecret? && n.secret == CredentialsKey(k) && TenantFine(cfg, w, k, n, t) && Knows(w.api, k, t)
    requires var (w', r) := Serve(w, C.Request(k, t), c); Arrival(cfg, k, t, r, next) && OwnNames(cfg, n, next)
    ensures TenantFine(cfg, Serve(w, C.Request(k, t), c).0, k, n, next)
  {
    hide Serve, Perform, C.Request, OwnNames, OnScript, Advance, StartingCreds, C.ProvisionScript, TrimmedCreds, Begins,
         C.Destruction, Complete, Handled, Accessible, Knows, Valid, OwnSecret, SecretReady, Stored, IsBound,
         CredentialsKey;
    var w' := Serve(w, C.Request(k, t), c).0;
    Frame(w, C.Request(k, t), c);
    StoredData(k, w, t, c);
    StoredIsFine(cfg, w, w', k, n, t);
  }

  // The Secret tells the tenant's credentials, whether the write reached it or not.
  lemma StoredIsFine(cfg: Config, w: World, w': World, k: Key, n: Tenant, t: C.Thread)
    requires t.pc.StoreSecret? && n.secret == CredentialsKey(k) && TenantFine(cfg, w, k, n, t) && Knows(w.api, k, t)
    requires w'.minio == w.minio && w'.api.claims == w.api.claims
    requires w'.api.secrets == w.api.secrets || Stored(w'.api, k, t.pc.secret)
    ensures Valid(w', k, n) && OwnSecret(w'.api, n)
    ensures Stored(w'.api, k, t.pc.secret) ==> SecretReady(w'.api, n, t.claim.uid)
  {
    hide Accessible, IsBound, OnScript, Snapshot, CredentialsKey;
  }

  ghost predicate Stored(api: Api, k: Key, secret: Secret) {
    && CredentialsKey(k) in api.secrets
    && api.secrets[CredentialsKey(k)].data == secret.data && api.secrets[CredentialsKey(k)].owner == secret.owner
  }

  lemma StoredData(k: Key, w: World, t: C.Thread, c: Choice)
    requires t.pc.StoreSecret?
    ensures var (w', r) := Serve(w, C.Request(k, t), c);
            && OnSecrets(C.Request(k, t))
            && (w'.api.secrets == w.api.secrets || Stored(w'.api, k, t.pc.secret))
            && (r.SecretIs? ==> Stored(w'.api, k, t.pc.secret))
  {
    hide ServeClaims, ServeAccesses, ServeCosi, ServeMinio, ReplyOnly;
  }

  // Whoever is bound afterwards was bound before or has just been bound by its thread.
  ghost predicate BoundBy(a: Api, b: Api, k: Key, t: C.Thread) {
    BoundAndStaying(b, k) ==>
      && k in a.claims && a.claims[k].uid == b.claims[k].uid
      && (|| (BoundAndStaying(a, k) && a.claims[k].status.bucketName == b.claims[k].status.bucketName)
          || (t.pc.StoreStatus? && b.claims[k].uid == t.claim.uid && b.claims[k].status.bucketName == t.creds.bucket))
  }

  // A thread makes its claim bound only by publishing.
  lemma BindsWhenPublished(k: Key, api: Api, t: C.Thread)
    requires !t.pc.Finished? && WritesClaim(C.Request(k, t)) && Knows(api, k, t) && Sane(t)
    ensures BoundBy(api, ServeClaims(api, C.Request(k, t)).0, k, t)
  {
    hide Snapshot, Held, CredentialsKey, WriteClaim, WriteClaimStatus;
    var call := C.Request(k, t);
    if t.pc.NoteWrite? || t.pc.StoreStatus? { StatusWritten(api, k, t.pc.seen, call.claim); HeldUid(api, k, t); }
    else { MetadataWritten(api, k, call.claim); DeletionStays(api, k, call.claim); }
  }

  lemma HeldUid(api: Api, k: Key, t: C.Thread)
    requires (t.pc.NoteWrite? || t.pc.StoreStatus?) && Knows(api, k, t)
    ensures k in api.claims && api.claims[k].uid == t.claim.uid
  {
    hide Snapshot;
  }

  lemma DeletionStays(api: Api, k: Key, c: Claim)
    ensures var after := WriteClaim(api, k, c).0;
            k in after.claims ==> k in api.claims && after.claims[k].deleting == api.claims[k].deleting
  {
  }

  lemma WorkCalls(k: Key, t: C.Thread)
    requires (C.Admitting(t.pc) || Publishing(t.pc)) && !t.pc.StoreSecret?
    ensures var call := C.Request(k, t); !OnMinio(call) && (OnSecrets(call) ==> call.GetSecret?)
    ensures t.pc.ReadKeys? || t.pc.FetchSecret? <==> OnSecrets(C.Request(k, t))
  {
    hide CredentialsKey, C.BoundTo, C.Noted, TrimSpace;
  }

  lemma ServedBoundBy(k: Key, w: World, t: C.Thread, c: Choice)
    requires !t.pc.Finished? && Knows(w.api, k, t) && Sane(t)
    ensures BoundBy(w.api, Serve(w, C.Request(k, t), c).0.api, k, t)
  {
    hide Serve, Perform, C.Request, ServeClaims, Knows, Sane, IsBound;
    var call := C.Request(k, t);
    Frame(w, call, c);
    ServeWorld(w, call, c);
    Performs(w, call, c);
    if WritesClaim(call) { BindsWhenPublished(k, w.api, t); }
    else if OnClaims(call) { ReadsChangeNothing(w.api, call); }
  }

  lemma WorkKeeps(k: Key, w: World, t: C.Thread, c: Choice)
    requires (C.Admitting(t.pc) || Publishing(t.pc)) && !t.pc.StoreSecret?
    ensures var w' := Serve(w, C.Request(k, t), c).0; w'.minio == w.minio && w'.api.secrets == w.api.secrets
  {
    hide Serve, Perform, C.Request, ServeSecrets;
    var call := C.Request(k, t);
    WorkCalls(k, t);
    Frame(w, call, c);
    ServeWorld(w, call, c);
    Performs(w, call, c);
    ReadsChangeNothing(w.api, call);
  }

  lemma FirstCall(k: Key, t: C.Thread, r: Reply, cfg: Config, next: C.Thread)
    requires t.pc.ReadKeys? && next.pc.Provision? && UsesMinio(t.bc) && Arrival(cfg, k, t, r, next)
    ensures next.pc.call.BucketExists?
  {
    hide QuotaScript, GrantScript, StartingCreds, Region, UsesMinio;
  }

  // Every other step: admission, notes, and publishing on the claim.
  lemma WorkTurn(cfg: Config, k: Key, n: Tenant, w: World, t: C.Thread, c: Choice, next: C.Thread)
    requires (C.Admitting(t.pc) || Publishing(t.pc)) && !t.pc.StoreSecret?
    requires TenantFine(cfg, w, k, n, t) && Knows(w.api, k, t) && Sane(t) && (t.pc.ReadKeys? ==> UsesMinio(t.bc))
    requires var (w', r) := Serve(w, C.Request(k, t), c); Arrival(cfg, k, t, r, next) && OwnNames(cfg, n, next)
    ensures TenantFine(cfg, Serve(w, C.Request(k, t), c).0, k, n, next)
  {
    hide Serve, C.Request, OnScript, Advance, StartingCreds, C.ProvisionScript, TrimmedCreds, Begins, C.Destruction,
         Complete, Handled, Holds, Accessible, SecretReady, Knows, Sane, BoundAndStaying, C.UpToDate;
    var (w', r) := Serve(w, C.Request(k, t), c);
    WorkKeeps(k, w, t, c);
    ServedBoundBy(k, w, t, c);
    if t.pc.ReadKeys? && next.pc.Provision? { FirstCall(k, t, r, cfg, next); }
    SameSecretReady(w.api, w'.api, n);
  }

  lemma SameSecretReady(a: Api, b: Api, n: Tenant)
    requires a.secrets == b.secrets
    ensures forall uid :: SecretReady(a, n, uid) ==> SecretReady(b, n, uid)
  {
  }

  /* The hypotheses, and runs */

  // The hypothesis about one claim in one step: its name is fixed and MinIO serves it, nobody else names its
  // user, its policy or its Secret, and its Secret is only collected when the claim is gone.
  ghost predicate Undisputed(cfg: Config, s: System, a: Action, k: Key, bucket: string) {
    var n := TenantOf(cfg, k, bucket);
    && NameFixed(k, bucket, ClaimThread(s, k))
    && (Issued(s, a).Some? && !(a.StepClaim? && a.key == k) ==> Respects(Issued(s, a).value, n))
    && (a.PutSecret? ==> a.key != n.secret)
    && (a.DropSecret? && a.key == n.secret && n.secret in s.world.api.secrets && k in s.world.api.claims ==>
          s.world.api.secrets[n.secret].owner != Some(s.world.api.claims[k].uid))
  }

  ghost predicate CredentialsFine(cfg: Config, s: System, k: Key, bucket: string) {
    TenantFine(cfg, s.world, k, TenantOf(cfg, k, bucket), ClaimThread(s, k))
  }

  lemma SecretKeyOf(cfg: Config, k: Key, bucket: string)
    ensures TenantOf(cfg, k, bucket).secret == CredentialsKey(k)
  {
  }

  lemma OwnCredentialsTurn(cfg: Config, s: System, a: Action, bucket: string)
    requires a.StepClaim? && Issued(s, a).Some? && ClaimFine(s, a.key)
    requires CredentialsFine(cfg, s, a.key, bucket) && NameFixed(a.key, bucket, ClaimThread(s, a.key))
    ensures CredentialsFine(cfg, Apply(cfg, s, a), a.key, bucket)
  {
    hide Apply, ClaimThread, Serve, C.Resume, C.Request, TenantOf, Arrival, OwnNames, OwnSecret, Achieved, Valid, Knows,
         Sane, Sound, Truthful, HonestSecret;
    var k, t, c, n := a.key, ClaimThread(s, a.key), a.choice, TenantOf(cfg, a.key, bucket);
    assert Issued(s, a).value == C.Request(k, t);
    var (w', r) := Serve(s.world, C.Request(k, t), c);
    var next := C.Resume(cfg, k, t, r);
    Arrives(cfg, k, t, r);
    OwnReplies(cfg, k, n, s.world, t, c) by { SecretKeyOf(cfg, k, bucket); }
    StaysOwn(cfg, k, bucket, t, r, next);
    SecretKeyOf(cfg, k, bucket);
    if t.pc.Provision? { ProvisionCall(k, t); ProvisionTurn(cfg, k, n, s.world, t, c, next); }
    else if C.Finalizing(t.pc) { FinalTurn(cfg, k, n, s.world, t, c, next); }
    else if t.pc.StoreSecret? { StoreTurn(cfg, k, n, s.world, t, c, next); }
    else { WorkTurn(cfg, k, n, s.world, t, c, next); }
    ThreadOf(cfg, s, a, k);
    WorldOf(cfg, s, a);
  }

  lemma ProvisionCall(k: Key, t: C.Thread)
    requires t.pc.Provision?
    ensures C.Request(k, t) == t.pc.call
  {
  }

  lemma OwnReplies(cfg: Config, k: Key, n: Tenant, w: World, t: C.Thread, c: Choice)
    requires !t.pc.Finished? && OwnSecret(w.api, n) && OwnNames(cfg, n, t) && n.secret == CredentialsKey(k)
    ensures HonestSecret(n, t, Serve(w, C.Request(k, t), c).1)
    ensures t.pc.Provision? ==> !Serve(w, C.Request(k, t), c).1.Granted?
  {
    hide ServeClaims, ServeAccesses, ServeCosi, Effect, ReplyOnly, WriteSecret, CredentialsKey;
    if t.pc.Provision? { OwnNamesOnScript(cfg, n, t); OnScriptIsMinio(n, Then(t.pc.call, t.pc.rest)); }
  }

  lemma OnScriptIsMinio(n: Tenant, s: Script)
    requires s.Then? && OnScript(n, s)
    ensures OnMinio(s.call)
  {
  }

  lemma OthersAndSecrets(api: Api, a: Action, n: Tenant)
    requires (a.PutSecret? ==> a.key != n.secret) && (a.DropSecret? ==> a.key != n.secret)
    ensures SameSecret(api, Others(api, a), n)
  {
    hide Born, Doomed, AccessBorn, AccessDoomed;
    if a.EditClaim? { EditAndSecrets(api, a.key, a.spec, a.foreign); hide Edited; }
    BirthsAndSecrets(api, a);
  }

  lemma EditAndSecrets(api: Api, k: Key, spec: ClaimSpec, foreign: set<string>)
    ensures Edited(api, k, spec, foreign).secrets == api.secrets
  {
  }

  lemma BirthsAndSecrets(api: Api, a: Action)
    ensures a.CreateClaim? ==> Born(api, a.key, a.spec).secrets == api.secrets
    ensures a.DeleteClaim? ==> Doomed(api, a.key).secrets == api.secrets
    ensures a.CreateAccess? ==> AccessBorn(api, a.key, a.claimName, a.secretName).secrets == api.secrets
    ensures a.DeleteAccess? ==> AccessDoomed(api, a.key).secrets == api.secrets
  {
  }

  // The world after anybody else's action, as far as a tenant is concerned.
  lemma ElsewhereSame(cfg: Config, s: System, a: Action, k: Key, bucket: string)
    requires Undisputed(cfg, s, a, k, bucket) && !(a.StepClaim? && a.key == k && Issued(s, a).Some?)
    requires !(a.DropSecret? && a.key == TenantOf(cfg, k, bucket).secret)
    ensures var n := TenantOf(cfg, k, bucket);
            SameAccess(s.world.minio, NextWorld(s, a).minio, n) && SameSecret(s.world.api, NextWorld(s, a).api, n)
  {
    hide TenantOf, Issued, Serve, Others, Respects, NameFixed;
    var n := TenantOf(cfg, k, bucket);
    if Issued(s, a).Some? { Respected(s.world, Issued(s, a).value, a.choice, n); }
    else if !a.FillBucket? { OthersAndSecrets(s.world.api, a, n); }
  }

  lemma IdleFine(cfg: Config, w: World, k: Key, n: Tenant, t: C.Thread, next: C.Thread)
    requires TenantFine(cfg, w, k, n, t) && (next.pc.Finished? || next.pc.Fetch?)
    ensures TenantFine(cfg, w, k, n, next)
  {
    hide Valid, OwnSecret;
  }

  lemma CredentialsStep(cfg: Config, s: System, a: Action, k: Key, bucket: string)
    requires ClaimFine(s, k) && CredentialsFine(cfg, s, k, bucket) && Undisputed(cfg, s, a, k, bucket)
    ensures CredentialsFine(cfg, Apply(cfg, s, a), k, bucket)
  {
    hide Apply, ClaimThread, TenantOf, Issued, NextWorld, TenantFine, Knows, Sane, Evolves, Undisturbed, SameAccess,
         SameSecret, Truthful, NameFixed, Respects;
    var n, t, next := TenantOf(cfg, k, bucket), ClaimThread(s, k), ClaimThread(Apply(cfg, s, a), k);
    if a.StepClaim? && a.key == k && Issued(s, a).Some? {
      OwnCredentialsTurn(cfg, s, a, bucket);
    } else {
      WorldOf(cfg, s, a);
      ThreadOf(cfg, s, a, k);
      if a.DropSecret? && a.key == n.secret {
        CollectionLeavesFine(cfg, s.world, k, n, t);
        Dropped(s, a);
      } else {
        ElsewhereSame(cfg, s, a, k, bucket);
        StepDisturbs(s, a, k);
        NoTurn(s, a, k);
        OthersLeaveFine(cfg, s.world, NextWorld(s, a), k, n, t);
      }
      if next != t { IdleFine(cfg, NextWorld(s, a), k, n, t, next); }
    }
  }

  lemma Dropped(s: System, a: Action)
    requires a.DropSecret?
    ensures NextWorld(s, a) == s.world.(api := s.world.api.(secrets := s.world.api.secrets - {a.key}))
  {
    hide Issued;
  }

  // The run so far keeps to the hypothesis.
  ghost predicate UndisputedRun(cfg: Config, s: System, actions: seq<Action>, k: Key, bucket: string) {
    forall i :: 0 <= i < |actions| ==> Undisputed(cfg, Run(cfg, s, actions[..i]), actions[i], k, bucket)
  }

  lemma UndisputedTail(cfg: Config, s: System, actions: seq<Action>, k: Key, bucket: string)
    requires actions != [] && UndisputedRun(cfg, s, actions, k, bucket)
    ensures Undisputed(cfg, s, actions[0], k, bucket)
    ensures UndisputedRun(cfg, Apply(cfg, s, actions[0]), actions[1..], k, bucket)
  {
    hide Undisputed, Apply;
    assert actions[..0] == [] && Run(cfg, s, actions[..0]) == s;
    forall i | 0 <= i < |actions[1..]|
      ensures Undisputed(cfg, Run(cfg, Apply(cfg, s, actions[0]), actions[1..][..i]), actions[1..][i], k, bucket)
    {
      assert actions[..i + 1][0] == actions[0] && actions[..i + 1][1..] == actions[1..][..i];
      assert Run(cfg, s, actions[..i + 1]) == Run(cfg, Apply(cfg, s, actions[0]), actions[1..][..i]);
      assert Undisputed(cfg, Run(cfg, s, actions[..i + 1]), actions[i + 1], k, bucket);
    }
  }

  lemma {:induction false} CredentialsRun(cfg: Config, s: System, actions: seq<Action>, k: Key, bucket: string)
    requires ClaimFine(s, k) && CredentialsFine(cfg, s, k, bucket) && UndisputedRun(cfg, s, actions, k, bucket)
    ensures CredentialsFine(cfg, Run(cfg, s, actions), k, bucket)
    decreases |actions|
  {
    hide Apply, ClaimFine, CredentialsFine, UndisputedRun, Undisputed;
    if actions != [] {
      UndisputedTail(cfg, s, actions, k, bucket);
      CredentialsStep(cfg, s, actions[0], k, bucket);
      FineStep(cfg, s, actions[0], k);
      CredentialsRun(cfg, Apply(cfg, s, actions[0]), actions[1..], k, bucket);
    }
  }

  lemma StartFine(cfg: Config, s: System, k: Key, bucket: string)
    requires Initial(s) && CredentialsKey(k) !in s.world.api.secrets
    ensures CredentialsFine(cfg, s, k, bucket)
  {
    SecretKeyOf(cfg, k, bucket);
    hide TenantOf;
  }

  /** Credential validity, over every interleaving of handlers, faults, crashes and edits: a bound claim that is
      not being deleted has a Secret whose user exists with that very secret key and is mapped to the policy
      scoped to the claim's bucket. */
  lemma CredentialsStayValid(cfg: Config, s: System, actions: seq<Action>, k: Key, bucket: string)
    requires Initial(s) && CredentialsKey(k) !in s.world.api.secrets
    requires UndisputedRun(cfg, s, actions, k, bucket)
    ensures Valid(Run(cfg, s, actions).world, k, TenantOf(cfg, k, bucket))
  {
    StartFine(cfg, s, k, bucket);
    InitialInv(s);
    assert ClaimFine(s, k);
    hide ClaimFine, UndisputedRun, Valid, OwnSecret, OwnNames, Achieved, Initial;
    CredentialsRun(cfg, s, actions, k, bucket);
  }
}
