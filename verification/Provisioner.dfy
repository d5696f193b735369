/** Provisioning and teardown in the order of the program (internal/provisioning/provisioning.go). */
module Provisioner {
  import opened Text
  import opened Errors
  import opened Lifecycle
  import opened Kube
  import opened Cluster
  import opened Frames
  import opened Provisioning
  import opened MinioClient

  /* Scripts one after another */

  function Append(a: Script, b: Script): Script { if a.End? then b else Then(a.call, Append(a.rest, b)) }

  // The question whether a bucket exists is followed by the call that it decides about.
  predicate Closed(a: Script) { a.Then? ==> (a.call.BucketExists? ==> a.rest.Then?) && Closed(a.rest) }

  lemma SkipAppend(a: Script, b: Script, yes: bool)
    requires a.Then? && Closed(a)
    ensures Skip(Append(a, b), yes) == Append(Skip(a, yes), b) && Closed(Skip(a, yes))
  {
  }

  lemma AdvanceAppend(call: BackendCall, a: Script, b: Script, r: Reply)
    requires Closed(Then(call, a)) && (r.Exists? ==> call.BucketExists?)
    ensures var p, q := Advance(call, a, r), Advance(call, Append(a, b), r);
            && (p.Fails? ==> q == p)
            && (p.Goes? ==> q == Goes(Append(p.todo, b)) && Closed(p.todo))
  {
    hide CallError, OperationOf;
    if r.Exists? { SkipAppend(a, b, r.yes); }
  }

  lemma OnlyExistsAnswersExists(w: World, call: BackendCall, c: Choice)
    ensures Serve(w, call, c).1.Exists? ==> call.BucketExists?
  {
    hide Perform, Effect;
    Performs(w, call, c);
    if OnMinio(call) { } else { ForeignNeverExists(w, call, c); }
  }

  lemma ForeignNeverExists(w: World, call: BackendCall, c: Choice)
    requires !OnMinio(call)
    ensures !Perform(w, call, c).1.Exists?
  {
  }

  lemma {:induction false} DriveAppend(w: World, a: Script, b: Script, plan: nat -> Choice, n: nat)
    requires Closed(a)
    ensures Drive(w, Append(a, b), plan, n)
            == var d := Drive(w, a, plan, n); if d.failure.Some? then d else Drive(d.world, b, plan, d.calls)
    decreases Size(a)
  {
    hide Serve, Advance;
    if a.Then? {
      var (w', r) := Serve(w, a.call, plan(n));
      OnlyExistsAnswersExists(w, a.call, plan(n));
      AdvanceAppend(a.call, a.rest, b, r);
      AdvanceShortens(a.call, a.rest, r);
      AdvanceShortens(a.call, Append(a.rest, b), r);
      if Advance(a.call, a.rest, r).Goes? { DriveAppend(w', Advance(a.call, a.rest, r).todo, b, plan, n + 1); }
    }
  }

  /* createBucketAndConfigure */

  function QuotaPart(b: string, spec: ClaimSpec): Script {
    QuotaScript(b, spec.(lifecycleRules := [], replicationTarget := None), End)
  }

  function LifecyclePart(b: string, spec: ClaimSpec): Script {
    LifecycleScript(b, spec.(replicationTarget := None), End)
  }

  function ReplicationPart(b: string, spec: ClaimSpec): Script { ReplicationScript(b, spec, End) }

  lemma Parts(b: string, spec: ClaimSpec, bc: BucketClass, rest: Script)
    ensures BucketScript(b, spec, bc, rest)
            == Append(EnsureBucket(b, Region(bc), bc.objectLockingEnabled), QuotaScript(b, spec, rest))
    ensures QuotaScript(b, spec, rest) == Append(QuotaPart(b, spec), LifecycleScript(b, spec, rest))
    ensures LifecycleScript(b, spec, rest) == Append(LifecyclePart(b, spec), ReplicationScript(b, spec, rest))
    ensures ReplicationScript(b, spec, rest) == Append(ReplicationPart(b, spec), rest)
    ensures Closed(EnsureBucket(b, Region(bc), bc.objectLockingEnabled))
    ensures Closed(QuotaPart(b, spec)) && Closed(LifecyclePart(b, spec)) && Closed(ReplicationPart(b, spec))
  {
    hide Region, Rules;
    var make: Script := Then(MakeBucket(b, Region(bc), bc.objectLockingEnabled), End);
    assert Append(make, QuotaScript(b, spec, rest)) == Then(make.call, QuotaScript(b, spec, rest));
    assert Closed(make);
  }

  method CreateBucketAndConfigure(client: Client, k: Key, spec: ClaimSpec, bc: BucketClass)
    returns (bucketName: string, failure: Option<Failure>)
    modifies client
    ensures bucketName == EffectiveBucketName(k, spec, bc)
    ensures Drive(old(client.Now()), BucketScript(bucketName, spec, bc, End), client.plan, old(client.calls))
            == Driven(client.Now(), failure, client.calls)
  {
    hide Drive, TrimSpace, ToLower, Lookup, Joined, QuotaScript, LifecycleScript, ReplicationScript, BucketScript,
         EnsureBucket;
    bucketName := TrimSpace(spec.bucketName);
    if bucketName == "" {
      var hint := TrimSpace(Lookup(bc.parameters, "bucketName"));
      if hint != "" { bucketName := hint; }
    }
    if bucketName == "" { bucketName := Joined(k); }
    bucketName := ToLower(bucketName);
    assert bucketName == EffectiveBucketName(k, spec, bc);
    hide EffectiveBucketName;
    failure := Configure(client, bucketName, spec, bc);
  }

  method Configure(client: Client, bucketName: string, spec: ClaimSpec, bc: BucketClass)
    returns (failure: Option<Failure>)
    modifies client
    ensures Drive(old(client.Now()), BucketScript(bucketName, spec, bc, End), client.plan, old(client.calls))
            == Driven(client.Now(), failure, client.calls)
  {
    hide Drive, QuotaScript, LifecycleScript, ReplicationScript, BucketScript, EnsureBucket, QuotaPart, LifecyclePart,
         ReplicationPart, Region;
    Parts(bucketName, spec, bc, End);
    DriveAppend(client.Now(), EnsureBucket(bucketName, Region(bc), bc.objectLockingEnabled),
                QuotaScript(bucketName, spec, End), client.plan, client.calls);
    var err := MinioClient.CreateBucket(client, bucketName, Region(bc), bc.objectLockingEnabled);
    if err.Some? { return Some(Failure(Operation.CreateBucket, err.value)); }

    DriveAppend(client.Now(), QuotaPart(bucketName, spec), LifecycleScript(bucketName, spec, End), client.plan,
                client.calls);
    failure := ConfigureQuota(client, bucketName, spec);
    if failure.Some? { return; }

    DriveAppend(client.Now(), LifecyclePart(bucketName, spec), ReplicationScript(bucketName, spec, End), client.plan,
                client.calls);
    failure := ConfigureLifecycle(client, bucketName, spec);
    if failure.Some? { return; }

    DriveAppend(client.Now(), ReplicationPart(bucketName, spec), End, client.plan, client.calls);
    ConfigureReplication(client, bucketName, spec);
    NothingToDrive(client.Now(), client.plan, client.calls);
  }

  method ConfigureQuota(client: Client, bucketName: string, spec: ClaimSpec) returns (failure: Option<Failure>)
    modifies client
    ensures Drive(old(client.Now()), QuotaPart(bucketName, spec), client.plan, old(client.calls))
            == Driven(client.Now(), failure, client.calls)
  {
    hide Drive;
    NothingToDrive(client.Now(), client.plan, client.calls);
    if spec.quotaBytes.Some? && spec.quotaBytes.value > 0 {
      var err := SetBucketQuota(client, bucketName, spec.quotaBytes.value);
      return FailedAt(Operation.SetQuota, err);
    }
    return None;
  }

  // The rules are gathered one by one and set together.
  method ConfigureLifecycle(client: Client, bucketName: string, spec: ClaimSpec) returns (failure: Option<Failure>)
    modifies client
    ensures Drive(old(client.Now()), LifecyclePart(bucketName, spec), client.plan, old(client.calls))
            == Driven(client.Now(), failure, client.calls)
  {
    hide Drive;
    NothingToDrive(client.Now(), client.plan, client.calls);
    if |spec.lifecycleRules| > 0 {
      var cfg := BuildConfiguration(spec.lifecycleRules);
      assert cfg == Rules(spec.lifecycleRules);
      var err := SetBucketLifecycle(client, bucketName, cfg);
      return FailedAt(Operation.SetLifecycle, err);
    }
    return None;
  }

  // Best effort: a failure is logged and forgotten.
  method ConfigureReplication(client: Client, bucketName: string, spec: ClaimSpec)
    modifies client
    ensures Drive(old(client.Now()), ReplicationPart(bucketName, spec), client.plan, old(client.calls))
            == Driven(client.Now(), None, client.calls)
  {
    hide Drive;
    NothingToDrive(client.Now(), client.plan, client.calls);
    if spec.replicationTarget.Some? {
      var err := SetBucketReplication(client, bucketName, spec.replicationTarget.value);
    }
  }

  /* Granting access, and both together */

  // The credentials of a grant, once they are known to be complete.
  function Checked(d: Driven, creds: Creds): Option<Failure> {
    if d.failure.Some? then d.failure
    else if Complete(TrimmedCreds(creds)) then None else Some(Failure(Operation.GrantAccess, Incomplete()))
  }

  // The credentials that a grant starts from.
  function StartCreds(cfg: Config, bucketName: string, k: Key, existing: Keys): Creds {
    var keys := ChooseKeys(cfg.digest, Joined(k), existing.accessKey, existing.secretKey);
    Creds(bucketName, keys.accessKey, keys.secretKey, cfg.endpoint)
  }

  function AccessScript(cfg: Config, bucketName: string, k: Key, accessType: string, existing: Keys): Script {
    var keys := ChooseKeys(cfg.digest, Joined(k), existing.accessKey, existing.secretKey);
    GrantScript(bucketName, Joined(k), accessType, keys.accessKey, keys.secretKey)
  }

  // grantAccess
  method GrantBucketAccess(client: Client, cfg: Config, k: Key, accessType: string, bucketName: string, existing: Keys)
    returns (creds: Creds, failure: Option<Failure>)
    modifies client
    ensures var d := Drive(old(client.Now()), AccessScript(cfg, bucketName, k, accessType, existing), client.plan,
                           old(client.calls));
            && d.world == client.Now() && d.calls == client.calls
            && failure == Checked(d, StartCreds(cfg, bucketName, k, existing))
            && (failure.None? ==> creds == TrimmedCreds(StartCreds(cfg, bucketName, k, existing)))
  {
    hide Drive, GrantScript, TrimSpace, Joined, Incomplete, ChooseKeys;
    var keys, err := MinioClient.GrantAccess(client, cfg.digest, bucketName, Joined(k), accessType, existing.accessKey,
                                             existing.secretKey);
    creds := Creds(bucketName, keys.accessKey, keys.secretKey, cfg.endpoint);
    if err.Some? { return creds, Some(Failure(Operation.GrantAccess, err.value)); }
    creds := Creds(bucketName, TrimSpace(creds.accessKey), TrimSpace(creds.secretKey), TrimSpace(creds.endpoint));
    if creds.accessKey == "" || creds.secretKey == "" || creds.endpoint == "" {
      return creds, Some(Failure(Operation.GrantAccess, Incomplete()));
    }
    return creds, None;
  }

  // What provisioning and granting come to.
  function WholeScript(cfg: Config, k: Key, spec: ClaimSpec, bc: BucketClass, existing: Keys): Script {
    var bucketName := EffectiveBucketName(k, spec, bc);
    BucketScript(bucketName, spec, bc, AccessScript(cfg, bucketName, k, spec.accessType, existing))
  }

  method ProvisionBucketAndGrantAccess(client: Client, cfg: Config, k: Key, spec: ClaimSpec, bc: BucketClass,
                                       existing: Keys)
    returns (creds: Creds, failure: Option<Failure>)
    modifies client
    ensures var d := Drive(old(client.Now()), WholeScript(cfg, k, spec, bc, existing), client.plan, old(client.calls));
            var start := StartCreds(cfg, EffectiveBucketName(k, spec, bc), k, existing);
            && d.world == client.Now() && d.calls == client.calls
            && failure == Checked(d, start) && (failure.None? ==> creds == TrimmedCreds(start))
  {
    hide Drive, BucketScript, AccessScript, EffectiveBucketName, StartCreds, TrimmedCreds, Complete, Incomplete;
    ghost var b := EffectiveBucketName(k, spec, bc);
    BucketScriptThen(b, spec, bc, AccessScript(cfg, b, k, spec.accessType, existing));
    DriveAppend(client.Now(), BucketScript(b, spec, bc, End), AccessScript(cfg, b, k, spec.accessType, existing),
                client.plan, client.calls);
    var bucketName;
    bucketName, failure := CreateBucketAndConfigure(client, k, spec, bc);
    if failure.Some? { return Creds(bucketName, "", "", ""), failure; }
    creds, failure := GrantBucketAccess(client, cfg, k, spec.accessType, bucketName, existing);
  }

  lemma BucketScriptThen(b: string, spec: ClaimSpec, bc: BucketClass, rest: Script)
    ensures BucketScript(b, spec, bc, rest) == Append(BucketScript(b, spec, bc, End), rest)
    ensures Closed(BucketScript(b, spec, bc, End))
  {
    hide Region, Rules;
    assert ReplicationScript(b, spec, rest) == Append(ReplicationScript(b, spec, End), rest)
           && Closed(ReplicationScript(b, spec, End));
    assert LifecycleScript(b, spec, rest) == Append(LifecycleScript(b, spec, End), rest)
           && Closed(LifecycleScript(b, spec, End));
    assert QuotaScript(b, spec, rest) == Append(QuotaScript(b, spec, End), rest) && Closed(QuotaScript(b, spec, End));
    var make: Script := Then(MakeBucket(b, Region(bc), bc.objectLockingEnabled), QuotaScript(b, spec, End));
    assert Closed(make) && Append(make, rest) == Then(make.call, QuotaScript(b, spec, rest));
  }

  /* Teardown */

  // RevokeAccessAndMaybeDeleteBucket
  method RevokeAccessAndMaybeDeleteBucket(client: Client, k: Key, c: Claim, bc: BucketClass, accessKey: string)
    returns (err: Option<Err>)
    modifies client
    ensures var b := FinalBucketName(k, c);
            var revoked := Drive(old(client.Now()), RevokeScript(b, Joined(k), accessKey), client.plan,
                                 old(client.calls));
            && revoked.failure.None?
            && (if Deletes(bc.deletionPolicy) then
                  Drive(revoked.world, DeleteScript(b), client.plan, revoked.calls)
                  == Driven(client.Now(), FailedAt(Operation.CreateBucket, err), client.calls)
                else err.None? && revoked.world == client.Now() && revoked.calls == client.calls)
  {
    hide Drive, RevokeScript, DeleteScript, Joined;
    var bucketName := c.status.bucketName;
    if bucketName == "" {
      bucketName := c.spec.bucketName;
      if bucketName == "" { bucketName := Joined(k); }
    }
    MinioClient.RevokeAccess(client, bucketName, Joined(k), accessKey);
    if Deletes(bc.deletionPolicy) {
      err := MinioClient.DeleteBucket(client, bucketName);
      return;
    }
    return None;
  }
}
