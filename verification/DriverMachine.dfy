/** The handlers of the COSI driver, which serves one MinIO deployment, as a machine that issues one call per
    step (internal/cosi/server.go). A thread is one request. */
module DriverMachine {
  import opened Text
  import opened Errors
  import opened Lifecycle
  import opened Kube
  import opened CosiNames
  import opened Cluster
  import opened Provisioning

  // Values parsed by ApplyClaimParameterExtensions; `valid` is false when one of them is malformed.
  datatype Extensions = Extensions(valid: bool, quotaBytes: Option<Option<int>>, accessType: string,
                                   lifecycleRules: Option<seq<ClaimRule>>, replicationTarget: Option<string>)

  datatype Request =
    | CreateBucketRequest(name: string, parameters: map<string, string>, extensions: Extensions)
    | DeleteBucketRequest(bucketID: string)
    | GrantRequest(bucketID: string, name: string, parameters: map<string, string>, extensions: Extensions)
    | RevokeRequest(bucketID: string, accountID: string)

  datatype Result = Success | InvalidArgument | Unavailable | Internal

  // ReadPolicy: about to read the COSI Bucket object `name`.
  datatype Pc = ReadPolicy(name: string) | Work(call: BackendCall, rest: Script) | Finished(result: Result)

  datatype Thread = Thread(pc: Pc, creds: Creds)

  function Extend(spec: ClaimSpec, e: Extensions): ClaimSpec {
    spec.(quotaBytes := if e.quotaBytes.Some? then e.quotaBytes.value else spec.quotaBytes,
          accessType := if e.accessType != "" then e.accessType else spec.accessType,
          lifecycleRules := if e.lifecycleRules.Some? then e.lifecycleRules.value else spec.lifecycleRules,
          replicationTarget := if e.replicationTarget.Some? then e.replicationTarget else spec.replicationTarget)
  }

  function Reject(r: Result): Thread { Thread(Finished(r), Creds("", "", "", "")) }

  // The next call of the request, or its end.
  function Do(creds: Creds, todo: Script): Thread {
    match todo
    case Then(call, rest) => Thread(Work(call, rest), creds)
    case End => Thread(Finished(Success), creds)
  }

  function BucketOf(bucketID: string): string { ToLower(TrimSpace(bucketID)) }

  function StartCreate(cfg: Config, name: string, parameters: map<string, string>, e: Extensions): Thread {
    var claim := SyntheticClaim(name, parameters);
    if claim.None? || !e.valid then Reject(InvalidArgument)
    else
      var (k, spec) := claim.value;
      var bc := SyntheticClass(cfg.driverName, spec.className, parameters);
      if bc.None? then Reject(InvalidArgument)
      else
        var bucket := EffectiveBucketName(k, spec, bc.value);
        Do(Creds(bucket, "", "", ""), BucketScript(bucket, Extend(spec, e), bc.value, End))
  }

  function StartDelete(bucketID: string): Thread {
    if TrimSpace(bucketID) == "" then Reject(InvalidArgument)
    else Thread(ReadPolicy(TrimSpace(bucketID)), Creds(BucketOf(bucketID), "", "", ""))
  }

  // The account id that DriverGrantBucketAccess returns.
  function AccountOf(accessName: string): string { Joined(Key(DRIVER_NAMESPACE, SyntheticClaimName(accessName))) }

  function StartGrant(cfg: Config, bucketID: string, name: string, parameters: map<string, string>,
                      e: Extensions): Thread {
    var claim := SyntheticClaim(bucketID, parameters);
    if claim.None? || TrimSpace(name) == "" || !e.valid then Reject(InvalidArgument)
    else
      var bucket, account := BucketOf(bucketID), AccountOf(name);
      var accessKey := KeyOr(TrimSpace(Lookup(parameters, "existingAccessKey")), account);
      var secretKey := SecretOr(cfg.digest, TrimSpace(Lookup(parameters, "existingSecretKey")), account);
      Do(Creds(bucket, accessKey, secretKey, cfg.endpoint),
         GrantScript(bucket, account, Extend(claim.value.1, e).accessType, accessKey, secretKey))
  }

  function StartRevoke(bucketID: string, accountID: string): Thread {
    var k := SplitAccount(accountID);
    if TrimSpace(bucketID) == "" || k.None? then Reject(InvalidArgument)
    else Do(Creds(BucketOf(bucketID), "", "", ""), RevokeScript(BucketOf(bucketID), Joined(k.value), ""))
  }

  function Start(cfg: Config, req: Request): Thread {
    match req
    case CreateBucketRequest(name, parameters, e) => StartCreate(cfg, name, parameters, e)
    case DeleteBucketRequest(bucketID) => StartDelete(bucketID)
    case GrantRequest(bucketID, name, parameters, e) => StartGrant(cfg, bucketID, name, parameters, e)
    case RevokeRequest(bucketID, accountID) => StartRevoke(bucketID, accountID)
  }

  function NextCall(t: Thread): Call
    requires !t.pc.Finished?
  {
    match t.pc
    case ReadPolicy(name) => GetCosi(name)
    case Work(call, _) => call
  }

  function Finish(t: Thread, r: Result): Thread { t.(pc := Finished(r)) }

  // The Bucket object decides; when it cannot be read, a class guessed from its name does.
  function GotPolicy(cfg: Config, t: Thread, name: string, r: Reply): Thread {
    if r.CosiIs? then
      if !Deletes(TrimSpace(r.bucket.deletionPolicy)) then Finish(t, Success)
      else Do(t.creds, DeleteScript(t.creds.bucket))
    else
      var className := BucketClassNameFromBucketObjectName(name);
      if className == "" then Finish(t, Success)
      else
        var bc := SyntheticClass(cfg.driverName, className, map[]);
        if bc.None? then Finish(t, Internal)
        else if !Deletes(bc.value.deletionPolicy) then Finish(t, Success)
        else Do(t.creds, DeleteScript(t.creds.bucket))
  }

  function Fail(cfg: Config, t: Thread, err: Err): Thread {
    Finish(t, if cfg.isTransient(err) then Unavailable else Internal)
  }

  // DeleteBucket's errors are not wrapped in a ProvisioningError; those of grants and creations are.
  function GotReply(cfg: Config, t: Thread, call: BackendCall, rest: Script, r: Reply): Thread {
    match Advance(call, rest, r)
    case Fails(op, err) =>
      Fail(cfg, t, if call.RemoveBucket? || rest == Then(RemoveBucket(t.creds.bucket), End) then err
                   else Err.Provisioning(op, t.creds.bucket, err))
    case Goes(todo) =>
      if call.AttachPolicy? && !Complete(TrimmedCreds(t.creds)) then
        Fail(cfg, t, Err.Provisioning(GrantAccess, t.creds.bucket, Incomplete()))
      else Do(t.creds, todo)
  }

  function Resume(cfg: Config, t: Thread, r: Reply): Thread {
    match t.pc
    case ReadPolicy(name) => GotPolicy(cfg, t, name, r)
    case Work(call, rest) => GotReply(cfg, t, call, rest, r)
    case Finished(_) => t
  }

  function Step(cfg: Config, w: World, t: Thread, c: Choice): (World, Thread)
    requires !t.pc.Finished?
  {
    var (w', r) := Serve(w, NextCall(t), c);
    (w', Resume(cfg, t, r))
  }

  function Left(pc: Pc): nat {
    match pc
    case ReadPolicy(_) => 3
    case Work(_, rest) => 1 + Size(rest)
    case Finished(_) => 0
  }

  lemma Progresses(cfg: Config, t: Thread, r: Reply)
    requires !t.pc.Finished?
    ensures Left(Resume(cfg, t, r).pc) < Left(t.pc)
  {
    hide Advance, TrimSpace, SyntheticClass, BucketClassNameFromBucketObjectName, TrimmedCreds, Complete;
    if t.pc.Work? { AdvanceShortens(t.pc.call, t.pc.rest, r); }
    else { DeletionIsShort(t.creds.bucket); }
  }

  lemma DeletionIsShort(b: string)
    ensures Size(DeleteScript(b)) == 2
  {
    assert Size(DeleteScript(b).rest.rest) == 0;
  }

  datatype Outcome = Outcome(world: World, result: Result)

  /** A request running to its end with nobody else in between. */
  function RunAlone(cfg: Config, w: World, t: Thread, plan: nat -> Choice, n: nat): Outcome
    decreases Left(t.pc)
  {
    if t.pc.Finished? then Outcome(w, t.pc.result)
    else
      var (w', r) := Serve(w, NextCall(t), plan(n));
      Progresses(cfg, t, r);
      RunAlone(cfg, w', Resume(cfg, t, r), plan, n + 1)
  }

  lemma OneStep(cfg: Config, w: World, t: Thread, plan: nat -> Choice, n: nat)
    requires !t.pc.Finished?
    ensures var (w', r) := Serve(w, NextCall(t), plan(n));
            RunAlone(cfg, w, t, plan, n) == RunAlone(cfg, w', Resume(cfg, t, r), plan, n + 1)
  {
    hide Serve, NextCall, Resume;
  }

  lemma AtTheEnd(cfg: Config, w: World, t: Thread, plan: nat -> Choice, n: nat)
    requires t.pc.Finished?
    ensures RunAlone(cfg, w, t, plan, n) == Outcome(w, t.pc.result)
  {
  }
}
