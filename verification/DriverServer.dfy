/** The COSI driver's handlers in the order of the program (internal/cosi/server.go), proved to do what the machine
    of DriverMachine does when it runs alone. */
module DriverServer {
  import opened Text
  import opened Errors
  import opened Kube
  import opened CosiNames
  import opened Cluster
  import opened Provisioning
  import opened MinioClient
  import opened Provisioner
  import D = DriverMachine
  import M = Minio

  /* A request as one block */

  // Access is granted by the last call of a script, if at all.
  predicate AttachesLast(todo: Script) {
    todo.Then? ==> (todo.call.AttachPolicy? ==> todo.rest.End?) && AttachesLast(todo.rest)
  }

  predicate Attaches(todo: Script) { todo.Then? && (todo.call.AttachPolicy? || Attaches(todo.rest)) }

  // grpcErr
  function Status(cfg: Config, err: Err): (r: D.Result)
    ensures r != D.Success
  {
    if cfg.isTransient(err) then D.Unavailable else D.Internal
  }

  // The answer to a request, given how its script went.
  function Verdict(cfg: Config, creds: Creds, failure: Option<Failure>, grants: bool): D.Result {
    if failure.Some? then Status(cfg, Err.Provisioning(failure.value.op, creds.bucket, failure.value.err))
    else if grants && !Complete(TrimmedCreds(creds)) then
      Status(cfg, Err.Provisioning(GrantAccess, creds.bucket, Incomplete()))
    else D.Success
  }

  lemma WorkStep(cfg: Config, creds: Creds, call: BackendCall, rest: Script, r: Reply)
    requires !call.RemoveBucket? && (rest.Then? ==> !rest.call.RemoveBucket?)
    ensures D.Resume(cfg, D.Do(creds, Then(call, rest)), r)
            == match Advance(call, rest, r)
               case Fails(op, err) => D.Thread(D.Finished(Status(cfg, Err.Provisioning(op, creds.bucket, err))), creds)
               case Goes(todo) =>
                 if call.AttachPolicy? && !Complete(TrimmedCreds(creds)) then
                   D.Thread(D.Finished(Status(cfg, Err.Provisioning(GrantAccess, creds.bucket, Incomplete()))), creds)
                 else D.Do(creds, todo)
  {
    hide Advance, TrimmedCreds, Complete, Incomplete;
  }

  lemma AdvanceShape(call: BackendCall, rest: Script, r: Reply)
    requires Keeps(rest) && AttachesLast(rest) && (r.Exists? ==> call.BucketExists?)
    ensures Advance(call, rest, r).Goes? ==>
              var todo := Advance(call, rest, r).todo;
              Keeps(todo) && AttachesLast(todo) && Attaches(todo) == Attaches(rest)
  {
    hide CallError, OperationOf;
  }

  lemma {:induction false} WorkIsDriven(cfg: Config, w: World, creds: Creds, todo: Script, plan: nat -> Choice, n: nat)
    requires Keeps(todo) && AttachesLast(todo)
    ensures var d := Drive(w, todo, plan, n);
            D.RunAlone(cfg, w, D.Do(creds, todo), plan, n)
              == D.Outcome(d.world, Verdict(cfg, creds, d.failure, Attaches(todo)))
    decreases Size(todo)
  {
    hide Serve, D.Resume, Advance, TrimmedCreds, Complete, Incomplete, Status;
    if todo.Then? {
      var (w', r) := Serve(w, todo.call, plan(n));
      WorkStep(cfg, creds, todo.call, todo.rest, r);
      OnlyExistsAnswersExists(w, todo.call, plan(n));
      AdvanceShape(todo.call, todo.rest, r);
      AdvanceShortens(todo.call, todo.rest, r);
      D.Progresses(cfg, D.Do(creds, todo), r);
      if Advance(todo.call, todo.rest, r).Goes? {
        AttachEnds(todo.call, todo.rest, r);
        WorkIsDriven(cfg, w', creds, Advance(todo.call, todo.rest, r).todo, plan, n + 1);
      }
    }
  }

  lemma AttachEnds(call: BackendCall, rest: Script, r: Reply)
    requires AttachesLast(Then(call, rest)) && Advance(call, rest, r).Goes?
    ensures call.AttachPolicy? ==> Advance(call, rest, r).todo.End?
  {
    hide CallError, OperationOf;
  }

  /* Synthetic objects */

  // syntheticClassFromParameters, with its loop over the parameters.
  method SyntheticClassFromParameters(driverName: string, bucketClassName: string, parameters: map<string, string>)
    returns (bc: Option<BucketClass>)
    ensures bc == SyntheticClass(driverName, bucketClassName, parameters)
  {
    hide TrimSpace;
    if TrimSpace(bucketClassName) == "" { return None; }
    var class_ := BucketClass(TrimSpace(driverName), "", "Retain", false, map[]);
    var policy := TrimSpace(Lookup(parameters, "deletionPolicy"));
    if policy != "" { class_ := class_.(deletionPolicy := policy); }
    var locking := TrimSpace(Lookup(parameters, "objectLockingEnabled"));
    if locking == "true" || locking == "1" { class_ := class_.(objectLockingEnabled := true); }
    var copied: map<string, string> := map[];
    var left := parameters.Keys;
    while left != {}
      invariant left <= parameters.Keys && copied.Keys == parameters.Keys - left
      invariant forall name :: name in copied ==> copied[name] == parameters[name]
      decreases |left|
    {
      var name :| name in left;
      copied := copied[name := parameters[name]];
      left := left - {name};
    }
    assert copied == parameters;
    var region := TrimSpace(Lookup(copied, "region"));
    copied := copied["region" := region];
    if copied["region"] == "" { copied := copied["region" := "us-east-1"]; }
    assert copied == parameters["region" := if region == "" then "us-east-1" else region];
    return Some(class_.(parameters := copied));
  }

  // The region is the one that the request's bucket is created in.
  predicate CreatedIn(cfg: Config, name: string, parameters: map<string, string>, region: string) {
    var claim := SyntheticClaim(name, parameters);
    && claim.Some?
    && var bc := SyntheticClass(cfg.driverName, claim.value.1.className, parameters);
       bc.Some? && region == Region(bc.value)
  }

  lemma RegionIsTrimmed(driverName: string, className: string, parameters: map<string, string>)
    ensures var bc := SyntheticClass(driverName, className, parameters);
            bc.Some? ==> var r := TrimSpace(Lookup(bc.value.parameters, "region"));
              Region(bc.value) == if r == "" then "us-east-1" else r
  {
    hide TrimSpace;
    var region := TrimSpace(Lookup(parameters, "region"));
    TrimSpaceTrimmed(Lookup(parameters, "region"));
    TrimSpaceFixed(region);
    TrimSpaceFixed("us-east-1");
  }

  class Server {
    const cfg: Config
    const client: Client

    constructor (cfg: Config, client: Client)
      ensures this.cfg == cfg && this.client == client
    {
      this.cfg, this.client := cfg, client;
    }

    // What is still to come, when `t` runs alone from here.
    ghost function Rest(t: D.Thread): D.Outcome
      reads client
    {
      D.RunAlone(cfg, client.Now(), t, client.plan, client.calls)
    }

    ghost predicate Ends(o: D.Outcome, result: D.Result)
      reads client
    {
      o == D.Outcome(client.Now(), result)
    }

    method DriverCreateBucket(name: string, parameters: map<string, string>, e: D.Extensions)
      returns (bucketID: string, region: string, result: D.Result)
      modifies client
      ensures Ends(old(Rest(D.Start(cfg, D.CreateBucketRequest(name, parameters, e)))), result)
      ensures result == D.Success ==> bucketID == D.Start(cfg, D.CreateBucketRequest(name, parameters, e)).creds.bucket
      ensures result == D.Success ==> CreatedIn(cfg, name, parameters, region)
    {
      hide D.RunAlone, Drive, TrimSpace, ToLower, Lookup, SyntheticClass, SyntheticClaimName,
           BucketClassNameFromBucketObjectName, EffectiveBucketName, BucketScript, D.Extend, TrimmedCreds, Complete,
           Incomplete, Status, Region;
      bucketID, region := "", "";
      StartsAtEnd(cfg, client.Now(), D.InvalidArgument, client.plan, client.calls);
      var claim := SyntheticClaim(name, parameters);
      if claim.None? { return bucketID, region, D.InvalidArgument; }
      if !e.valid { return bucketID, region, D.InvalidArgument; }
      var (k, spec) := claim.value;
      var bc := SyntheticClassFromParameters(cfg.driverName, spec.className, parameters);
      if bc.None? { return bucketID, region, D.InvalidArgument; }
      var extended := D.Extend(spec, e);
      ghost var b := EffectiveBucketName(k, spec, bc.value);
      SameName(k, spec, e, bc.value);
      BucketScriptShape(b, extended, bc.value);
      WorkIsDriven(cfg, client.Now(), Creds(b, "", "", ""), BucketScript(b, extended, bc.value, End), client.plan,
                   client.calls);
      var failure;
      bucketID, failure := CreateBucketAndConfigure(client, k, extended, bc.value);
      if failure.Some? {
        return bucketID, region, Status(cfg, Err.Provisioning(failure.value.op, bucketID, failure.value.err));
      }
      region := TrimSpace(Lookup(bc.value.parameters, "region"));
      if region == "" { region := "us-east-1"; }
      RegionIsTrimmed(cfg.driverName, spec.className, parameters);
      result := D.Success;
    }

    method DriverDeleteBucket(bucketID: string) returns (result: D.Result)
      modifies client
      ensures Ends(old(Rest(D.Start(cfg, D.DeleteBucketRequest(bucketID)))), result)
    {
      hide TrimSpace, ToLower, Serve, D.Resume, D.RunAlone, SyntheticClass, BucketClassNameFromBucketObjectName,
           Deletes;
      if TrimSpace(bucketID) == "" {
        StartsAtEnd(cfg, client.Now(), D.InvalidArgument, client.plan, client.calls);
        return D.InvalidArgument;
      }
      var bucketObjectName := TrimSpace(bucketID);
      var bucketName := ToLower(bucketObjectName);
      ghost var t := D.StartDelete(bucketID);
      D.OneStep(cfg, client.Now(), t, client.plan, client.calls);
      var r := client.Issue(GetCosi(bucketObjectName));
      ghost var next := D.Resume(cfg, t, r);
      PolicyStep(cfg, t, bucketObjectName, r);
      var doomed := false;
      if r.CosiIs? {
        doomed := Deletes(TrimSpace(r.bucket.deletionPolicy));
      } else {
        var className := BucketClassNameFromBucketObjectName(bucketObjectName);
        if className != "" {
          var bc := SyntheticClassFromParameters(cfg.driverName, className, map[]);
          if bc.None? {
            D.AtTheEnd(cfg, client.Now(), next, client.plan, client.calls);
            return D.Internal;
          }
          doomed := Deletes(bc.value.deletionPolicy);
        }
      }
      if !doomed {
        D.AtTheEnd(cfg, client.Now(), next, client.plan, client.calls);
        return D.Success;
      }
      DeletionIsDriven(cfg, client.Now(), t.creds, client.plan, client.calls);
      var err := MinioClient.DeleteBucket(client, bucketName);
      return if err.Some? then Status(cfg, err.value) else D.Success;
    }

    method DriverGrantBucketAccess(bucketID: string, name: string, parameters: map<string, string>, e: D.Extensions)
      returns (accountID: string, keys: Keys, result: D.Result)
      modifies client
      ensures Ends(old(Rest(D.Start(cfg, D.GrantRequest(bucketID, name, parameters, e)))), result)
      ensures result == D.Success ==> accountID == D.AccountOf(name)
      ensures var creds := TrimmedCreds(D.Start(cfg, D.GrantRequest(bucketID, name, parameters, e)).creds);
              result == D.Success ==>
                keys == Keys(creds.accessKey, creds.secretKey) && keys.accessKey != "" && keys.secretKey != ""
    {
      hide D.RunAlone, Drive, TrimSpace, ToLower, Lookup, SyntheticClaimName, BucketClassNameFromBucketObjectName,
           GrantScript, D.Extend, TrimmedCreds, Incomplete, Status, Joined, KeyOr, SecretOr;
      accountID, keys := "", Keys("", "");
      StartsAtEnd(cfg, client.Now(), D.InvalidArgument, client.plan, client.calls);
      if TrimSpace(bucketID) == "" || TrimSpace(name) == "" { return accountID, keys, D.InvalidArgument; }
      var claim := SyntheticClaim(bucketID, parameters);
      if claim.None? || !e.valid { return accountID, keys, D.InvalidArgument; }
      var k := Key(DRIVER_NAMESPACE, SyntheticClaimName(name));
      var existing := Keys(TrimSpace(Lookup(parameters, "existingAccessKey")),
                           TrimSpace(Lookup(parameters, "existingSecretKey")));
      var accessType := D.Extend(claim.value.1, e).accessType;
      var bucketName := ToLower(TrimSpace(bucketID));
      ghost var start := StartCreds(cfg, bucketName, k, existing);
      ghost var script := AccessScript(cfg, bucketName, k, accessType, existing);
      GrantScriptShape(bucketName, Joined(k), accessType, start.accessKey, start.secretKey);
      WorkIsDriven(cfg, client.Now(), start, script, client.plan, client.calls);
      var creds, failure := GrantBucketAccess(client, cfg, k, accessType, bucketName, existing);
      if failure.Some? {
        return accountID, keys, Status(cfg, Err.Provisioning(failure.value.op, bucketName, failure.value.err));
      }
      accountID, keys, result := Joined(k), Keys(creds.accessKey, creds.secretKey), D.Success;
    }

    method DriverRevokeBucketAccess(bucketID: string, accountID: string) returns (result: D.Result)
      modifies client
      ensures Ends(old(Rest(D.Start(cfg, D.RevokeRequest(bucketID, accountID)))), result)
    {
      hide D.RunAlone, Drive, TrimSpace, ToLower, SplitAccount, RevokeScript, Joined, Status;
      StartsAtEnd(cfg, client.Now(), D.InvalidArgument, client.plan, client.calls);
      if TrimSpace(bucketID) == "" { return D.InvalidArgument; }
      var k := SplitAccount(accountID);
      if k.None? { return D.InvalidArgument; }
      var bucketName := ToLower(TrimSpace(bucketID));
      RevokeScriptShape(bucketName, Joined(k.value));
      WorkIsDriven(cfg, client.Now(), Creds(bucketName, "", "", ""), RevokeScript(bucketName, Joined(k.value), ""),
                   client.plan, client.calls);
      MinioClient.RevokeAccess(client, bucketName, Joined(k.value), "");
      result := D.Success;
    }
  }

  lemma StartsAtEnd(cfg: Config, w: World, result: D.Result, plan: nat -> Choice, n: nat)
    ensures D.RunAlone(cfg, w, D.Reject(result), plan, n) == D.Outcome(w, result)
  {
  }

  // Extensions leave the name alone.
  lemma SameName(k: Key, spec: ClaimSpec, e: D.Extensions, bc: BucketClass)
    ensures EffectiveBucketName(k, D.Extend(spec, e), bc) == EffectiveBucketName(k, spec, bc)
  {
    hide TrimSpace, ToLower, Lookup, Joined;
  }

  lemma BucketScriptShape(b: string, spec: ClaimSpec, bc: BucketClass)
    ensures var s := BucketScript(b, spec, bc, End); Keeps(s) && AttachesLast(s) && !Attaches(s)
  {
    BucketKeeps(b, spec, bc, End);
    hide Region, Rules;
    assert AttachesLast(Script.End) && !Attaches(Script.End);
    assert AttachesLast(ReplicationScript(b, spec, End)) && !Attaches(ReplicationScript(b, spec, End));
    assert AttachesLast(LifecycleScript(b, spec, End)) && !Attaches(LifecycleScript(b, spec, End));
    assert AttachesLast(QuotaScript(b, spec, End)) && !Attaches(QuotaScript(b, spec, End));
    assert AttachesLast(BucketScript(b, spec, bc, End).rest) && !Attaches(BucketScript(b, spec, bc, End).rest);
  }

  lemma GrantScriptShape(b: string, account: string, accessType: string, ak: string, sk: string)
    ensures var s := GrantScript(b, account, accessType, ak, sk); Keeps(s) && AttachesLast(s) && Attaches(s)
  {
    GrantKeeps(b, account, accessType, ak, sk);
    hide EqualFold, M.PolicyName;
    var s := GrantScript(b, account, accessType, ak, sk);
    assert AttachesLast(s.rest.rest) && Attaches(s.rest.rest);
    assert AttachesLast(s.rest) && Attaches(s.rest);
  }

  lemma RevokeScriptShape(b: string, account: string)
    ensures var s := RevokeScript(b, account, ""); Keeps(s) && AttachesLast(s) && !Attaches(s)
  {
    RevokeKeeps(b, account, "");
    hide KeyOr, M.PolicyName;
    var s := RevokeScript(b, account, "");
    assert AttachesLast(s.rest) && !Attaches(s.rest);
  }

  // Reading the policy, and what follows from it.
  lemma PolicyStep(cfg: Config, t: D.Thread, name: string, r: Reply)
    requires t.pc == D.ReadPolicy(name)
    ensures D.Resume(cfg, t, r) == D.GotPolicy(cfg, t, name, r)
  {
    hide D.GotPolicy;
  }

  lemma DeletionStep(cfg: Config, creds: Creds, call: BackendCall, rest: Script, r: Reply)
    requires call.RemoveBucket? || rest == Then(RemoveBucket(creds.bucket), End)
    requires !call.AttachPolicy?
    ensures D.Resume(cfg, D.Do(creds, Then(call, rest)), r)
            == match Advance(call, rest, r)
               case Fails(_, err) => D.Thread(D.Finished(Status(cfg, err)), creds)
               case Goes(todo) => D.Do(creds, todo)
  {
    hide Advance;
  }

  // The errors of a deletion are reported as they are.
  lemma DeletionIsDriven(cfg: Config, w: World, creds: Creds, plan: nat -> Choice, n: nat)
    ensures var d := Drive(w, DeleteScript(creds.bucket), plan, n);
            D.RunAlone(cfg, w, D.Do(creds, DeleteScript(creds.bucket)), plan, n)
            == D.Outcome(d.world, if d.failure.Some? then Status(cfg, d.failure.value.err) else D.Success)
  {
    hide Serve, D.Resume, CallError, OperationOf, Status, D.RunAlone;
    var b, t := creds.bucket, D.Do(creds, DeleteScript(creds.bucket));
    var remove: Script := Then(RemoveBucket(b), End);
    D.OneStep(cfg, w, t, plan, n);
    BackendAnswers(w, BucketExists(b), plan(n));
    var (w1, r1) := Serve(w, BucketExists(b), plan(n));
    DeletionStep(cfg, creds, BucketExists(b), remove, r1);
    D.OneStep(cfg, w1, D.Do(creds, remove), plan, n + 1);
    BackendAnswers(w1, RemoveBucket(b), plan(n + 1));
    var (w2, r2) := Serve(w1, RemoveBucket(b), plan(n + 1));
    DeletionStep(cfg, creds, RemoveBucket(b), End, r2);
    NothingToDrive(w1, plan, n + 1);
    NothingToDrive(w2, plan, n + 2);
    D.AtTheEnd(cfg, w1, D.Thread(D.Finished(D.Success), creds), plan, n + 1);
    D.AtTheEnd(cfg, w2, D.Thread(D.Finished(D.Success), creds), plan, n + 2);
    if r1.Refused? {
      D.AtTheEnd(cfg, w1, D.Thread(D.Finished(Status(cfg, CallError(BucketExists(b), r1.err))), creds), plan, n + 1);
    }
    if r2.Refused? {
      D.AtTheEnd(cfg, w2, D.Thread(D.Finished(Status(cfg, CallError(RemoveBucket(b), r2.err))), creds), plan, n + 2);
    }
  }
}
