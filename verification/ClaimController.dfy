/** The BucketClaim reconciler in the order of the program (internal/controller/bucketclaim_controller.go). Each
    method is proved to do what the machine of ClaimMachine does when it runs alone from a given thread. */
module ClaimController {
  import opened Text
  import opened Errors
  import opened Kube
  import opened Cluster
  import opened Provisioning
  import opened MinioClient
  import opened Provisioner
  import C = ClaimMachine
  import M = Minio

  /* Provisioning as one block */

  // The thread after its provisioning script has been driven to the end, or to its failure.
  function AfterScript(cfg: Config, t: C.Thread, failure: Option<Failure>): C.Thread {
    match failure
    case Some(f) => C.ProvisionFails(cfg, t, f.op, f.err)
    case None => C.GotAccess(cfg, t.(creds := TrimmedCreds(t.creds)))
  }

  lemma ProvidedStep(cfg: Config, k: Key, t: C.Thread, call: BackendCall, rest: Script, r: Reply)
    requires !r.Granted?
    ensures C.Resume(cfg, k, C.Provide(cfg, t, Then(call, rest)), r)
            == match Advance(call, rest, r)
               case Fails(op, err) => C.ProvisionFails(cfg, t, op, err)
               case Goes(todo) => C.Provide(cfg, t, todo)
  {
    hide Advance, C.ResumeAdmission, C.ResumeFinal, C.GotSecret, C.StoredSecret, C.StoredStatus, C.GotCosi,
         TrimmedCreds, Complete, Incomplete;
  }

  lemma {:induction false} ProvisionIsDriven(cfg: Config, k: Key, w: World, t: C.Thread, todo: Script,
                                             plan: nat -> Choice, n: nat)
    requires AllMinio(todo)
    ensures var d := Drive(w, todo, plan, n);
            C.RunAlone(cfg, k, w, C.Provide(cfg, t, todo), plan, n)
              == C.RunAlone(cfg, k, d.world, AfterScript(cfg, t, d.failure), plan, d.calls)
    decreases Size(todo)
  {
    hide Serve, C.RunAlone, C.Resume, Advance, C.ProvisionFails, C.GotAccess, TrimmedCreds;
    if todo.Then? {
      var u := C.Provide(cfg, t, todo);
      C.OneStep(cfg, k, w, u, plan, n);
      BackendAnswers(w, todo.call, plan(n));
      var (w', r) := Serve(w, todo.call, plan(n));
      ProvidedStep(cfg, k, t, todo.call, todo.rest, r);
      AdvanceMinio(todo.call, todo.rest, r);
      AdvanceShortens(todo.call, todo.rest, r);
      if Advance(todo.call, todo.rest, r).Goes? {
        ProvisionIsDriven(cfg, k, w', t, Advance(todo.call, todo.rest, r).todo, plan, n + 1);
      }
    }
  }

  lemma ElsewhereScript(k: Key, c: Claim, bc: BucketClass, creds: Creds)
    requires !UsesMinio(bc)
    ensures C.ProvisionScript(k, c, bc, creds) == Then(ForeignGrant, End)
  {
    hide UsesMinio, BucketScript, GrantScript, Joined;
  }

  lemma ScriptsAgree(cfg: Config, k: Key, c: Claim, bc: BucketClass, data: map<Entry, string>)
    requires UsesMinio(bc)
    ensures var existing := Keys(TrimSpace(Lookup(data, AccessKeyID)), TrimSpace(Lookup(data, AccessSecretKey)));
            var creds := C.ChosenCreds(cfg, k, c, bc, data);
            && creds == StartCreds(cfg, EffectiveBucketName(k, c.spec, bc), k, existing)
            && C.ProvisionScript(k, c, bc, creds) == WholeScript(cfg, k, c.spec, bc, existing)
            && AllMinio(C.ProvisionScript(k, c, bc, creds))
  {
    hide UsesMinio, EffectiveBucketName, TrimSpace, Lookup, Joined, KeyOr, SecretOr, Region, Rules, EqualFold,
         M.PolicyName;
    var creds := C.ChosenCreds(cfg, k, c, bc, data);
    var s3 := GrantScript(creds.bucket, Joined(k), c.spec.accessType, creds.accessKey, creds.secretKey);
    assert AllMinio(s3) by {
      GrantIsMinio(creds.bucket, Joined(k), c.spec.accessType, creds.accessKey, creds.secretKey);
    }
    assert AllMinio(ReplicationScript(creds.bucket, c.spec, s3));
    assert AllMinio(LifecycleScript(creds.bucket, c.spec, s3));
    assert AllMinio(QuotaScript(creds.bucket, c.spec, s3));
    assert AllMinio(C.ProvisionScript(k, c, bc, creds).rest);
  }

  lemma KeysPhase(cfg: Config, k: Key, t: C.Thread, r: Reply)
    requires t.pc.ReadKeys?
    ensures var creds := C.ChosenCreds(cfg, k, t.claim, t.bc, if r.SecretIs? then r.secret.data else map[]);
            C.Resume(cfg, k, t, r) == C.Provide(cfg, t.(creds := creds), C.ProvisionScript(k, t.claim, t.bc, creds))
  {
    hide C.ResumeProvision, C.ResumeFinal, C.ChosenCreds, C.ProvisionScript, C.Provide;
  }

  // The thread whose failure is reported, if there is one: the check for completeness comes after trimming.
  function Failing(t: C.Thread, d: Driven): C.Thread {
    if d.failure.Some? then t else t.(creds := TrimmedCreds(t.creds))
  }

  lemma DrivenThread(cfg: Config, t: C.Thread, d: Driven)
    ensures AfterScript(cfg, t, d.failure)
            == match Checked(d, t.creds)
               case Some(f) => C.ProvisionFails(cfg, Failing(t, d), f.op, f.err)
               case None => t.(creds := TrimmedCreds(t.creds), pc := C.FetchSecret)
    ensures Failing(t, d).creds.bucket == t.creds.bucket
  {
    hide C.ProvisionFails, Complete, Incomplete, TrimSpace;
  }

  /* Teardown as one block */

  lemma WithdrawnStep(cfg: Config, k: Key, t: C.Thread, call: BackendCall, rest: Script, r: Reply)
    ensures C.Resume(cfg, k, C.Withdraw(t, Then(call, rest)), r)
            == C.Withdraw(t, if Advance(call, rest, r).Goes? then Advance(call, rest, r).todo else End)
  {
    hide Advance, C.ResumeAdmission, C.ResumeProvision, DeleteScript, UsesMinio, Deletes, C.BeginRevoke,
         C.GotFinalClass, C.GotFinalProvider, C.Deleted;
  }

  lemma {:induction false} RevocationIsDriven(cfg: Config, k: Key, w: World, t: C.Thread, todo: Script,
                                              plan: nat -> Choice, n: nat)
    ensures var d := Drive(w, todo, plan, n);
            C.RunAlone(cfg, k, w, C.Withdraw(t, todo), plan, n)
              == C.RunAlone(cfg, k, d.world, C.Withdraw(t, End), plan, d.calls)
    decreases Size(todo)
  {
    hide Serve, C.RunAlone, C.Resume, Advance, C.Destroy, C.Destruction, Deletes;
    if todo.Then? {
      C.OneStep(cfg, k, w, C.Withdraw(t, todo), plan, n);
      var (w', r) := Serve(w, todo.call, plan(n));
      WithdrawnStep(cfg, k, t, todo.call, todo.rest, r);
      AdvanceShortens(todo.call, todo.rest, r);
      if Advance(todo.call, todo.rest, r).Goes? {
        RevocationIsDriven(cfg, k, w', t, Advance(todo.call, todo.rest, r).todo, plan, n + 1);
      }
    }
  }

  lemma DestroyedStep(cfg: Config, k: Key, t: C.Thread, call: BackendCall, rest: Script, r: Reply)
    ensures C.Resume(cfg, k, C.Destroy(t, Then(call, rest)), r)
            == match Advance(call, rest, r)
               case Fails(_, _) => C.Finish(t, C.Errored)
               case Goes(todo) => C.Destroy(t, todo)
  {
    hide Advance, C.ResumeAdmission, C.ResumeProvision, C.BeginRevoke, C.GotFinalClass, C.GotFinalProvider, C.Revoked;
  }

  lemma {:induction false} DeletionIsDriven(cfg: Config, k: Key, w: World, t: C.Thread, todo: Script,
                                            plan: nat -> Choice, n: nat)
    ensures var d := Drive(w, todo, plan, n);
            C.RunAlone(cfg, k, w, C.Destroy(t, todo), plan, n)
            == C.RunAlone(cfg, k, d.world, if d.failure.Some? then C.Finish(t, C.Errored)
                                           else t.(pc := C.DropFinalizer), plan, d.calls)
    decreases Size(todo)
  {
    hide Serve, C.RunAlone, C.Resume, Advance;
    if todo.Then? {
      C.OneStep(cfg, k, w, C.Destroy(t, todo), plan, n);
      var (w', r) := Serve(w, todo.call, plan(n));
      DestroyedStep(cfg, k, t, todo.call, todo.rest, r);
      AdvanceShortens(todo.call, todo.rest, r);
      if Advance(todo.call, todo.rest, r).Goes? {
        DeletionIsDriven(cfg, k, w', t, Advance(todo.call, todo.rest, r).todo, plan, n + 1);
      }
    }
  }

  // The thread that revokes, its names chosen.
  function Revoker(k: Key, u: C.Thread, accessKey: string): C.Thread {
    u.(creds := Creds(FinalBucketName(k, u.claim), KeyOr(accessKey, Joined(k)), "", ""))
  }

  lemma RevocationBegins(k: Key, u: C.Thread, accessKey: string)
    ensures C.BeginRevoke(k, u, accessKey)
            == C.Withdraw(Revoker(k, u, accessKey),
                          if UsesMinio(u.bc) then RevokeScript(FinalBucketName(k, u.claim), Joined(k), accessKey)
                          else Then(ForeignRevoke, End))
  {
    hide FinalBucketName, KeyOr, Joined, RevokeScript, UsesMinio, C.Withdraw;
  }

  // What follows a revocation.
  lemma RevocationEnds(t: C.Thread)
    ensures C.Withdraw(t, End)
            == if Deletes(t.bc.deletionPolicy)
               then C.Destroy(t, if UsesMinio(t.bc) then DeleteScript(t.creds.bucket) else Then(ForeignDelete, End))
               else t.(pc := C.DropFinalizer)
  {
    hide Deletes, UsesMinio, DeleteScript, C.Destroy;
  }

  lemma ChosenBucket(cfg: Config, k: Key, c: Claim, bc: BucketClass, data: map<Entry, string>)
    ensures C.ChosenCreds(cfg, k, c, bc, data).bucket == EffectiveBucketName(k, c.spec, bc)
  {
    hide EffectiveBucketName, KeyOr, SecretOr, Joined, TrimSpace, Lookup;
  }

  lemma ForeignErrors()
    ensures forall err :: CallError(ForeignGrant, err) == err
    ensures OperationOf(ForeignGrant) == Operation.CreateBucket
  {
  }

  class BucketClaimReconciler {
    const cfg: Config
    const client: Client

    constructor (cfg: Config, client: Client)
      ensures this.cfg == cfg && this.client == client
    {
      this.cfg, this.client := cfg, client;
    }

    // What is still to come, when `t` runs alone from here.
    ghost function Rest(k: Key, t: C.Thread): C.Outcome
      reads client
    {
      C.RunAlone(cfg, k, client.Now(), t, client.plan, client.calls)
    }

    // Nothing is to come any more: the activation ends with this result.
    ghost predicate Ends(k: Key, o: C.Outcome, result: C.Result)
      reads client
    {
      o == C.Outcome(client.Now(), result, client.calls)
    }

    // One call of the thread.
    method Ask(k: Key, call: Call, ghost t: C.Thread) returns (r: Reply, ghost next: C.Thread)
      requires !t.pc.Finished? && call == C.Request(k, t)
      modifies client
      ensures next == C.Resume(cfg, k, t, r) && Rest(k, next) == old(Rest(k, t))
    {
      hide C.RunAlone, C.Request, C.Resume, Serve;
      C.OneStep(cfg, k, client.Now(), t, client.plan, client.calls);
      r := client.Issue(call);
      next := C.Resume(cfg, k, t, r);
    }

    // mergeClaimStatus
    method MergeClaimStatus(k: Key, note: C.Note, after: C.After, ghost t: C.Thread) returns (ghost next: C.Thread)
      requires t.pc == C.NoteFetch(note, after)
      modifies client
      ensures next == C.Continue(t, after) && Rest(k, next) == old(Rest(k, t))
    {
      hide C.RunAlone, C.ResumeProvision, C.ResumeFinal, C.GotKeys, C.GotProvider, C.GotClass, C.GotClaim;
      var r: Reply;
      r, next := Ask(k, GetClaim(k), t);
      if !r.ClaimIs? { return; }
      var c := r.claim;
      if c.deleting { return; }
      if IsBound(c.status) { return; }
      c := c.(status := c.status.(phase := note.phase, bucketReady := false,
                                  ready := Some(Condition(false, c.generation, note.reason))));
      r, next := Ask(k, PutClaimStatus(k, c), next);
    }

    // A note with which the activation ends.
    method NoteAndStop(k: Key, note: C.Note, result: C.Result, ghost t: C.Thread)
      requires t.pc == C.NoteFetch(note, C.Stop(result))
      modifies client
      ensures Ends(k, old(Rest(k, t)), result)
    {
      hide C.RunAlone, C.Request, C.Resume;
      ghost var next := MergeClaimStatus(k, note, C.Stop(result), t);
      C.AtTheEnd(cfg, k, client.Now(), next, client.plan, client.calls);
    }

    /** Reconcile */
    method Reconcile(k: Key) returns (result: C.Result)
      modifies client
      ensures Ends(k, old(Rest(k, C.START)), result)
    {
      hide C.RunAlone, C.ResumeProvision, C.ResumeFinal, C.GotKeys, C.GotProvider, C.GotClass, C.GotNoted, C.UpToDate;
      var r: Reply;
      ghost var t;
      r, t := Ask(k, GetClaim(k), C.START);
      if !r.ClaimIs? {
        C.AtTheEnd(cfg, k, client.Now(), t, client.plan, client.calls);
        return if r.NotFound? then C.Success else C.Errored;
      }
      var claim := r.claim;
      if claim.deleting {
        if ClaimFinalizer in claim.finalizers {
          result := FinalizeAndRelease(k, claim, t);
          return;
        }
        C.AtTheEnd(cfg, k, client.Now(), t, client.plan, client.calls);
        return C.Success;
      }
      if ClaimFinalizer !in claim.finalizers {
        claim := claim.(finalizers := claim.finalizers + {ClaimFinalizer});
        r, t := Ask(k, UpdateClaim(k, claim), t);
        if !r.ClaimIs? {
          C.AtTheEnd(cfg, k, client.Now(), t, client.plan, client.calls);
          return C.Errored;
        }
        claim := r.claim;
      }
      if C.UpToDate(claim) {
        C.AtTheEnd(cfg, k, client.Now(), t, client.plan, client.calls);
        return C.Success;
      }
      result := ServeClaim(k, claim, t);
    }

    // From the fast path on: the class, the provider and the existing keys.
    method ServeClaim(k: Key, claim: Claim, ghost t0: C.Thread) returns (result: C.Result)
      requires t0.pc.FetchClass? && t0.claim == claim
      modifies client
      ensures Ends(k, old(Rest(k, t0)), result)
    {
      hide C.RunAlone, C.ResumeProvision, C.ResumeFinal, C.GotKeys, C.GotNoted, C.GotClaim, IsBound;
      var r: Reply;
      ghost var t;
      r, t := Ask(k, GetClass(claim.spec.className), t0);
      if r.NotFound? {
        NoteAndStop(k, C.PROVISIONING, C.Requeue(10), t);
        return C.Requeue(10);
      }
      if !r.ClassIs? {
        NoteAndStop(k, C.NotReady(BucketClassLookupFailed), C.Errored, t);
        return C.Errored;
      }
      var bc := r.bc;
      if !Handled(bc) {
        NoteAndStop(k, C.NotReady(UnsupportedDriver), C.Success, t);
        return C.Success;
      }
      ghost var u := t;
      r, t := Ask(k, ResolveProvider(bc), t);
      if !r.Resolved? {
        result := ReportProvider(k, r, u);
        return;
      }
      if !IsBound(claim.status) { t := MergeClaimStatus(k, C.PROVISIONING, C.Proceed, t); }
      result := ReadKeysAndProvision(k, claim, bc, t);
    }

    method ReportProvider(k: Key, r: Reply, ghost u: C.Thread) returns (result: C.Result)
      requires !r.Resolved?
      modifies client
      ensures Ends(k, old(Rest(k, C.GotProvider(u, r))), result)
    {
      hide C.RunAlone, C.Request, C.Resume, IsBound;
      ghost var t := C.GotProvider(u, r);
      if r.Unresolved? && r.why.Missing? {
        NoteAndStop(k, C.PROVISIONING, C.Requeue(10), t);
        return C.Requeue(10);
      }
      if r.Unresolved? && r.why.Unsupported? {
        NoteAndStop(k, C.NotReady(UnsupportedBackend), C.Success, t);
        return C.Success;
      }
      if r.Unresolved? && r.why.AwsCredentials? {
        NoteAndStop(k, C.NotReady(AwsCredentialSecretInvalid), C.Success, t);
        return C.Success;
      }
      if r.Unresolved? && r.why.NotImplemented? {
        NoteAndStop(k, C.NotReady(UnsupportedBackend), C.Success, t);
        return C.Success;
      }
      NoteAndStop(k, C.NotReady(MinioCredentialSecretInvalid), C.Errored, t);
      return C.Errored;
    }

    method ReadKeysAndProvision(k: Key, claim: Claim, bc: BucketClass, ghost t0: C.Thread) returns (result: C.Result)
      requires t0.pc.ReadKeys? && t0.claim == claim && t0.bc == bc
      modifies client
      ensures Ends(k, old(Rest(k, t0)), result)
    {
      hide C.RunAlone, C.Resume, C.ProvisionScript, C.ChosenCreds, UsesMinio, Drive, WholeScript, StartCreds, TrimSpace,
           Lookup, EffectiveBucketName, C.GotAccess, C.ProvisionFails, TrimmedCreds, Complete, Incomplete;
      var r: Reply;
      ghost var t;
      r, t := Ask(k, GetSecret(CredentialsKey(k)), t0);
      var data := if r.SecretIs? then r.secret.data else map[];
      KeysPhase(cfg, k, t0, r);
      ghost var start := t0.(creds := C.ChosenCreds(cfg, k, claim, bc, data));
      ghost var script := C.ProvisionScript(k, claim, bc, start.creds);
      ChosenBucket(cfg, k, claim, bc, data);
      assert t == C.Provide(cfg, start, script);
      if UsesMinio(bc) {
        var existing := Keys(TrimSpace(Lookup(data, AccessKeyID)), TrimSpace(Lookup(data, AccessSecretKey)));
        ScriptsAgree(cfg, k, claim, bc, data);
        ProvisionIsDriven(cfg, k, client.Now(), start, script, client.plan, client.calls);
        ghost var d := Drive(client.Now(), script, client.plan, client.calls);
        var creds, failure := ProvisionBucketAndGrantAccess(client, cfg, k, claim.spec, bc, existing);
        DrivenThread(cfg, start, d);
        if failure.Some? {
          result := ReportFailure(k, failure.value, EffectiveBucketName(k, claim.spec, bc), Failing(start, d));
        } else {
          result := Publish(k, claim, bc, creds, start.(creds := creds, pc := C.FetchSecret));
        }
      } else {
        ElsewhereScript(k, claim, bc, start.creds);
        result := ProvisionElsewhere(k, claim, bc, start);
      }
    }

    method ReportFailure(k: Key, f: Failure, bucketName: string, ghost u: C.Thread) returns (result: C.Result)
      requires u.creds.bucket == bucketName
      modifies client
      ensures Ends(k, old(Rest(k, C.ProvisionFails(cfg, u, f.op, f.err))), result)
    {
      hide C.RunAlone, C.Request, C.Resume;
      ghost var t := C.ProvisionFails(cfg, u, f.op, f.err);
      if cfg.isTransient(Err.Provisioning(f.op, bucketName, f.err)) {
        NoteAndStop(k, C.PROVISIONING, C.Requeue(15), t);
        return C.Requeue(15);
      }
      var reason := ConfigureBucketFailed;
      match f.op {
        case CreateBucket => reason := CreateBucketFailed;
        case GrantAccess => reason := GrantAccessFailed;
        case _ =>
      }
      NoteAndStop(k, C.NotReady(reason), C.Errored, t);
      return C.Errored;
    }

    // A provider other than MinIO, as one call.
    method ProvisionElsewhere(k: Key, claim: Claim, bc: BucketClass, ghost start: C.Thread) returns (result: C.Result)
      requires start.claim == claim && start.bc == bc && start.creds.bucket == EffectiveBucketName(k, claim.spec, bc)
      modifies client
      ensures Ends(k, old(Rest(k, C.Provide(cfg, start, Then(ForeignGrant, End)))), result)
    {
      hide C.RunAlone, C.ResumeAdmission, C.ResumeFinal, C.GotSecret, C.StoredSecret, C.StoredStatus, C.GotCosi,
           C.ProvisionFails, TrimSpace, Incomplete, EffectiveBucketName, CallError;
      var bucketName := EffectiveBucketName(k, claim.spec, bc);
      ghost var t := C.Provide(cfg, start, Then(ForeignGrant, End));
      ForeignAnswers(client.Now(), ForeignGrant, client.plan(client.calls));
      ForeignErrors();
      var r: Reply;
      C.OneStep(cfg, k, client.Now(), t, client.plan, client.calls);
      r := client.Issue(ForeignGrant);
      ghost var next := C.Resume(cfg, k, t, r);
      if r.Refused? {
        result := ReportFailure(k, Failure(Operation.CreateBucket, r.err), bucketName, t);
        return;
      }
      if r.RefusedAt? {
        result := ReportFailure(k, Failure(r.op, r.err), bucketName, t);
        return;
      }
      var creds := Creds(bucketName, TrimSpace(r.accessKey), TrimSpace(r.secretKey), TrimSpace(r.endpoint));
      if creds.accessKey == "" || creds.secretKey == "" || creds.endpoint == "" {
        result := ReportFailure(k, Failure(Operation.GrantAccess, Incomplete()), bucketName, t.(creds := creds));
        return;
      }
      result := Publish(k, claim, bc, creds, next);
    }

    // CreateOrUpdate of the credentials Secret, then the status, then the COSI Bucket.
    method Publish(k: Key, claim: Claim, bc: BucketClass, creds: Creds, ghost t0: C.Thread) returns (result: C.Result)
      requires t0.pc.FetchSecret? && t0.claim == claim && t0.bc == bc && t0.creds == creds
      modifies client
      ensures Ends(k, old(Rest(k, t0)), result)
    {
      hide C.RunAlone, C.ResumeAdmission, C.ResumeFinal, C.Provisioned, C.StoredStatus, C.GotCosi, TrimSpace;
      var r: Reply;
      ghost var t;
      r, t := Ask(k, GetSecret(CredentialsKey(k)), t0);
      if r.SecretIs? && r.secret.owner.Some? && r.secret.owner.value != claim.uid {
        NoteAndStop(k, C.NotReady(ReconcileSecretFailed), C.Errored, t);
        return C.Errored;
      }
      if !r.SecretIs? && !r.NotFound? {
        NoteAndStop(k, C.NotReady(ReconcileSecretFailed), C.Errored, t);
        return C.Errored;
      }
      var secret := if r.SecretIs? then r.secret else Secret(0, None, map[]);
      var data := secret.data[AccessKeyID := creds.accessKey][AccessSecretKey := creds.secretKey];
      secret := secret.(owner := Some(claim.uid), data := data[BucketName := creds.bucket][Endpoint := creds.endpoint]);
      r, t := Ask(k, if r.NotFound? then CreateSecret(CredentialsKey(k), secret)
                     else UpdateSecret(CredentialsKey(k), secret), t);
      if !r.SecretIs? {
        NoteAndStop(k, C.NotReady(ReconcileSecretFailed), C.Errored, t);
        return C.Errored;
      }
      result := UpdateStatus(k, bc, creds, t);
    }

    method UpdateStatus(k: Key, bc: BucketClass, creds: Creds, ghost t0: C.Thread) returns (result: C.Result)
      requires t0.pc.Refetch? && t0.bc == bc && t0.creds == creds
      modifies client
      ensures Ends(k, old(Rest(k, t0)), result)
    {
      hide C.RunAlone, C.ResumeAdmission, C.ResumeFinal, C.Provisioned, C.GotSecret, C.GotCosi, TrimSpace;
      var r: Reply;
      ghost var t;
      r, t := Ask(k, GetClaim(k), t0);
      if !r.ClaimIs? {
        C.AtTheEnd(cfg, k, client.Now(), t, client.plan, client.calls);
        return C.Errored;
      }
      var c := r.claim;
      c := c.(status := c.status.(bucketName := creds.bucket, endpoint := creds.endpoint,
                                  secretReference := Some(CredentialsKey(k))));
      c := c.(status := c.status.(phase := Bound, bucketReady := true,
                                  ready := Some(Condition(true, c.generation, BucketProvisioned))));
      r, t := Ask(k, PutClaimStatus(k, c), t);
      if !r.ClaimIs? {
        C.AtTheEnd(cfg, k, client.Now(), t, client.plan, client.calls);
        return C.Errored;
      }
      if cfg.enableCosi && TrimSpace(creds.bucket) != "" {
        result := EnsureCosiBucket(k, bc, TrimSpace(creds.bucket), t);
        return;
      }
      C.AtTheEnd(cfg, k, client.Now(), t, client.plan, client.calls);
      return C.Success;
    }

    method EnsureCosiBucket(k: Key, bc: BucketClass, name: string, ghost t0: C.Thread) returns (result: C.Result)
      requires t0.pc.FetchCosi? && t0.bc == bc && TrimSpace(t0.creds.bucket) == name
      modifies client
      ensures Ends(k, old(Rest(k, t0)), result)
    {
      hide C.RunAlone, C.ResumeAdmission, C.ResumeFinal, C.Provisioned, C.GotSecret, TrimSpace;
      var r: Reply;
      ghost var t;
      r, t := Ask(k, GetCosi(name), t0);
      if r.NotFound? {
        r, t := Ask(k, CreateCosi(name, CosiBucket(0, bc.deletionPolicy, true, name)), t);
      } else if r.CosiIs? {
        r, t := Ask(k, PutCosiStatus(name, r.bucket.(bucketReady := true, bucketID := name)), t);
      }
      C.AtTheEnd(cfg, k, client.Now(), t, client.plan, client.calls);
      return if r.CosiIs? then C.Success else C.Errored;
    }

    // finalizeBucketClaim, and the removal of the finalizer when it succeeds.
    method FinalizeAndRelease(k: Key, claim: Claim, ghost t0: C.Thread) returns (result: C.Result)
      requires t0.pc.FinalClass? && t0.claim == claim
      modifies client
      ensures Ends(k, old(Rest(k, t0)), result)
    {
      hide C.RunAlone, C.ResumeAdmission, C.ResumeProvision, C.BeginRevoke, C.Revoked, C.Deleted, TrimSpace, Lookup;
      var r: Reply;
      ghost var t;
      r, t := Ask(k, GetClass(claim.spec.className), t0);
      if r.NotFound? {
        result := Release(k, claim, t);
        return;
      }
      if !r.ClassIs? {
        C.AtTheEnd(cfg, k, client.Now(), t, client.plan, client.calls);
        return C.Errored;
      }
      var bc := r.bc;
      ghost var u := t;
      r, t := Ask(k, ResolveProvider(bc), t);
      if r.Unresolved? && (r.why.Unsupported? || r.why.AwsCredentials? || r.why.NotImplemented?) {
        result := Release(k, claim, t);
        return;
      }
      if !r.Resolved? {
        C.AtTheEnd(cfg, k, client.Now(), t, client.plan, client.calls);
        return C.Errored;
      }
      var accessKey := "";
      if claim.status.secretReference.Some? {
        u := t;
        r, t := Ask(k, GetSecret(claim.status.secretReference.value), t);
        if r.SecretIs? { accessKey := TrimSpace(Lookup(r.secret.data, AccessKeyID)); }
      }
      result := TearDown(k, claim, bc, accessKey, u);
    }

    method Release(k: Key, claim: Claim, ghost t0: C.Thread) returns (result: C.Result)
      requires t0.pc.DropFinalizer? && t0.claim == claim
      modifies client
      ensures Ends(k, old(Rest(k, t0)), result)
    {
      hide C.RunAlone, C.ResumeAdmission, C.ResumeProvision, C.BeginRevoke, C.Revoked, C.Deleted;
      var r: Reply;
      ghost var t;
      r, t := Ask(k, UpdateClaim(k, claim.(finalizers := claim.finalizers - {ClaimFinalizer})), t0);
      C.AtTheEnd(cfg, k, client.Now(), t, client.plan, client.calls);
      return if r.ClaimIs? then C.Success else C.Errored;
    }

    method TearDown(k: Key, claim: Claim, bc: BucketClass, accessKey: string, ghost u: C.Thread)
      returns (result: C.Result)
      requires u.claim == claim && u.bc == bc
      modifies client
      ensures Ends(k, old(Rest(k, C.BeginRevoke(k, u, accessKey))), result)
    {
      hide C.RunAlone, C.Resume, C.BeginRevoke, C.Withdraw, C.Destroy, Drive, FinalBucketName, KeyOr, Joined,
           RevokeScript, DeleteScript, UsesMinio, Deletes;
      ghost var t := Revoker(k, u, accessKey);
      RevocationBegins(k, u, accessKey);
      RevocationEnds(t);
      if UsesMinio(bc) {
        ghost var script := RevokeScript(FinalBucketName(k, claim), Joined(k), accessKey);
        RevocationIsDriven(cfg, k, client.Now(), t, script, client.plan, client.calls);
        ghost var d := Drive(client.Now(), script, client.plan, client.calls);
        DeletionIsDriven(cfg, k, d.world, t, DeleteScript(FinalBucketName(k, claim)), client.plan, d.calls);
        var err := RevokeAccessAndMaybeDeleteBucket(client, k, claim, bc, accessKey);
        if err.Some? {
          C.AtTheEnd(cfg, k, client.Now(), C.Finish(t, C.Errored), client.plan, client.calls);
          return C.Errored;
        }
        result := Release(k, claim, t.(pc := C.DropFinalizer));
      } else {
        result := TearDownElsewhere(k, claim, bc, t);
      }
    }

    // A provider other than MinIO: one call to revoke, one to delete.
    method TearDownElsewhere(k: Key, claim: Claim, bc: BucketClass, ghost t: C.Thread) returns (result: C.Result)
      requires t.claim == claim && t.bc == bc && !UsesMinio(bc)
      modifies client
      ensures Ends(k, old(Rest(k, C.Withdraw(t, Then(ForeignRevoke, End)))), result)
    {
      hide C.RunAlone, C.Resume, C.Withdraw, C.Destroy, UsesMinio, Deletes, Serve, CallError;
      RevocationIsDriven(cfg, k, client.Now(), t, Then(ForeignRevoke, End), client.plan, client.calls);
      RevocationEnds(t);
      var r := client.Issue(ForeignRevoke);
      if Deletes(bc.deletionPolicy) {
        DeletionIsDriven(cfg, k, client.Now(), t, Then(ForeignDelete, End), client.plan, client.calls);
        r := client.Issue(ForeignDelete);
        if r.Refused? || r.RefusedAt? {
          C.AtTheEnd(cfg, k, client.Now(), C.Finish(t, C.Errored), client.plan, client.calls);
          return C.Errored;
        }
      }
      result := Release(k, claim, t.(pc := C.DropFinalizer));
    }
  }
}
