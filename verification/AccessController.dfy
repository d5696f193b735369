/** The BucketAccess reconciler in the order of the program (internal/controller/bucketaccess_controller.go),
    proved to do what the machine of AccessMachine does when it runs alone. */
module AccessController {
  import opened Text
  import opened Errors
  import opened Kube
  import opened Cluster
  import opened Provisioning
  import opened MinioClient
  import A = AccessMachine
  import M = Minio

  /* Grants and revocations as one block */

  lemma GrantStep(cfg: Config, k: Key, t: A.Thread, call: BackendCall, rest: Script, r: Reply)
    requires !r.Granted?
    ensures A.Resume(cfg, k, A.Give(t, Then(call, rest)), r)
            == match Advance(call, rest, r)
               case Fails(_, _) => A.Finish(t, A.Requeue(5))
               case Goes(todo) => A.Give(t, todo)
  {
    hide Advance, TrimSpace, A.BeginGrant, A.GotRevokeClaim, A.GotRevokeProvider, A.GotRevocation, A.GotObject,
         A.KnownKey, KeyOr;
  }

  lemma {:induction false} GrantIsDriven(cfg: Config, k: Key, w: World, t: A.Thread, todo: Script, plan: nat -> Choice,
                                         n: nat)
    requires AllMinio(todo)
    ensures var d := Drive(w, todo, plan, n);
            A.RunAlone(cfg, k, w, A.Give(t, todo), plan, n)
            == A.RunAlone(cfg, k, d.world, if d.failure.Some? then A.Finish(t, A.Requeue(5))
                                           else t.(pc := A.ReadInfo), plan, d.calls)
    decreases Size(todo)
  {
    hide Serve, A.RunAlone, A.Resume, Advance;
    if todo.Then? {
      A.OneStep(cfg, k, w, A.Give(t, todo), plan, n);
      BackendAnswers(w, todo.call, plan(n));
      var (w', r) := Serve(w, todo.call, plan(n));
      GrantStep(cfg, k, t, todo.call, todo.rest, r);
      AdvanceMinio(todo.call, todo.rest, r);
      AdvanceShortens(todo.call, todo.rest, r);
      if Advance(todo.call, todo.rest, r).Goes? {
        GrantIsDriven(cfg, k, w', t, Advance(todo.call, todo.rest, r).todo, plan, n + 1);
      }
    }
  }

  lemma RevokeStep(cfg: Config, k: Key, t: A.Thread, call: BackendCall, rest: Script, r: Reply)
    ensures A.Resume(cfg, k, A.Withdraw(t, Then(call, rest)), r)
            == match Advance(call, rest, r)
               case Fails(_, _) => A.Finish(t, A.Requeue(5))
               case Goes(todo) => A.Withdraw(t, todo)
  {
    hide Advance, TrimSpace, A.BeginGrant, A.GotRevokeClaim, A.GotRevokeProvider, A.GotGrant, A.GotObject, A.KnownKey,
         KeyOr;
  }

  lemma {:induction false} RevokeIsDriven(cfg: Config, k: Key, w: World, t: A.Thread, todo: Script, plan: nat -> Choice,
                                          n: nat)
    ensures var d := Drive(w, todo, plan, n);
            A.RunAlone(cfg, k, w, A.Withdraw(t, todo), plan, n)
            == A.RunAlone(cfg, k, d.world, if d.failure.Some? then A.Finish(t, A.Requeue(5))
                                           else t.(pc := A.DeleteInfo), plan, d.calls)
    decreases Size(todo)
  {
    hide Serve, A.RunAlone, A.Resume, Advance;
    if todo.Then? {
      A.OneStep(cfg, k, w, A.Withdraw(t, todo), plan, n);
      var (w', r) := Serve(w, todo.call, plan(n));
      RevokeStep(cfg, k, t, todo.call, todo.rest, r);
      AdvanceShortens(todo.call, todo.rest, r);
      if Advance(todo.call, todo.rest, r).Goes? {
        RevokeIsDriven(cfg, k, w', t, Advance(todo.call, todo.rest, r).todo, plan, n + 1);
      }
    }
  }

  lemma GrantBegins(cfg: Config, k: Key, t: A.Thread)
    ensures A.BeginGrant(cfg, k, t)
            == A.Give(t.(accessKey := M.AccessKeyForAccount(Joined(k))),
                      if UsesMinio(t.bc) then
                        GrantScript(t.bucket, Joined(k), "ReadWrite", M.AccessKeyForAccount(Joined(k)),
                                    M.SecretForAccount(cfg.digest, Joined(k)))
                      else Then(ForeignGrant, End))
  {
    hide UsesMinio, GrantScript, M.AccessKeyForAccount, M.SecretForAccount, Joined, A.Give;
  }

  lemma ForeignGrantStep(cfg: Config, k: Key, t: A.Thread, r: Reply)
    requires r.Granted? || r.Refused? || r.RefusedAt?
    ensures A.Resume(cfg, k, A.Give(t, Then(ForeignGrant, End)), r)
            == if r.Granted? then t.(accessKey := r.accessKey, pc := A.ReadInfo) else A.Finish(t, A.Requeue(5))
  {
    hide TrimSpace, A.BeginGrant, A.GotRevokeClaim, A.GotRevokeProvider, A.GotRevocation, A.GotObject, A.KnownKey,
         KeyOr, CallError, OperationOf;
  }

  lemma ForeignRevokeDrive(w: World, plan: nat -> Choice, n: nat)
    ensures var (w', r) := Serve(w, ForeignRevoke, plan(n));
            var d := Drive(w, Then(ForeignRevoke, End), plan, n);
            d.world == w' && d.calls == n + 1 && (d.failure.None? <==> r.Done?)
  {
    hide Serve, CallError, OperationOf;
    ForeignAnswers(w, ForeignRevoke, plan(n));
    NothingToDrive(Serve(w, ForeignRevoke, plan(n)).0, plan, n + 1);
  }

  class BucketAccessReconciler {
    const cfg: Config
    const client: Client

    constructor (cfg: Config, client: Client)
      ensures this.cfg == cfg && this.client == client
    {
      this.cfg, this.client := cfg, client;
    }

    // What is still to come, when `t` runs alone from here.
    ghost function Rest(k: Key, t: A.Thread): A.Outcome
      reads client
    {
      A.RunAlone(cfg, k, client.Now(), t, client.plan, client.calls)
    }

    // Nothing is to come any more: the activation ends with this result.
    ghost predicate Ends(o: A.Outcome, result: A.Result)
      reads client
    {
      o == A.Outcome(client.Now(), result, client.calls)
    }

    // One call of the thread.
    method Ask(k: Key, call: Call, ghost t: A.Thread) returns (r: Reply, ghost next: A.Thread)
      requires !t.pc.Finished? && call == A.Request(k, t)
      modifies client
      ensures next == A.Resume(cfg, k, t, r) && Rest(k, next) == old(Rest(k, t))
    {
      hide A.RunAlone, A.Request, A.Resume, Serve;
      A.OneStep(cfg, k, client.Now(), t, client.plan, client.calls);
      r := client.Issue(call);
      next := A.Resume(cfg, k, t, r);
    }

    method Finish(k: Key, result: A.Result, ghost t: A.Thread) returns (out: A.Result)
      requires t.pc == A.Finished(result)
      ensures out == result && Ends(Rest(k, t), out)
    {
      hide A.RunAlone;
      A.AtTheEnd(cfg, k, client.Now(), t, client.plan, client.calls);
      out := result;
    }

    /** Reconcile */
    method Reconcile(k: Key) returns (result: A.Result)
      modifies client
      ensures Ends(old(Rest(k, A.START)), result)
    {
      hide A.RunAlone, A.GotClaim, A.GotClass, A.GotProvider, A.GotGrant, A.GotInfo, A.GotRevokeClaim,
           A.GotRevokeProvider, A.GotRevocation, A.KnownKey, KeyOr, Joined;
      var r: Reply;
      ghost var t;
      r, t := Ask(k, GetAccess(k), A.START);
      if !r.AccessIs? {
        result := Finish(k, if r.NotFound? then A.Success else A.Errored, t);
        return;
      }
      var ba := r.access;
      if ba.claimName == "" || ba.secretName == "" {
        result := Finish(k, A.Success, t);
        return;
      }
      if ba.deleting {
        if AccessFinalizer in ba.finalizers { result := Revoke(k, ba, t); } else { result := Finish(k, A.Success, t); }
        return;
      }
      if AccessFinalizer !in ba.finalizers {
        ba := ba.(finalizers := ba.finalizers + {AccessFinalizer});
        r, t := Ask(k, UpdateAccess(k, ba), t);
        if !r.AccessIs? {
          result := Finish(k, A.Errored, t);
          return;
        }
        ba := r.access;
      }
      if ba.granted {
        result := Finish(k, A.Success, t);
        return;
      }
      result := Grant(k, ba, t);
    }

    // The claim; then its class and the provider, the grant and its Secret.
    method Grant(k: Key, ba: Access, ghost t0: A.Thread) returns (result: A.Result)
      requires t0.pc.ReadClaim? && t0.access == ba
      modifies client
      ensures Ends(old(Rest(k, t0)), result)
    {
      hide A.RunAlone, A.GotObject, A.GotClass, A.GotProvider, A.BeginGrant, A.GotGrant, A.GotInfo, A.GotRevokeClaim,
           A.GotRevokeProvider, A.GotRevocation, A.KnownKey, KeyOr, Joined, TrimSpace, ToLower, A.InfoKey;
      var r: Reply;
      ghost var t;
      r, t := Ask(k, GetClaim(A.ClaimKey(k, ba)), t0);
      if !r.ClaimIs? {
        result := Finish(k, if r.NotFound? then A.Requeue(5) else A.Errored, t);
        return;
      }
      var claim := r.claim;
      if !claim.status.bucketReady || TrimSpace(claim.status.bucketName) == "" {
        result := Finish(k, A.Requeue(3), t);
        return;
      }
      result := GrantFor(k, ba, claim, ToLower(TrimSpace(claim.status.bucketName)), t);
    }

    method GrantFor(k: Key, ba: Access, claim: Claim, bucketName: string, ghost t0: A.Thread) returns (result: A.Result)
      requires t0.pc.ReadClass? && t0.access == ba && t0.claim == claim && t0.bucket == bucketName
      modifies client
      ensures Ends(old(Rest(k, t0)), result)
    {
      hide A.RunAlone, A.GotObject, A.GotClaim, A.BeginGrant, A.GotGrant, A.GotInfo, A.GotRevokeClaim,
           A.GotRevokeProvider, A.GotRevocation, A.KnownKey, KeyOr, Joined, A.InfoKey, A.ClaimKey;
      var r: Reply;
      ghost var t;
      r, t := Ask(k, GetClass(claim.spec.className), t0);
      if !r.ClassIs? {
        result := Finish(k, if r.NotFound? then A.Requeue(5) else A.Errored, t);
        return;
      }
      var bc := r.bc;
      ghost var u := t;
      r, t := Ask(k, ResolveProvider(bc), t);
      if !r.Resolved? {
        var after := if !r.Unresolved? then A.Errored
                     else if r.why.Unsupported? || r.why.NotImplemented? then A.Requeue(15)
                     else if r.why.Missing? then A.Requeue(5) else A.Errored;
        result := Finish(k, after, t);
        return;
      }
      result := GrantOn(k, ba, bc, bucketName, u);
    }

    method GrantOn(k: Key, ba: Access, bc: BucketClass, bucketName: string, ghost u: A.Thread)
      returns (result: A.Result)
      requires u.access == ba && u.bc == bc && u.bucket == bucketName
      modifies client
      ensures Ends(old(Rest(k, A.BeginGrant(cfg, k, u))), result)
    {
      hide A.RunAlone, A.Resume, A.BeginGrant, Drive, GrantScript, UsesMinio, Joined, M.AccessKeyForAccount,
           M.SecretForAccount;
      GrantBegins(cfg, k, u);
      ghost var t := u.(accessKey := M.AccessKeyForAccount(Joined(k)));
      if UsesMinio(bc) {
        ghost var script :=
          GrantScript(bucketName, Joined(k), "ReadWrite", M.AccessKeyForAccount(Joined(k)),
                      M.SecretForAccount(cfg.digest, Joined(k)));
        GrantIsMinio(bucketName, Joined(k), "ReadWrite", M.AccessKeyForAccount(Joined(k)),
                     M.SecretForAccount(cfg.digest, Joined(k)));
        GrantIsDriven(cfg, k, client.Now(), t, script, client.plan, client.calls);
        var keys, err := MinioClient.GrantAccess(client, cfg.digest, bucketName, Joined(k), "ReadWrite", "", "");
        if err.Some? {
          result := Finish(k, A.Requeue(5), A.Finish(t, A.Requeue(5)));
          return;
        }
        result := StoreInfo(k, ba, keys.accessKey, t.(pc := A.ReadInfo));
      } else {
        ForeignAnswers(client.Now(), ForeignGrant, client.plan(client.calls));
        ghost var g := A.Give(t, Then(ForeignGrant, End));
        A.OneStep(cfg, k, client.Now(), g, client.plan, client.calls);
        var r := client.Issue(ForeignGrant);
        ForeignGrantStep(cfg, k, t, r);
        if !r.Granted? {
          result := Finish(k, A.Requeue(5), A.Resume(cfg, k, g, r));
          return;
        }
        result := StoreInfo(k, ba, r.accessKey, A.Resume(cfg, k, g, r));
      }
    }

    // The Secret with the entry BucketInfo, then the status.
    method StoreInfo(k: Key, ba: Access, accessKey: string, ghost t0: A.Thread) returns (result: A.Result)
      requires t0.pc.ReadInfo? && t0.access == ba && t0.accessKey == accessKey
      modifies client
      ensures Ends(old(Rest(k, t0)), result)
    {
      hide A.RunAlone, A.GotObject, A.GotClaim, A.GotClass, A.GotProvider, A.BeginGrant, A.GotGrant, A.GotRevokeClaim,
           A.GotRevokeProvider, A.GotRevocation, A.KnownKey, KeyOr, Joined, A.InfoKey, A.ClaimKey;
      var r: Reply;
      ghost var t;
      r, t := Ask(k, GetSecret(A.InfoKey(k, ba)), t0);
      if r.NotFound? {
        r, t := Ask(k, CreateSecret(A.InfoKey(k, ba), Secret(0, None, map[BucketInfo := accessKey])), t);
      } else if r.SecretIs? {
        var existing := r.secret;
        existing := existing.(data := existing.data[BucketInfo := accessKey]);
        r, t := Ask(k, UpdateSecret(A.InfoKey(k, ba), existing), t);
      }
      if !r.SecretIs? {
        result := Finish(k, A.Errored, t);
        return;
      }
      r, t := Ask(k, PutAccessStatus(k, ba.(granted := true, accountID := Joined(k))), t);
      result := Finish(k, if r.AccessIs? then A.Success else A.Errored, t);
    }

    // Deletion: revoke, delete the Secret, let go.
    method Revoke(k: Key, ba: Access, ghost t0: A.Thread) returns (result: A.Result)
      requires t0.pc.RevokeClaim? && t0.access == ba
      modifies client
      ensures Ends(old(Rest(k, t0)), result)
    {
      hide A.RunAlone, A.GotObject, A.GotClaim, A.GotClass, A.GotProvider, A.BeginGrant, A.GotGrant, A.GotInfo,
           A.GotRevokeProvider, A.GotRevocation, A.KnownKey, KeyOr, Joined, TrimSpace, ToLower;
      var r: Reply;
      ghost var t;
      r, t := Ask(k, GetClaim(A.ClaimKey(k, ba)), t0);
      if r.NotFound? {
        result := Release(k, ba, t);
        return;
      }
      if !r.ClaimIs? {
        result := Finish(k, A.Errored, t);
        return;
      }
      var claim := r.claim;
      var bucketName := TrimSpace(claim.status.bucketName);
      if bucketName == "" { bucketName := TrimSpace(claim.spec.bucketName); }
      if bucketName == "" { bucketName := Joined(A.ClaimKey(k, ba)); }
      bucketName := ToLower(bucketName);
      assert t.bucket == bucketName;
      result := RevokeNamed(k, ba, claim, bucketName, t);
    }

    // The key in the Secret or the account's own; then the class and the provider.
    method RevokeNamed(k: Key, ba: Access, claim: Claim, bucketName: string, ghost t0: A.Thread)
      returns (result: A.Result)
      requires t0.pc.RevokeInfo? && t0.access == ba && t0.claim == claim && t0.bucket == bucketName
      modifies client
      ensures Ends(old(Rest(k, t0)), result)
    {
      hide A.RunAlone, A.GotObject, A.GotClaim, A.GotClass, A.GotProvider, A.BeginGrant, A.GotGrant, A.GotInfo,
           A.GotRevokeClaim, A.GotRevocation, Joined, TrimSpace, Lookup, M.AccessKeyForAccount, UsesMinio, RevokeScript,
           A.Withdraw;
      var r: Reply;
      ghost var t;
      r, t := Ask(k, GetSecret(A.InfoKey(k, ba)), t0);
      var accessKey := if r.SecretIs? then TrimSpace(Lookup(r.secret.data, BucketInfo)) else "";
      if accessKey == "" { accessKey := M.AccessKeyForAccount(Joined(k)); }
      r, t := Ask(k, GetClass(claim.spec.className), t);
      if !r.ClassIs? {
        result := Finish(k, A.Errored, t);
        return;
      }
      var bc := r.bc;
      ghost var u := t;
      r, t := Ask(k, ResolveProvider(bc), t);
      if !r.Resolved? {
        result := Finish(k, if r.Unresolved? && (r.why.Unsupported? || r.why.NotImplemented?) then A.Requeue(15)
                            else A.Errored, t);
        return;
      }
      result := RevokeOn(k, ba, bc, bucketName, accessKey, u);
    }

    method RevokeOn(k: Key, ba: Access, bc: BucketClass, bucketName: string, accessKey: string, ghost u: A.Thread)
      returns (result: A.Result)
      requires u.access == ba && u.bc == bc && u.bucket == bucketName && u.accessKey == accessKey
      modifies client
      ensures Ends(old(Rest(k,
                            A.Withdraw(u, if UsesMinio(bc) then RevokeScript(bucketName, Joined(k), accessKey)
                                          else Then(ForeignRevoke, End)))), result)
    {
      hide A.RunAlone, A.Resume, A.Withdraw, Drive, RevokeScript, UsesMinio, Joined;
      if UsesMinio(bc) {
        RevokeIsDriven(cfg, k, client.Now(), u, RevokeScript(bucketName, Joined(k), accessKey), client.plan,
                       client.calls);
        MinioClient.RevokeAccess(client, bucketName, Joined(k), accessKey);
        result := DeleteInfo(k, ba, u.(pc := A.DeleteInfo));
      } else {
        ForeignAnswers(client.Now(), ForeignRevoke, client.plan(client.calls));
        RevokeIsDriven(cfg, k, client.Now(), u, Then(ForeignRevoke, End), client.plan, client.calls);
        ForeignRevokeDrive(client.Now(), client.plan, client.calls);
        var r := client.Issue(ForeignRevoke);
        if !r.Done? {
          result := Finish(k, A.Requeue(5), A.Finish(u, A.Requeue(5)));
          return;
        }
        result := DeleteInfo(k, ba, u.(pc := A.DeleteInfo));
      }
    }

    // Deleting the Secret is best effort.
    method DeleteInfo(k: Key, ba: Access, ghost t0: A.Thread) returns (result: A.Result)
      requires t0.pc.DeleteInfo? && t0.access == ba
      modifies client
      ensures Ends(old(Rest(k, t0)), result)
    {
      hide A.RunAlone, A.GotObject, A.GotClaim, A.GotClass, A.GotProvider, A.BeginGrant, A.GotGrant, A.GotInfo,
           A.GotRevokeClaim, A.GotRevokeProvider, A.GotRevocation, A.KnownKey, KeyOr, Joined;
      var r: Reply;
      ghost var t;
      r, t := Ask(k, DeleteSecret(A.InfoKey(k, ba)), t0);
      result := Release(k, ba, t);
    }

    method Release(k: Key, ba: Access, ghost t0: A.Thread) returns (result: A.Result)
      requires t0.pc.DropFinalizer? && t0.access == ba
      modifies client
      ensures Ends(old(Rest(k, t0)), result)
    {
      hide A.RunAlone, A.GotObject, A.GotClaim, A.GotClass, A.GotProvider, A.BeginGrant, A.GotGrant, A.GotInfo,
           A.GotRevokeClaim, A.GotRevokeProvider, A.GotRevocation, A.KnownKey, KeyOr, Joined;
      var r: Reply;
      ghost var t;
      r, t := Ask(k, UpdateAccess(k, ba.(finalizers := ba.finalizers - {AccessFinalizer})), t0);
      result := Finish(k, if r.AccessIs? then A.Success else A.Errored, t);
    }
  }
}
