/** Where the operator's promises end, and exactly when: the name that finalization works with, the account that a
    BucketAccess shares with a BucketClaim, the COSI Bucket of a bound claim, and incomplete credentials. */
module Limits {
  import opened Text
  import opened Errors
  import opened Kube
  import opened Cluster
  import opened Provisioning
  import opened Credentials
  import opened Effects
  import opened Generations
  import M = Minio
  import C = ClaimMachine

  /* The name that finalization works with */

  predicate Lower(s: string) { forall i :: 0 <= i < |s| ==> !('A' <= s[i] <= 'Z') }

  lemma TrimmedLower(s: string)
    ensures ToLower(TrimSpace(s)) == s <==> Trimmed(s) && Lower(s)
  {
    TrimSpaceFixed(s);
    ToLowerFixed(s);
    if ToLower(TrimSpace(s)) == s {
      var i, j := TrimSpaceCuts(s);
      assert TrimSpace(s) == s;
    }
  }

  // A name made of spaces is not the lower case of one that has another character.
  lemma BlankIsNoName(blank: string, name: string, at: nat)
    requires AllSpace(blank) && at < |name| && !IsSpace(name[at])
    ensures ToLower(name) != blank
  {
    assert !IsSpace(ToLower(name)[at]);
  }

  /** Finalization revokes on the name that was provisioned if and only if the status records that name or, while it
      records none, the name in the spec is already trimmed and in lower case - or, without one, "namespace-name" is
      what the class's hint, or else its own lower case, makes of it. */
  lemma NamesAgreeIff(k: Key, c: Claim, bc: BucketClass)
    ensures var hint := TrimSpace(Lookup(bc.parameters, "bucketName"));
            FinalBucketName(k, c) == EffectiveBucketName(k, c.spec, bc)
            <==> if c.status.bucketName != "" then c.status.bucketName == EffectiveBucketName(k, c.spec, bc)
                 else if c.spec.bucketName != "" then
                   TrimSpace(c.spec.bucketName) != "" && Trimmed(c.spec.bucketName) && Lower(c.spec.bucketName)
                 else if hint != "" then ToLower(hint) == Joined(k)
                 else Lower(Joined(k))
  {
    hide TrimSpace, Lookup, Trimmed;
    var name, given := c.spec.bucketName, Lookup(bc.parameters, "bucketName");
    TrimmedLower(name);
    TrimSpaceTrimmed(name);
    TrimSpaceTrimmed(given);
    ToLowerFixed(Joined(k));
    if AllSpace(name) {
      BlankIsNoName(name, Joined(k), |k.namespace|);
      if TrimSpace(given) != "" { FirstIsNoSpace(given); BlankIsNoName(name, TrimSpace(given), 0); }
    }
  }

  lemma FirstIsNoSpace(s: string)
    requires TrimSpace(s) != ""
    ensures !IsSpace(TrimSpace(s)[0])
  {
    TrimSpaceTrimmed(s);
  }

  /* The account of a BucketAccess */

  /** Revoking a BucketAccess leaves the credentials of a claim valid if and only if the two accounts have different
      access keys; one of the same namespace and name takes the claim's user away. */
  lemma AccessSparesClaimIff(cfg: Config, m: M.Server, k: Key, bucket: string, access: Key, b: string)
    requires Accessible(m, TenantOf(cfg, k, bucket))
    ensures var ak := M.AccessKeyForAccount(Joined(access));
            Accessible(AfterAll(m, RevokeScript(b, Joined(access), ak)), TenantOf(cfg, k, bucket))
            <==> ak != M.AccessKeyForAccount(Joined(k))
  {
    hide M.AccessKeyForAccount, M.SecretForAccount, M.PolicyName, Joined, TrimSpace, CredentialsKey;
    var ak, n := M.AccessKeyForAccount(Joined(access)), TenantOf(cfg, k, bucket);
    var todo := RevokeScript(b, Joined(access), ak);
    var m1 := After(m, todo.call);
    var m2 := After(m1, todo.rest.call);
    assert AfterAll(m, todo) == m2 by { assert AfterAll(m2, End) == m2; assert AfterAll(m1, todo.rest) == m2; }
    if ak != n.accessKey { assert m1.attached[n.accessKey] == n.policy && n.policy in m1.attached.Values; }
  }

  // The server after the three calls of a grant.
  function AfterGrant(m: M.Server, ak: string, sk: string, policy: string, p: M.Policy): M.Server {
    m.(users := m.users[ak := sk], policies := m.policies[policy := p], attached := m.attached[ak := policy])
  }

  lemma GrantDoes(m: M.Server, b: string, account: string, accessType: string, ak: string, sk: string)
    ensures AfterAll(m, GrantScript(b, account, accessType, ak, sk))
            == AfterGrant(m, ak, sk, M.PolicyName(b, account), M.Policy(b, EqualFold(accessType, "ReadOnly")))
  {
    hide M.PolicyName, EqualFold;
    var todo := GrantScript(b, account, accessType, ak, sk);
    var m1 := After(m, todo.call);
    var m2 := After(m1, todo.rest.call);
    var m3 := After(m2, todo.rest.rest.call);
    assert AfterAll(m2, todo.rest.rest) == m3 by { assert AfterAll(m3, End) == m3; }
    assert AfterAll(m1, todo.rest) == m3;
  }

  /** Granting a BucketAccess leaves the credentials of a claim valid if and only if it maps another user, or the same
      user with the same secret key to the claim's own policy; and does not give that policy the scope of another
      bucket. Where the access keys of two different accounts collide, the claim's user ends up with the secret key
      and the policy of the BucketAccess. */
  lemma GrantSparesClaimIff(cfg: Config, m: M.Server, k: Key, bucket: string, access: Key, b: string,
                            accessType: string)
    requires Accessible(m, TenantOf(cfg, k, bucket))
    ensures var n, other := TenantOf(cfg, k, bucket), TenantOf(cfg, access, b);
            Accessible(AfterAll(m, GrantScript(b, Joined(access), accessType, other.accessKey, other.secretKey)), n)
            <==> && (other.accessKey == n.accessKey ==> other.secretKey == n.secretKey && other.policy == n.policy)
                 && (other.policy == n.policy ==> b == bucket)
  {
    hide M.AccessKeyForAccount, M.SecretForAccount, M.PolicyName, Joined, TrimSpace, CredentialsKey, GrantScript,
         EqualFold;
    var other := TenantOf(cfg, access, b);
    GrantDoes(m, b, Joined(access), accessType, other.accessKey, other.secretKey);
  }

  /* Incomplete credentials */

  /** A foreign provider's answer is stored if and only if no part of it is blank; otherwise provisioning fails. */
  lemma StoredIffComplete(cfg: Config, k: Key, t: C.Thread, ak: string, sk: string, endpoint: string)
    requires t.pc == C.Provision(ForeignGrant, End)
    ensures var next := C.Resume(cfg, k, t, Granted(ak, sk, endpoint));
            && (next.pc.FetchSecret? <==> !AllSpace(ak) && !AllSpace(sk) && !AllSpace(endpoint))
            && (!next.pc.FetchSecret? ==>
                  next.pc == if cfg.isTransient(Err.Provisioning(GrantAccess, t.creds.bucket, Incomplete()))
                             then C.NoteFetch(C.PROVISIONING, C.Stop(C.Requeue(15)))
                             else C.NoteFetch(C.NotReady(GrantAccessFailed), C.Stop(C.Errored)))
  {
    hide TrimSpace, AllSpace, Incomplete;
    TrimSpaceTrimmed(ak);
    TrimSpaceTrimmed(sk);
    TrimSpaceTrimmed(endpoint);
  }

  /* The COSI Bucket of a bound claim */

  lemma CosiLookedUp(cfg: Config, k: Key, w: World, t: C.Thread, c: Choice)
    requires t.pc.FetchCosi?
    ensures var name := TrimSpace(t.creds.bucket);
            var (w', r) := Serve(w, C.Request(k, t), c);
            var next := C.Resume(cfg, k, t, r);
            && w' == w
            && if c.fate.Works? then
                 next.pc.StoreCosi? && next.creds == t.creds && next.pc.create == (name !in w.api.cosiBuckets)
               else next.pc.Finished?
  {
    hide C.ResumeAdmission, C.ResumeFinal, ServeClaims, ServeSecrets, ServeAccesses, ServeMinio, ReplyOnly, TrimSpace;
  }

  lemma CosiStored(cfg: Config, k: Key, w: World, t: C.Thread, c: Choice)
    requires t.pc.StoreCosi? && t.pc.create == (TrimSpace(t.creds.bucket) !in w.api.cosiBuckets)
    ensures var name := TrimSpace(t.creds.bucket);
            var (w', r) := Serve(w, C.Request(k, t), c);
            && C.Resume(cfg, k, t, r).pc.Finished?
            && (name in w'.api.cosiBuckets <==> name in w.api.cosiBuckets || !c.fate.LostRequest?)
  {
    hide C.ResumeAdmission, C.ResumeFinal, ServeClaims, ServeSecrets, ServeAccesses, ServeMinio, ReplyOnly, TrimSpace;
  }

  /** After the status write, the COSI Bucket exists at the end of the activation if and only if it did before, or
      the look-up was answered and the request to create it arrived. */
  lemma CosiBucketIff(cfg: Config, k: Key, w: World, t: C.Thread, plan: nat -> Choice, n: nat)
    requires t.pc.FetchCosi?
    ensures var name := TrimSpace(t.creds.bucket);
            name in C.RunAlone(cfg, k, w, t, plan, n).world.api.cosiBuckets
            <==> name in w.api.cosiBuckets || (plan(n).fate.Works? && !plan(n + 1).fate.LostRequest?)
  {
    hide C.RunAlone, C.Request, C.Resume, Serve, TrimSpace;
    var (w1, r1) := Serve(w, C.Request(k, t), plan(n));
    var t1 := C.Resume(cfg, k, t, r1);
    C.OneStep(cfg, k, w, t, plan, n);
    CosiLookedUp(cfg, k, w, t, plan(n));
    if t1.pc.Finished? {
      C.AtTheEnd(cfg, k, w1, t1, plan, n + 1);
    } else {
      var (w2, r2) := Serve(w1, C.Request(k, t1), plan(n + 1));
      C.OneStep(cfg, k, w1, t1, plan, n + 1);
      CosiStored(cfg, k, w1, t1, plan(n + 1));
      C.AtTheEnd(cfg, k, w2, C.Resume(cfg, k, t1, r2), plan, n + 2);
    }
  }

  lemma StatusStored(cfg: Config, k: Key, w: World, t: C.Thread, c: Choice)
    requires t.pc.StoreStatus? && cfg.enableCosi && TrimSpace(t.creds.bucket) != "" && c.fate.Works?
    requires k in w.api.claims && w.api.claims[k] == t.pc.seen
    ensures var (w', r) := Serve(w, C.Request(k, t), c);
            && C.Resume(cfg, k, t, r) == t.(pc := C.FetchCosi)
            && w'.api.cosiBuckets == w.api.cosiBuckets && k in w'.api.claims && C.UpToDate(w'.api.claims[k])
            && w'.api.claims[k].deleting == t.pc.seen.deleting && w'.api.claims[k].finalizers == t.pc.seen.finalizers
  {
    hide C.ResumeAdmission, C.ResumeFinal, ServeSecrets, ServeAccesses, ServeCosi, ServeMinio, ReplyOnly, TrimSpace,
         CredentialsKey, WriteClaim, C.GotCosi, C.GotSecret, C.Provisioned;
  }

  lemma CosiNotLookedUp(cfg: Config, k: Key, w: World, t: C.Thread, c: Choice)
    requires t.pc.FetchCosi? && c.fate.LostRequest?
    ensures var (w', r) := Serve(w, C.Request(k, t), c); w' == w && C.Resume(cfg, k, t, r).pc.Finished?
  {
    hide Perform, C.ResumeAdmission, C.ResumeFinal, TrimSpace;
  }

  /** The COSI Bucket whose creation failed after the status write is forgotten: the claim is bound and up to date,
      and every later activation leaves the world as it is. */
  lemma CosiBucketForgotten(cfg: Config, k: Key, w: World, t: C.Thread, plan: nat -> Choice, later: nat -> Choice)
    requires t.pc.StoreStatus? && cfg.enableCosi && TrimSpace(t.creds.bucket) != ""
    requires k in w.api.claims && w.api.claims[k] == t.pc.seen && !t.pc.seen.deleting
    requires ClaimFinalizer in t.pc.seen.finalizers
    requires plan(0).fate.Works? && plan(1).fate.LostRequest?
    ensures var w1 := C.RunAlone(cfg, k, w, t, plan, 0).world;
            && k in w1.api.claims && C.UpToDate(w1.api.claims[k]) && w1.api.cosiBuckets == w.api.cosiBuckets
            && C.RunAlone(cfg, k, w1, C.START, later, 0).world == w1
  {
    hide Serve, C.RunAlone, C.Request, C.Resume, C.UpToDate, TrimSpace;
    var (w1, r1) := Serve(w, C.Request(k, t), plan(0));
    var t1 := C.Resume(cfg, k, t, r1);
    C.OneStep(cfg, k, w, t, plan, 0);
    StatusStored(cfg, k, w, t, plan(0));
    var (w2, r2) := Serve(w1, C.Request(k, t1), plan(1));
    C.OneStep(cfg, k, w1, t1, plan, 1);
    CosiNotLookedUp(cfg, k, w1, t1, plan(1));
    C.AtTheEnd(cfg, k, w2, C.Resume(cfg, k, t1, r2), plan, 2);
    UpToDateIsLeftAlone(cfg, k, w2, later, 0);
  }
}
