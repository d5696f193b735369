/** Many claims at once: names that are pairwise distinct keep the claims' credentials apart. */
module ManyClaims {
  import opened Text
  import opened Kube
  import opened CosiNames
  import opened Cluster
  import opened Frames
  import opened Provisioning
  import opened ClaimFlow
  import opened ClaimInvariant
  import opened ClaimRuns
  import opened System
  import opened Credentials
  import opened RecordedName
  import M = Minio
  import C = ClaimMachine

  /* A claim's thread touches no names but its own */

  predicate OwnReference(k: Key, status: ClaimStatus) {
    status.secretReference.Some? ==> status.secretReference.value == CredentialsKey(k)
  }

  // A stored claim, and every copy of it that a thread has, refers to the claim's own Secret.
  ghost predicate References(api: Api, k: Key, t: C.Thread) {
    && (k in api.claims ==> OwnReference(k, api.claims[k].status))
    && (t.pc.AddFinalizer? || Engaged(t.pc) ==> OwnReference(k, t.claim.status))
    && (t.pc.NoteWrite? ==> OwnReference(k, t.pc.seen.status))
  }

  predicate RevokesOwn(k: Key, bucket: string, call: Call, rest: Script) {
    || (call == RemoveUser(M.AccessKeyForAccount(Joined(k)))
        && rest.Then? && rest.call == RemovePolicy(M.PolicyName(bucket, Joined(k))) && rest.rest.End?)
    || (call == RemovePolicy(M.PolicyName(bucket, Joined(k))) && rest.End?)
    || (call.ForeignRevoke? && rest.End?)
  }

  predicate DestroysNext(call: Call, rest: Script) {
    || ((call.BucketExists? || call.RemoveBucket? || call.ForeignDelete?)
        && (rest.End? || (rest.call.RemoveBucket? && rest.rest.End?)))
  }

  predicate TearsDownOwn(k: Key, t: C.Thread) {
    && (t.pc.FinalSecret? ==> t.claim.status.secretReference.Some?)
    && (t.pc.Revoke? ==> RevokesOwn(k, t.creds.bucket, t.pc.call, t.pc.rest))
    && (t.pc.Delete? ==> DestroysNext(t.pc.call, t.pc.rest))
  }

  lemma ReferencesStable(a: Api, b: Api, k: Key, t: C.Thread)
    requires References(a, k, t) && Evolves(a, b, k) && Undisturbed(a, b, k)
    ensures References(b, k, t)
  {
    hide OwnReference;
    assert OwnReference(k, EMPTY_STATUS) by { NoReference(k); }
  }

  lemma NoReference(k: Key)
    ensures OwnReference(k, EMPTY_STATUS)
  {
  }

  lemma NotedRefers(k: Key, c: Claim, note: C.Note)
    requires OwnReference(k, c.status)
    ensures OwnReference(k, C.Noted(c, note).status)
  {
  }

  lemma OwnWriteReferences(k: Key, api: Api, t: C.Thread)
    requires !t.pc.Finished? && WritesClaim(C.Request(k, t)) && References(api, k, t)
    requires t.pc.StoreStatus? ==> OwnReference(k, C.BoundTo(t.pc.seen, k, t.creds).status)
    ensures var (after, r) := ServeClaims(api, C.Request(k, t));
            (k in after.claims ==> OwnReference(k, after.claims[k].status))
              && (r.ClaimIs? ==> OwnReference(k, r.claim.status))
  {
    hide OwnReference, CredentialsKey, C.BoundTo, C.Noted, WriteClaim, WriteClaimStatus;
    var call := C.Request(k, t);
    WrittenStatus(api, k, call.claim);
    if t.pc.NoteWrite? { NotedRefers(k, t.pc.seen, t.pc.note); }
  }

  lemma BoundRefers(k: Key, c: Claim, creds: Creds)
    ensures OwnReference(k, C.BoundTo(c, k, creds).status)
  {
  }

  // What an own call makes of the stored claim's reference, and what its reply tells.
  lemma OwnCallReferences(k: Key, w: World, t: C.Thread, c: Choice)
    requires !t.pc.Finished? && Knows(w.api, k, t) && References(w.api, k, t)
    ensures var (w', r) := Serve(w, C.Request(k, t), c);
            && (k in w'.api.claims ==> OwnReference(k, w'.api.claims[k].status))
            && (r.ClaimIs? && (t.pc.Fetch? || t.pc.NoteFetch? || t.pc.AddFinalizer?) ==>
                  OwnReference(k, r.claim.status))
  {
    hide Serve, Perform, C.Request, ServeClaims, OwnReference, Knows;
    var call := C.Request(k, t);
    Frame(w, call, c);
    ServeWorld(w, call, c);
    ServeReply(w, call, c);
    Performs(w, call, c);
    WhichCall(k, t);
    if t.pc.StoreStatus? { BoundRefers(k, t.pc.seen, t.creds); }
    if WritesClaim(call) { OwnWriteReferences(k, w.api, t); }
    else if OnClaims(call) { ReadsChangeNothing(w.api, call); }
  }

  lemma WhichCall(k: Key, t: C.Thread)
    requires !t.pc.Finished?
    ensures var call := C.Request(k, t);
            && (t.pc.Fetch? || t.pc.NoteFetch? ==> call == GetClaim(k))
            && (t.pc.AddFinalizer? ==> call.UpdateClaim?)
            && (t.pc.FinalSecret? && t.claim.status.secretReference.Some? ==>
                  call == GetSecret(t.claim.status.secretReference.value))
            && (OnClaims(call) && !WritesClaim(call) ==> call == GetClaim(k))
  {
    hide CredentialsKey, C.BoundTo, C.Noted, TrimSpace;
  }

  lemma ReferencesArrive(cfg: Config, k: Key, a: Api, b: Api, t: C.Thread, r: Reply, next: C.Thread)
    requires References(a, k, t) && Arrival(cfg, k, t, r, next)
    requires k in b.claims ==> OwnReference(k, b.claims[k].status)
    requires r.ClaimIs? && (t.pc.Fetch? || t.pc.NoteFetch? || t.pc.AddFinalizer?) ==> OwnReference(k, r.claim.status)
    ensures References(b, k, next)
  {
    hide Advance, TrimmedCreds, Complete, C.ProvisionScript, C.CredentialData, C.Destruction, Begins, C.UpToDate,
         Handled, StartingCreds, Lookup, TrimSpace, IsBound, Deletes, OwnReference;
  }

  lemma RevocationBegins(k: Key, t: C.Thread, accessKey: string, next: C.Thread)
    requires next.pc.Revoke? && Begins(k, t, accessKey, next)
    requires accessKey == "" || accessKey == M.AccessKeyForAccount(Joined(k))
    ensures RevokesOwn(k, next.creds.bucket, next.pc.call, next.pc.rest)
  {
    hide M.AccessKeyForAccount, M.PolicyName, Joined, FinalBucketName, UsesMinio;
  }

  lemma DestructionBegins(t: C.Thread)
    ensures C.Destruction(t).Then? && DestroysNext(C.Destruction(t).call, C.Destruction(t).rest)
  {
    hide UsesMinio;
  }

  // The Secret that finalization reads tells the account's own access key.
  ghost predicate HonestFinalSecret(k: Key, t: C.Thread, r: Reply) {
    t.pc.FinalSecret? && r.SecretIs? ==>
      TrimSpace(Lookup(r.secret.data, AccessKeyID)) == M.AccessKeyForAccount(Joined(k))
  }

  lemma TeardownArrivesOwn(cfg: Config, k: Key, t: C.Thread, r: Reply, next: C.Thread)
    requires TearsDownOwn(k, t) && Arrival(cfg, k, t, r, next) && HonestFinalSecret(k, t, r)
    ensures TearsDownOwn(k, next)
  {
    hide Begins, C.Destruction, M.AccessKeyForAccount, M.PolicyName, Joined, TrimSpace, Lookup, CallError, OperationOf,
         Deletes;
    if next.pc.Revoke? {
      if t.pc.FinalSecret? {
        RevocationBegins(k, t, if r.SecretIs? then TrimSpace(Lookup(r.secret.data, AccessKeyID)) else "", next);
      }
      else if t.pc.FinalResolve? { RevocationBegins(k, t, "", next); }
    } else if next.pc.Delete? {
      DestructionBegins(t);
    }
  }

  /* Names that keep claims apart */

  /** Pairwise distinct access keys and policy names. */
  ghost predicate Apart(names: Key -> string, tenants: set<Key>) {
    forall j, k :: j in tenants && k in tenants && j != k ==>
      && M.AccessKeyForAccount(Joined(j)) != M.AccessKeyForAccount(Joined(k))
      && M.PolicyName(names(j), Joined(j)) != M.PolicyName(names(k), Joined(k))
  }

  // The policy that `k` has on the bucket `b` is no other tenant's policy.
  ghost predicate SparesPolicies(names: Key -> string, tenants: set<Key>, k: Key, b: string) {
    forall j :: j in tenants && j != k ==> M.PolicyName(b, Joined(k)) != M.PolicyName(names(j), Joined(j))
  }

  ghost predicate RevokesApart(names: Key -> string, tenants: set<Key>, k: Key, t: C.Thread) {
    t.pc.Revoke? ==> SparesPolicies(names, tenants, k, t.creds.bucket)
  }

  // A finalization that finds no recorded bucket name works with one under which no other tenant has its policy.
  ghost predicate FallbackSpares(names: Key -> string, tenants: set<Key>, k: Key, t: C.Thread) {
    (t.pc.FinalResolve? || t.pc.FinalSecret?) && t.claim.status.bucketName == "" ==>
      SparesPolicies(names, tenants, k, FinalBucketName(k, t.claim))
  }

  // The fallback spares the others whenever it is the tenant's own bucket name.
  lemma OwnFallbackSpares(names: Key -> string, tenants: set<Key>, k: Key, t: C.Thread)
    requires Apart(names, tenants) && k in tenants && FinalBucketName(k, t.claim) == names(k)
    ensures FallbackSpares(names, tenants, k, t)
  {
  }

  // What a revocation works with is the recorded name, which is the tenant's own, or the fallback.
  lemma RevokesApartNext(cfg: Config, names: Key -> string, tenants: set<Key>, k: Key, t: C.Thread, r: Reply,
                         next: C.Thread)
    requires Apart(names, tenants) && k in tenants && Arrival(cfg, k, t, r, next)
    requires RevokesApart(names, tenants, k, t) && FallbackSpares(names, tenants, k, t) && FinalCopyNames(t, names(k))
    ensures RevokesApart(names, tenants, k, next)
  {
    hide M.AccessKeyForAccount, M.PolicyName, Joined, UsesMinio, RevokeScript, KeyOr, Advance, TrimSpace, Lookup;
    if next.pc.Revoke? && !t.pc.Revoke? {
      assert next.creds.bucket == FinalBucketName(k, t.claim);
      if t.claim.status.bucketName != "" { assert SparesPolicies(names, tenants, k, names(k)); }
    }
  }

  lemma RevokesApartStep(cfg: Config, names: Key -> string, tenants: set<Key>, s: System, a: Action, k: Key)
    requires Apart(names, tenants) && k in tenants && FinalCopyNames(ClaimThread(s, k), names(k))
    requires RevokesApart(names, tenants, k, ClaimThread(s, k)) && FallbackSpares(names, tenants, k, ClaimThread(s, k))
    ensures RevokesApart(names, tenants, k, ClaimThread(Apply(cfg, s, a), k))
  {
    hide Apply, ClaimThread, Issued, NextWorld, C.Request, C.Resume, Apart, SparesPolicies, FallbackSpares,
         FinalCopyNames, Arrival;
    var t := ClaimThread(s, k);
    ThreadOf(cfg, s, a, k);
    if a.StepClaim? && a.key == k && Issued(s, a).Some? {
      OwnTurnIs(s, a);
      Arrives(cfg, k, t, ReplyTo(s, a));
      RevokesApartNext(cfg, names, tenants, k, t, ReplyTo(s, a), C.Resume(cfg, k, t, ReplyTo(s, a)));
    }
  }

  lemma SecretsApart(j: Key, k: Key)
    requires CredentialsKey(j) == CredentialsKey(k)
    ensures j == k
  {
    assert j.name == CredentialsKey(j).name[..|j.name|];
    assert k.name == CredentialsKey(k).name[..|k.name|];
  }

  // A thread of one claim leaves every other claim's names alone.
  lemma TenantsRespect(cfg: Config, names: Key -> string, tenants: set<Key>, j: Key, k: Key, t: C.Thread)
    requires Apart(names, tenants) && j in tenants && k in tenants && j != k && !t.pc.Finished?
    requires OwnNames(cfg, TenantOf(cfg, j, names(j)), t) && TearsDownOwn(j, t) && RevokesApart(names, tenants, j, t)
    ensures Respects(C.Request(j, t), TenantOf(cfg, k, names(k)))
  {
    hide M.AccessKeyForAccount, M.PolicyName, M.SecretForAccount, Joined, C.BoundTo, C.Noted, CredentialsKey, TrimSpace,
         BucketPart;
    if CredentialsKey(j) == CredentialsKey(k) { SecretsApart(j, k); }
    if t.pc.Provision? { FirstOfScript(TenantOf(cfg, j, names(j)), Then(t.pc.call, t.pc.rest)); }
  }

  lemma FirstOfScript(n: Tenant, s: Script)
    requires s.Then? && OnScript(n, s)
    ensures || Configures(s.call, n.bucket) || s.call == AddUser(n.accessKey, n.secretKey)
            || (s.call.AddPolicy? && s.call.policyName == n.policy) || s.call == AttachPolicy(n.policy, n.accessKey)
  {
  }

  // Two different account ids of the same length never share a policy name.
  lemma SameLengthApart(b: string, c: string, x: string, y: string)
    requires |x| == |y| && x != y
    ensures M.PolicyName(b, x) != M.PolicyName(c, y)
  {
    var p, q := M.PolicyName(b, x), M.PolicyName(c, y);
    assert p[|p| - |x|..] == x && q[|q| - |y|..] == y;
  }

  // A policy name is joined from the bucket and the account, as an account is from namespace and name.
  lemma PolicyNameIsJoined(b: string, account: string)
    ensures M.PolicyName(b, account) == "cosi-" + Joined(Key(b, account))
  {
  }

  lemma PoliciesMeet(names: Key -> string, j: Key, k: Key)
    requires Joined(j) != Joined(k)
    ensures M.PolicyName(names(j), Joined(j)) == M.PolicyName(names(k), Joined(k))
       <==> exists x :: Overlap(Key(names(j), Joined(j)), Key(names(k), Joined(k)), x)
                        || Overlap(Key(names(k), Joined(k)), Key(names(j), Joined(j)), x)
  {
    hide M.PolicyName, Joined;
    var a, b := Key(names(j), Joined(j)), Key(names(k), Joined(k));
    PolicyNameIsJoined(names(j), Joined(j));
    PolicyNameIsJoined(names(k), Joined(k));
    assert Joined(a) == ("cosi-" + Joined(a))[5..] && Joined(b) == ("cosi-" + Joined(b))[5..];
    AccountsCollideIff(a, b);
  }

  // What a user can look at: the access keys, and whether bucket and account of one claim overlap with another's.
  ghost predicate NoOverlap(names: Key -> string, tenants: set<Key>) {
    forall j, k :: j in tenants && k in tenants && j != k ==>
      && M.AccessKeyForAccount(Joined(j)) != M.AccessKeyForAccount(Joined(k))
      && !exists x :: Overlap(Key(names(j), Joined(j)), Key(names(k), Joined(k)), x)
  }

  /** Claims are apart exactly when their access keys differ and no bucket name goes on, behind a hyphen, with the
      beginning of what would otherwise be the account. */
  lemma ApartIff(names: Key -> string, tenants: set<Key>)
    ensures Apart(names, tenants) <==> NoOverlap(names, tenants)
  {
    hide M.PolicyName, M.AccessKeyForAccount, Joined, Overlap;
    forall j, k | j in tenants && k in tenants && Joined(j) != Joined(k)
      ensures M.PolicyName(names(j), Joined(j)) == M.PolicyName(names(k), Joined(k))
         <==> exists x :: Overlap(Key(names(j), Joined(j)), Key(names(k), Joined(k)), x)
                          || Overlap(Key(names(k), Joined(k)), Key(names(j), Joined(j)), x)
    {
      PoliciesMeet(names, j, k);
    }
  }

  /** For claims that leave the bucket name to the operator, distinct access keys are enough: two such claims, say
      "db" in the namespaces "team" and "prod-team", never share a policy name. */
  lemma DefaultNamesApart(names: Key -> string, tenants: set<Key>)
    requires forall k :: k in tenants ==> names(k) == ToLower(Joined(k))
    requires forall j, k :: j in tenants && k in tenants && j != k ==>
               M.AccessKeyForAccount(Joined(j)) != M.AccessKeyForAccount(Joined(k))
    ensures Apart(names, tenants)
  {
    hide M.AccessKeyForAccount, Joined;
    forall j, k | j in tenants && k in tenants && j != k
      ensures M.PolicyName(names(j), Joined(j)) != M.PolicyName(names(k), Joined(k))
    {
      if |Joined(j)| == |Joined(k)| { SameLengthApart(names(j), names(k), Joined(j), Joined(k)); }
    }
  }

  /* Runs */

  ghost predicate TenantInv(cfg: Config, s: System, k: Key, bucket: string) {
    && ClaimFine(s, k) && CredentialsFine(cfg, s, k, bucket)
    && References(s.world.api, k, ClaimThread(s, k)) && TearsDownOwn(k, ClaimThread(s, k))
    && NameFine(s.world.api, k, ClaimThread(s, k), bucket) && FinalCopyNames(ClaimThread(s, k), bucket)
  }

  // The hypothesis about a step of the run: every tenant's bucket name is fixed, and what a finalization without a
  // recorded name falls back on spares the others; what is not a tenant's own thread names no tenant's user, policy
  // or Secret; and only the Secrets of claims that are gone are collected.
  ghost predicate Orderly(cfg: Config, names: Key -> string, tenants: set<Key>, s: System, a: Action) {
    && (forall k :: k in tenants ==>
          NameFixed(k, names(k), ClaimThread(s, k)) && FallbackSpares(names, tenants, k, ClaimThread(s, k)))
    && (Issued(s, a).Some? && !(a.StepClaim? && a.key in tenants) ==>
          forall k :: k in tenants ==> Respects(Issued(s, a).value, TenantOf(cfg, k, names(k))))
    && (a.PutSecret? ==> forall k :: k in tenants ==> a.key != CredentialsKey(k))
    && (a.DropSecret? ==>
          forall k ::
            (k in tenants && a.key == CredentialsKey(k) && a.key in s.world.api.secrets && k in s.world.api.claims) ==>
              s.world.api.secrets[a.key].owner != Some(s.world.api.claims[k].uid))
  }

  lemma OrderlyIsUndisputed(cfg: Config, names: Key -> string, tenants: set<Key>, s: System, a: Action, k: Key)
    requires Apart(names, tenants) && Orderly(cfg, names, tenants, s, a) && k in tenants
    requires a.StepClaim? && a.key in tenants ==>
               TenantInv(cfg, s, a.key, names(a.key)) && RevokesApart(names, tenants, a.key, ClaimThread(s, a.key))
    ensures Undisputed(cfg, s, a, k, names(k))
  {
    SecretKeyOf(cfg, k, names(k));
    hide Respects, TenantOf, ClaimFine, NameFixed, References, TearsDownOwn, C.Request, Valid, OwnSecret, Achieved,
         OwnNames, Apart, CredentialsKey, RevokesApart, FallbackSpares, NameFine, FinalCopyNames;
    if Issued(s, a).Some? && a.StepClaim? && a.key in tenants && a.key != k {
      TenantsRespect(cfg, names, tenants, a.key, k, ClaimThread(s, a.key));
    }
  }

  lemma OtherInvariants(cfg: Config, s: System, a: Action, k: Key, bucket: string)
    requires TenantInv(cfg, s, k, bucket) && !(a.StepClaim? && a.key == k && Issued(s, a).Some?)
    ensures var s' := Apply(cfg, s, a);
            References(s'.world.api, k, ClaimThread(s', k)) && TearsDownOwn(k, ClaimThread(s', k))
  {
    hide Apply, ClaimThread, Issued, NextWorld, Evolves, Undisturbed, CredentialsFine, OwnReference, RevokesOwn,
         DestroysNext, Knows, Sane, Truthful;
    WorldOf(cfg, s, a);
    StepDisturbs(s, a, k);
    NoTurn(s, a, k);
    ThreadOf(cfg, s, a, k);
    ReferencesStable(s.world.api, NextWorld(s, a).api, k, ClaimThread(s, k));
  }

  lemma HonestAtTheEnd(k: Key, n: Tenant, w: World, t: C.Thread, c: Choice)
    requires !t.pc.Finished? && References(w.api, k, t) && OwnSecret(w.api, n)
    requires n.secret == CredentialsKey(k) && n.accessKey == M.AccessKeyForAccount(Joined(k))
    requires TrimSpace(n.accessKey) == n.accessKey
    requires TearsDownOwn(k, t)
    ensures HonestFinalSecret(k, t, Serve(w, C.Request(k, t), c).1)
  {
    hide Serve, Perform, C.Request, ServeSecrets, CredentialsKey, M.AccessKeyForAccount, Joined, TrimSpace;
    WhichCall(k, t);
    ServeReply(w, C.Request(k, t), c);
    Performs(w, C.Request(k, t), c);
    ReadsChangeNothing(w.api, C.Request(k, t));
  }

  lemma TenantNames(cfg: Config, k: Key, bucket: string)
    ensures var n := TenantOf(cfg, k, bucket);
            n.secret == CredentialsKey(k) && n.accessKey == M.AccessKeyForAccount(Joined(k))
              && TrimSpace(n.accessKey) == n.accessKey
  {
    M.CredentialsAreTrimmed(cfg.digest, Joined(k));
    hide TrimSpace, CredentialsKey, Joined, M.AccessKeyForAccount, M.SecretForAccount, M.PolicyName;
  }

  lemma OwnInvariants(cfg: Config, s: System, a: Action, bucket: string)
    requires a.StepClaim? && Issued(s, a).Some? && TenantInv(cfg, s, a.key, bucket)
    ensures var s' := Apply(cfg, s, a);
            References(s'.world.api, a.key, ClaimThread(s', a.key)) && TearsDownOwn(a.key, ClaimThread(s', a.key))
  {
    hide Apply, ClaimThread, Serve, C.Resume, C.Request, TenantOf, Arrival, References, TearsDownOwn, Valid, OwnNames,
         Achieved, OwnSecret, HonestFinalSecret, Knows, Sane, Sound, Truthful, OwnReference, CredentialsKey,
         M.AccessKeyForAccount, Joined;
    var k, t, c, n := a.key, ClaimThread(s, a.key), a.choice, TenantOf(cfg, a.key, bucket);
    assert Issued(s, a).value == C.Request(k, t);
    var (w', r) := Serve(s.world, C.Request(k, t), c);
    Arrives(cfg, k, t, r);
    TenantNames(cfg, k, bucket);
    HonestAtTheEnd(k, n, s.world, t, c);
    TeardownArrivesOwn(cfg, k, t, r, C.Resume(cfg, k, t, r));
    OwnCallReferences(k, s.world, t, c);
    ReferencesArrive(cfg, k, s.world.api, w'.api, t, r, C.Resume(cfg, k, t, r));
    ThreadOf(cfg, s, a, k);
    WorldOf(cfg, s, a);
  }

  lemma TenantStep(cfg: Config, s: System, a: Action, k: Key, bucket: string)
    requires TenantInv(cfg, s, k, bucket) && Undisputed(cfg, s, a, k, bucket)
    ensures TenantInv(cfg, Apply(cfg, s, a), k, bucket)
  {
    hide Apply, ClaimThread, ClaimFine, CredentialsFine, References, TearsDownOwn, OneName, FinalCopyNames, Issued,
         Respects;
    CredentialsStep(cfg, s, a, k, bucket);
    NameStep(cfg, s, a, k, bucket);
    FinalCopyStep(cfg, s, a, k, bucket);
    FineStep(cfg, s, a, k);
    if a.StepClaim? && a.key == k && Issued(s, a).Some? { OwnInvariants(cfg, s, a, bucket); }
    else { OtherInvariants(cfg, s, a, k, bucket); }
  }

  ghost predicate ManyInv(cfg: Config, names: Key -> string, tenants: set<Key>, s: System) {
    forall k :: k in tenants ==> TenantInv(cfg, s, k, names(k)) && RevokesApart(names, tenants, k, ClaimThread(s, k))
  }

  ghost predicate OrderlyRun(cfg: Config, names: Key -> string, tenants: set<Key>, s: System, actions: seq<Action>) {
    forall i :: 0 <= i < |actions| ==> Orderly(cfg, names, tenants, Run(cfg, s, actions[..i]), actions[i])
  }

  lemma OrderlyTail(cfg: Config, names: Key -> string, tenants: set<Key>, s: System, actions: seq<Action>)
    requires actions != [] && OrderlyRun(cfg, names, tenants, s, actions)
    ensures Orderly(cfg, names, tenants, s, actions[0])
    ensures OrderlyRun(cfg, names, tenants, Apply(cfg, s, actions[0]), actions[1..])
  {
    hide Orderly, Apply;
    assert actions[..0] == [] && Run(cfg, s, actions[..0]) == s;
    forall i | 0 <= i < |actions[1..]|
      ensures Orderly(cfg, names, tenants, Run(cfg, Apply(cfg, s, actions[0]), actions[1..][..i]), actions[1..][i])
    {
      assert actions[..i + 1][0] == actions[0] && actions[..i + 1][1..] == actions[1..][..i];
      assert Run(cfg, s, actions[..i + 1]) == Run(cfg, Apply(cfg, s, actions[0]), actions[1..][..i]);
      assert Orderly(cfg, names, tenants, Run(cfg, s, actions[..i + 1]), actions[i + 1]);
    }
  }

  lemma ManyStep(cfg: Config, names: Key -> string, tenants: set<Key>, s: System, a: Action)
    requires Apart(names, tenants) && ManyInv(cfg, names, tenants, s) && Orderly(cfg, names, tenants, s, a)
    ensures ManyInv(cfg, names, tenants, Apply(cfg, s, a))
  {
    hide Apart, TenantInv, Apply, Undisputed, RevokesApart, FallbackSpares, NameFixed, Issued, ClaimThread;
    forall k | k in tenants
      ensures TenantInv(cfg, Apply(cfg, s, a), k, names(k))
      ensures RevokesApart(names, tenants, k, ClaimThread(Apply(cfg, s, a), k))
    {
      OrderlyIsUndisputed(cfg, names, tenants, s, a, k);
      TenantStep(cfg, s, a, k, names(k));
      CopyOf(cfg, s, k, names(k));
      RevokesApartStep(cfg, names, tenants, s, a, k);
    }
  }

  lemma CopyOf(cfg: Config, s: System, k: Key, bucket: string)
    requires TenantInv(cfg, s, k, bucket)
    ensures FinalCopyNames(ClaimThread(s, k), bucket)
  {
    hide ClaimFine, CredentialsFine, References, TearsDownOwn, NameFine, FinalCopyNames;
  }

  lemma {:induction false} ManyRun(cfg: Config, names: Key -> string, tenants: set<Key>, s: System,
                                   actions: seq<Action>)
    requires Apart(names, tenants) && ManyInv(cfg, names, tenants, s) && OrderlyRun(cfg, names, tenants, s, actions)
    ensures ManyInv(cfg, names, tenants, Run(cfg, s, actions))
    decreases |actions|
  {
    hide Apart, ManyInv, Orderly, OrderlyRun, Apply;
    if actions != [] {
      OrderlyTail(cfg, names, tenants, s, actions);
      ManyStep(cfg, names, tenants, s, actions[0]);
      ManyRun(cfg, names, tenants, Apply(cfg, s, actions[0]), actions[1..]);
    }
  }

  lemma TenantStart(cfg: Config, s: System, k: Key, bucket: string)
    requires Initial(s) && CredentialsKey(k) !in s.world.api.secrets
    ensures TenantInv(cfg, s, k, bucket)
  {
    StartFine(cfg, s, k, bucket);
    InitialInv(s);
    assert ClaimFine(s, k);
    hide CredentialsFine, ClaimFine, CredentialsKey;
  }

  /** Any number of claims with pairwise distinct access keys and policy names, over every interleaving of their
      reconciles, finalizations, faults and crashes: the Secret of each claim that is bound and stays holds the
      keys of an existing user that is mapped to the policy scoped to that claim's bucket. */
  lemma AllCredentialsStayValid(cfg: Config, names: Key -> string, tenants: set<Key>, s: System, actions: seq<Action>)
    requires Initial(s) && Apart(names, tenants)
    requires forall k :: k in tenants ==> CredentialsKey(k) !in s.world.api.secrets
    requires OrderlyRun(cfg, names, tenants, s, actions)
    ensures forall k :: k in tenants ==> Valid(Run(cfg, s, actions).world, k, TenantOf(cfg, k, names(k)))
  {
    hide Apart, TenantInv, Orderly, Initial, TenantOf, Valid, OrderlyRun, CredentialsKey, RevokesApart, ClaimThread;
    forall k | k in tenants
      ensures TenantInv(cfg, s, k, names(k)) && RevokesApart(names, tenants, k, ClaimThread(s, k))
    {
      TenantStart(cfg, s, k, names(k));
      NothingRevokes(names, tenants, s, k);
    }
    ManyRun(cfg, names, tenants, s, actions);
    forall k | k in tenants ensures Valid(Run(cfg, s, actions).world, k, TenantOf(cfg, k, names(k))) {
      InvariantIsValid(cfg, Run(cfg, s, actions), k, names(k));
    }
  }

  lemma NothingRevokes(names: Key -> string, tenants: set<Key>, s: System, k: Key)
    requires Initial(s)
    ensures RevokesApart(names, tenants, k, ClaimThread(s, k))
  {
    hide SparesPolicies;
  }

  lemma InvariantIsValid(cfg: Config, s: System, k: Key, bucket: string)
    requires TenantInv(cfg, s, k, bucket)
    ensures Valid(s.world, k, TenantOf(cfg, k, bucket))
  {
    hide Valid, TenantOf, OwnNames, Achieved, OwnSecret, ClaimFine, References, TearsDownOwn;
  }
}
