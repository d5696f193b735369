/** Retries converge: however many reconciles of a claim were cut off wherever, one reconcile without faults
    ends where it would have ended had there been no others. */
module Convergence {
  import opened Text
  import opened Errors
  import opened Kube
  import opened Cluster
  import opened Frames
  import opened Provisioning
  import opened ClaimFlow
  import opened ClaimInvariant
  import opened Credentials
  import opened Generations
  import opened Effects
  import M = Minio
  import C = ClaimMachine

  // The claim, its class and the storage server at the start, and what its credentials Secret holds by then.
  datatype Case = Case(k: Key, claim: Claim, bc: BucketClass, server: M.Server, data: map<Entry, string>)

  function AimOf(cfg: Config, x: Case): Aim {
    Aim(TenantOf(cfg, x.k, EffectiveBucketName(x.k, x.claim.spec, x.bc)), x.claim.spec, Region(x.bc),
        x.bc.objectLockingEnabled)
  }

  function FinalCreds(cfg: Config, x: Case): Creds { CredsOf(AimOf(cfg, x).tenant, AimOf(cfg, x).tenant.endpoint) }

  function FinalData(cfg: Config, x: Case): map<Entry, string> { C.CredentialData(FinalCreds(cfg, x), x.data) }

  function FinalStatus(cfg: Config, x: Case): ClaimStatus { C.BoundTo(x.claim, x.k, FinalCreds(cfg, x)).status }

  // What the operator asks of a claim and its class.
  predicate Provisionable(cfg: Config, x: Case) {
    && !x.claim.deleting && Handled(x.bc) && UsesMinio(x.bc) && TrimSpace(cfg.endpoint) != ""
  }

  // No keys but the account's own.
  predicate OwnKeys(cfg: Config, x: Case, data: map<Entry, string>) {
    var n := AimOf(cfg, x).tenant;
    && (TrimSpace(Lookup(data, AccessKeyID)) == "" || TrimSpace(Lookup(data, AccessKeyID)) == n.accessKey)
    && (TrimSpace(Lookup(data, AccessSecretKey)) == "" || TrimSpace(Lookup(data, AccessSecretKey)) == n.secretKey)
  }

  // A Secret that the claim may take for its own, as it was at the start or as provisioning leaves it.
  ghost predicate OursIn(cfg: Config, x: Case, secret: Secret) {
    && (secret.owner.None? || secret.owner == Some(x.claim.uid)) && OwnKeys(cfg, x, secret.data)
    && (secret.data == x.data || secret.data == FinalData(cfg, x))
  }

  ghost predicate StoredIn(cfg: Config, x: Case, secret: Secret) {
    secret.owner == Some(x.claim.uid) && secret.data == FinalData(cfg, x)
  }

  predicate SameReading(x: Case, c: Claim) {
    c.uid == x.claim.uid && c.generation == x.claim.generation && c.spec == x.claim.spec && !c.deleting
  }

  ghost predicate ClaimKept(x: Case, api: Api) {
    && x.k in api.claims && SameReading(x, api.claims[x.k])
    && (|| api.claims[x.k].finalizers == x.claim.finalizers
        || api.claims[x.k].finalizers == x.claim.finalizers + {ClaimFinalizer})
    && x.claim.spec.className in api.classes && api.classes[x.claim.spec.className] == x.bc
  }

  function SecretKeyIn(x: Case): Key { CredentialsKey(x.k) }

  function BucketIn(cfg: Config, x: Case): string { AimOf(cfg, x).tenant.bucket }

  // Provisioned to the end.
  ghost predicate InPlace(cfg: Config, x: Case, w: World) {
    && x.k in w.api.claims && w.api.claims[x.k].status == FinalStatus(cfg, x)
    && w.api.claims[x.k].finalizers == x.claim.finalizers + {ClaimFinalizer}
    && SecretKeyIn(x) in w.api.secrets && StoredIn(cfg, x, w.api.secrets[SecretKeyIn(x)])
    && Alike(w.minio, Goal(x.server, AimOf(cfg, x)), BucketIn(cfg, x))
  }

  ghost predicate SecretSound(cfg: Config, x: Case, api: Api) {
    if SecretKeyIn(x) in api.secrets then OursIn(cfg, x, api.secrets[SecretKeyIn(x)]) else x.data == map[]
  }

  // What every cut-off reconcile leaves behind.
  ghost predicate Between(cfg: Config, x: Case, w: World) {
    && ClaimKept(x, w.api)
    && SecretSound(cfg, x, w.api)
    && Alike(Goal(w.minio, AimOf(cfg, x)), Goal(x.server, AimOf(cfg, x)), BucketIn(cfg, x))
    && (C.UpToDate(w.api.claims[x.k]) ==> InPlace(cfg, x, w))
  }

  predicate KnowsClass(pc: C.Pc) {
    pc.Resolve? || pc.ReadKeys? || C.Serving(pc) || ((pc.NoteFetch? || pc.NoteWrite?) && pc.after.Proceed?)
  }

  /* A thread that runs alone, at any of its calls */

  ghost predicate WayClaim(x: Case, c: Claim, t: C.Thread) {
    && !C.Finalizing(t.pc)
    && (t.pc.AddFinalizer? ==> t.claim == c)
    && (Working(t.pc) ==> SameReading(x, t.claim) && c.finalizers == x.claim.finalizers + {ClaimFinalizer})
    && (KnowsClass(t.pc) ==> t.bc == x.bc)
    && (t.pc.NoteWrite? || t.pc.StoreStatus? ==> t.pc.seen == c)
    && (t.pc.NoteFetch? || t.pc.NoteWrite? ==> t.pc.note.phase != Bound)
    && (Unfinished(t.pc) ==> !C.UpToDate(c))
    && (t.pc.FetchCosi? || t.pc.StoreCosi? ==> C.UpToDate(c))
  }

  ghost predicate WayBackend(cfg: Config, x: Case, m: M.Server, t: C.Thread) {
    var g, b := AimOf(cfg, x), BucketIn(cfg, x);
    && (t.pc.Provision? ==>
          && t.creds == CredsOf(g.tenant, cfg.endpoint) && AllParts(g, Then(t.pc.call, t.pc.rest))
          && Alike(AfterAll(m, Then(t.pc.call, t.pc.rest)), Goal(x.server, g), b))
    && (Publishing(t.pc) ==> t.creds == FinalCreds(cfg, x) && Alike(m, Goal(x.server, g), b))
  }

  ghost predicate WaySecret(cfg: Config, x: Case, api: Api, t: C.Thread) {
    && (t.pc.StoreSecret? ==>
          && StoredIn(cfg, x, t.pc.secret) && (t.pc.create <==> SecretKeyIn(x) !in api.secrets)
          && (!t.pc.create ==> api.secrets[SecretKeyIn(x)].resourceVersion == t.pc.secret.resourceVersion))
    && (t.pc.Refetch? || t.pc.StoreStatus? || t.pc.FetchCosi? || t.pc.StoreCosi? ==>
          SecretKeyIn(x) in api.secrets && StoredIn(cfg, x, api.secrets[SecretKeyIn(x)]))
  }

  ghost predicate OnTheWay(cfg: Config, x: Case, w: World, t: C.Thread) {
    x.k in w.api.claims && WayClaim(x, w.api.claims[x.k], t) && WayBackend(cfg, x, w.minio, t)
      && WaySecret(cfg, x, w.api, t)
  }

  /* Steps that write nothing */

  predicate Reads(pc: C.Pc) {
    pc.Fetch? || pc.FetchClass? || pc.Resolve? || pc.NoteFetch? || pc.ReadKeys? || pc.FetchSecret? || pc.Refetch?
      || pc.FetchCosi?
  }

  // The replies to reads tell what is stored.
  ghost predicate TrueReply(x: Case, w: World, t: C.Thread, r: Reply)
    requires x.k in w.api.claims
  {
    && (r.ClaimIs? ==> r.claim == w.api.claims[x.k])
    && (t.pc.FetchClass? && r.ClassIs? ==> r.bc == x.bc)
    && ((t.pc.ReadKeys? || t.pc.FetchSecret?) && r.SecretIs? ==>
          SecretKeyIn(x) in w.api.secrets && r.secret == w.api.secrets[SecretKeyIn(x)])
    && (t.pc.FetchSecret? && r.NotFound? ==> SecretKeyIn(x) !in w.api.secrets)
  }

  lemma ReadTurn(x: Case, w: World, t: C.Thread, c: Choice)
    requires Reads(t.pc) && ClaimKept(x, w.api) && (t.pc.FetchClass? ==> SameReading(x, t.claim))
    ensures var (w', r) := Serve(w, C.Request(x.k, t), c); w' == w && TrueReply(x, w, t, r)
  {
    hide ServeMinio, ServeAccesses, WriteSecret, WriteClaim, WriteClaimStatus, WriteCosi, TrimSpace, CredentialsKey;
  }

  lemma ReadClaimSide(cfg: Config, x: Case, w: World, t: C.Thread, r: Reply, next: C.Thread)
    requires Reads(t.pc) && ClaimKept(x, w.api) && WayClaim(x, w.api.claims[x.k], t)
    requires TrueReply(x, w, t, r) && Arrival(cfg, x.k, t, r, next)
    ensures WayClaim(x, w.api.claims[x.k], next)
  {
    hide Advance, C.ProvisionScript, StartingCreds, TrimmedCreds, Begins, C.Destruction, Complete, IsBound, Handled,
         GivenCreds, C.CredentialData, TrimSpace, Lookup, C.UpToDate;
  }

  lemma ScriptIsWhole(cfg: Config, x: Case, creds: Creds)
    requires UsesMinio(x.bc) && creds == CredsOf(AimOf(cfg, x).tenant, cfg.endpoint)
    ensures C.ProvisionScript(x.k, x.claim, x.bc, creds) == AimScript(AimOf(cfg, x))
    ensures AllParts(AimOf(cfg, x), AimScript(AimOf(cfg, x)))
  {
    hide UsesMinio, EffectiveBucketName, M.AccessKeyForAccount, M.SecretForAccount, M.PolicyName, EqualFold, Region,
         Rules, Joined, TrimSpace, CredentialsKey, QuotaScript;
    WholeIsParts(AimOf(cfg, x));
  }

  lemma WholeIsParts(g: Aim)
    ensures AllParts(g, AimScript(g))
  {
    hide PolicyOf, Rules, GrantPart;
    var s3, b, spec := GrantPart(g), g.tenant.bucket, g.spec;
    GrantPartIsPart(g);
    assert AllParts(g, ReplicationScript(b, spec, s3));
    assert AllParts(g, LifecycleScript(b, spec, s3));
    assert AllParts(g, QuotaScript(b, spec, s3));
    assert AllParts(g, AimScript(g).rest);
  }

  lemma ScriptIgnoresStatus(k: Key, a: Claim, b: Claim, bc: BucketClass, creds: Creds)
    requires a.spec == b.spec
    ensures C.ProvisionScript(k, a, bc, creds) == C.ProvisionScript(k, b, bc, creds)
  {
    hide UsesMinio, BucketScript, GrantScript, Joined;
  }

  lemma KeysAreOurs(cfg: Config, x: Case, t: C.Thread, r: Reply)
    requires t.pc.ReadKeys? && t.claim.spec == x.claim.spec && t.bc == x.bc
    requires r.SecretIs? ==> OursIn(cfg, x, r.secret)
    ensures StartingCreds(cfg, x.k, t, r) == CredsOf(AimOf(cfg, x).tenant, cfg.endpoint)
  {
    M.CredentialsAreTrimmed(cfg.digest, Joined(x.k));
    TrimSpaceTrimmed("");
    hide EffectiveBucketName, Region, Joined, M.AccessKeyForAccount, M.SecretForAccount, M.PolicyName, TrimSpace,
         FinalData, CredentialsKey;
  }

  /** Why they must be: a reconcile that cannot read the Secret asks for the same keys as one that can if and only if
      the keys in it, as far as there are any, are the account's own. With others it makes another user. */
  lemma LostReadKeepsKeysIff(cfg: Config, k: Key, t: C.Thread, secret: Secret, err: Err)
    ensures var ak, sk := TrimSpace(Lookup(secret.data, AccessKeyID)), TrimSpace(Lookup(secret.data, AccessSecretKey));
            StartingCreds(cfg, k, t, SecretIs(secret)) == StartingCreds(cfg, k, t, Refused(err))
            <==> && (ak == "" || ak == M.AccessKeyForAccount(Joined(k)))
                 && (sk == "" || sk == M.SecretForAccount(cfg.digest, Joined(k)))
  {
    TrimSpaceTrimmed("");
    hide EffectiveBucketName, Joined, M.AccessKeyForAccount, M.SecretForAccount, TrimSpace;
  }

  lemma ProvisionBegins(cfg: Config, x: Case, m: M.Server, t: C.Thread, r: Reply, next: C.Thread)
    requires t.pc.ReadKeys? && next.pc.Provision? && Arrival(cfg, x.k, t, r, next) && UsesMinio(x.bc)
    requires t.claim.spec == x.claim.spec && t.bc == x.bc && (r.SecretIs? ==> OursIn(cfg, x, r.secret))
    requires Alike(Goal(m, AimOf(cfg, x)), Goal(x.server, AimOf(cfg, x)), BucketIn(cfg, x))
    ensures WayBackend(cfg, x, m, next)
  {
    hide AimOf, Alike, AfterAll, Goal, C.ProvisionScript, StartingCreds, UsesMinio, AimScript, AllParts, OursIn;
    KeysAreOurs(cfg, x, t, r);
    ScriptIgnoresStatus(x.k, t.claim, x.claim, x.bc, next.creds);
    ScriptIsWhole(cfg, x, next.creds);
    ScriptReachesGoal(m, AimOf(cfg, x));
    AlikeTrans(AfterAll(m, AimScript(AimOf(cfg, x))), Goal(m, AimOf(cfg, x)), Goal(x.server, AimOf(cfg, x)),
               BucketIn(cfg, x));
  }

  lemma ReadBackendSide(cfg: Config, x: Case, w: World, t: C.Thread, r: Reply, next: C.Thread)
    requires Reads(t.pc) && Provisionable(cfg, x) && Between(cfg, x, w) && OnTheWay(cfg, x, w, t)
    requires TrueReply(x, w, t, r) && Arrival(cfg, x.k, t, r, next)
    ensures WayBackend(cfg, x, w.minio, next)
  {
    hide AimOf, Alike, AfterAll, Goal, AllParts, OursIn, C.UpToDate, InPlace, Advance, C.ProvisionScript, StartingCreds,
         TrimmedCreds, Begins, C.Destruction, Complete, IsBound, Handled, GivenCreds, C.CredentialData, TrimSpace,
         Lookup, UsesMinio, FinalCreds;
    if t.pc.ReadKeys? && next.pc.Provision? { ProvisionBegins(cfg, x, w.minio, t, r, next); }
  }

  lemma ReadSecretSide(cfg: Config, x: Case, w: World, t: C.Thread, r: Reply, next: C.Thread)
    requires Reads(t.pc) && Between(cfg, x, w) && OnTheWay(cfg, x, w, t)
    requires TrueReply(x, w, t, r) && Arrival(cfg, x.k, t, r, next)
    ensures WaySecret(cfg, x, w.api, next)
  {
    hide AimOf, Alike, AfterAll, Goal, AllParts, C.UpToDate, InPlace, Advance, C.ProvisionScript, StartingCreds,
         TrimmedCreds, Begins, C.Destruction, Complete, IsBound, Handled, GivenCreds, C.CredentialData, TrimSpace,
         Lookup, UsesMinio, FinalCreds;
    if next.pc.StoreSecret? && !next.pc.create { SameData(FinalCreds(cfg, x), x.data); }
  }

  // Writing the same entries again changes nothing.
  lemma SameData(creds: Creds, data: map<Entry, string>)
    ensures C.CredentialData(creds, C.CredentialData(creds, data)) == C.CredentialData(creds, data)
  {
  }

  /* Steps that write the claim */

  predicate WritesIt(pc: C.Pc) { pc.AddFinalizer? || pc.NoteWrite? || pc.StoreStatus? }

  // What such a step makes of the claim.
  ghost predicate Written(cfg: Config, x: Case, t: C.Thread, c: Claim, d: Claim) {
    && SameReading(x, d)
    && (t.pc.AddFinalizer? ==> d.status == c.status && d.finalizers == c.finalizers + {ClaimFinalizer})
    && (t.pc.NoteWrite? ==> !IsBound(d.status) && d.finalizers == c.finalizers)
    && (t.pc.StoreStatus? ==> d.status == FinalStatus(cfg, x) && d.finalizers == c.finalizers)
  }

  lemma WritingCalls(k: Key, t: C.Thread)
    requires WritesIt(t.pc)
    ensures WritesClaim(C.Request(k, t)) && OnClaims(C.Request(k, t))
  {
    hide CredentialsKey;
  }

  lemma WriteServed(cfg: Config, x: Case, api: Api, t: C.Thread, call: Call)
    requires WritesIt(t.pc) && call == C.Request(x.k, t) && OnClaims(call)
    requires ClaimKept(x, api) && WayClaim(x, api.claims[x.k], t)
    requires t.pc.StoreStatus? ==> t.creds == FinalCreds(cfg, x)
    ensures var (after, r) := ServeClaims(api, call);
            && x.k in after.claims && Written(cfg, x, t, api.claims[x.k], after.claims[x.k])
               && r == ClaimIs(after.claims[x.k])
            && after.classes == api.classes && after.secrets == api.secrets
  {
    hide FinalCreds, CredentialsKey;
  }

  lemma WriteTurn(cfg: Config, x: Case, w: World, t: C.Thread, c: Choice)
    requires WritesIt(t.pc) && ClaimKept(x, w.api) && WayClaim(x, w.api.claims[x.k], t)
    requires t.pc.StoreStatus? ==> t.creds == FinalCreds(cfg, x)
    ensures var (w', r) := Serve(w, C.Request(x.k, t), c);
            && w'.minio == w.minio && w'.api.secrets == w.api.secrets && w'.api.classes == w.api.classes
               && x.k in w'.api.claims
            && (if w' == w then !r.ClaimIs? else Written(cfg, x, t, w.api.claims[x.k], w'.api.claims[x.k]))
            && (r.ClaimIs? ==> r.claim == w'.api.claims[x.k])
            && (c.fate.Works? ==> r.ClaimIs?)
  {
    hide Perform, C.Request, ServeClaims, Written, FinalCreds, WayClaim;
    WritingCalls(x.k, t);
    WriteServed(cfg, x, w.api, t, C.Request(x.k, t));
    Performs(w, C.Request(x.k, t), c);
    Performs(w, C.Request(x.k, t), c.(fate := Works));
    VersionMoves(w.api, x.k, C.Request(x.k, t));
  }

  // A write that succeeds is seen.
  lemma VersionMoves(api: Api, k: Key, call: Call)
    requires WritesClaim(call)
    ensures ServeClaims(api, call).1.ClaimIs? ==> ServeClaims(api, call).0 != api
  {
  }

  lemma WriteClaimSide(cfg: Config, x: Case, a: Claim, b: Claim, t: C.Thread, r: Reply, next: C.Thread)
    requires WritesIt(t.pc) && WayClaim(x, a, t) && Arrival(cfg, x.k, t, r, next)
    requires a.finalizers == x.claim.finalizers || a.finalizers == x.claim.finalizers + {ClaimFinalizer}
    requires (b == a && !r.ClaimIs?) || Written(cfg, x, t, a, b)
    requires r.ClaimIs? ==> r.claim == b
    requires UpToDateFinal(cfg, x)
    ensures WayClaim(x, b, next)
  {
    hide Advance, C.ProvisionScript, StartingCreds, TrimmedCreds, Begins, C.Destruction, Complete, Handled, GivenCreds,
         C.CredentialData, TrimSpace, Lookup, FinalStatus;
    assert x.claim.finalizers + {ClaimFinalizer} + {ClaimFinalizer} == x.claim.finalizers + {ClaimFinalizer};
  }

  // The final status is that of a claim that is up to date.
  ghost predicate UpToDateFinal(cfg: Config, x: Case) {
    var s := FinalStatus(cfg, x);
    IsBound(s) && s.ready.value.observedGeneration == x.claim.generation
  }

  lemma FinalIsUpToDate(cfg: Config, x: Case)
    ensures UpToDateFinal(cfg, x)
  {
    hide FinalCreds, CredentialsKey;
  }

  lemma WriteSides(cfg: Config, x: Case, a: World, b: World, t: C.Thread, r: Reply, next: C.Thread)
    requires WritesIt(t.pc) && OnTheWay(cfg, x, a, t) && Arrival(cfg, x.k, t, r, next)
    requires b.minio == a.minio && b.api.secrets == a.api.secrets
    ensures WayBackend(cfg, x, b.minio, next) && WaySecret(cfg, x, b.api, next)
  {
    hide AimOf, Alike, AfterAll, Goal, AllParts, C.UpToDate, Advance, C.ProvisionScript, StartingCreds, TrimmedCreds,
         Begins, C.Destruction, Complete, IsBound, Handled, GivenCreds, C.CredentialData, TrimSpace, Lookup, UsesMinio,
         FinalCreds;
  }

  lemma WriteBetween(cfg: Config, x: Case, a: World, b: World, t: C.Thread)
    requires WritesIt(t.pc) && Between(cfg, x, a) && OnTheWay(cfg, x, a, t)
    requires b.minio == a.minio && b.api.secrets == a.api.secrets && b.api.classes == a.api.classes
    requires x.k in b.api.claims
    requires b.api.claims[x.k] == a.api.claims[x.k] || Written(cfg, x, t, a.api.claims[x.k], b.api.claims[x.k])
    ensures Between(cfg, x, b)
  {
    hide AimOf, Alike, AfterAll, Goal, AllParts, FinalStatus, FinalCreds, OursIn, SecretKeyIn;
    assert x.claim.finalizers + {ClaimFinalizer} + {ClaimFinalizer} == x.claim.finalizers + {ClaimFinalizer};
  }

  /* Provisioning steps */

  // What a served or skipped call leaves to do comes to the same.
  lemma AdvanceReaches(m: M.Server, g: Aim, call: BackendCall, rest: Script)
    requires AllParts(g, Then(call, rest))
    ensures var (m', r) := ServeMinio(m, call);
            && OnMinio(call)
            && (!r.Refused? ==> Advance(call, rest, r).Goes? && AllParts(g, Advance(call, rest, r).todo)
                                && AfterAll(m', Advance(call, rest, r).todo) == AfterAll(m, Then(call, rest)))
  {
    PartIsMinio(g, call);
    hide IsPart, CallError, OperationOf;
    var (m', r) := ServeMinio(m, call);
    assert After(m, call) == m' && AfterAll(m, Then(call, rest)) == AfterAll(m', rest);
    if call.BucketExists? && rest.Then? && rest.call.MakeBucket? && call.b in m.buckets {
      assert AllParts(g, rest);
      SameBucketCalls(g, call, rest.call);
      assert After(m, rest.call) == m;
    }
    if call.BucketExists? && rest.Then? { NoRemovalPart(g, rest.call); }
    ExistsOnlyAnswersExists(m, call);
  }

  lemma PartIsMinio(g: Aim, call: Call)
    requires IsPart(g, call)
    ensures OnMinio(call) && !call.RemoveBucket?
  {
  }

  lemma SameBucketCalls(g: Aim, a: Call, b: Call)
    requires IsPart(g, a) && IsPart(g, b) && a.BucketExists? && b.MakeBucket?
    ensures a.b == b.b
  {
  }

  lemma NoRemovalPart(g: Aim, call: Call)
    requires IsPart(g, call)
    ensures !call.RemoveBucket?
  {
  }

  lemma ExistsOnlyAnswersExists(m: M.Server, call: Call)
    requires OnMinio(call)
    ensures ServeMinio(m, call).1.Exists? <==> call.BucketExists?
    ensures ServeMinio(m, call).1.Exists? || ServeMinio(m, call).1.Done? || ServeMinio(m, call).1.Refused?
  {
    hide Effect;
  }

  // A best-effort call that was refused leaves what is to do alike.
  lemma OptionalReaches(m: M.Server, m': M.Server, g: Aim, call: BackendCall, rest: Script)
    requires AllParts(g, Then(call, rest)) && BestEffort(call) && (m' == m || m' == After(m, call))
    ensures Alike(AfterAll(m', rest), AfterAll(m, Then(call, rest)), g.tenant.bucket)
  {
    hide Alike, After;
    assert AfterAll(m, Then(call, rest)) == AfterAll(After(m, call), rest);
    AlikeItself(AfterAll(After(m, call), rest), g.tenant.bucket);
    if m' == m {
      assert call.SetReplication? by { hide AllParts; assert IsPart(g, call) by { FirstPart(g, call, rest); } }
      ReplicationIsOptional(m, g, call);
      AlikeBack(After(m, call), m, g.tenant.bucket);
      AlikeAfterAll(m, After(m, call), g, rest);
    }
  }

  lemma FirstPart(g: Aim, call: BackendCall, rest: Script)
    requires AllParts(g, Then(call, rest))
    ensures IsPart(g, call) && AllParts(g, rest)
  {
    hide IsPart;
  }

  lemma AlikeBack(a: M.Server, c: M.Server, b: string)
    requires Alike(a, c, b)
    ensures Alike(c, a, b)
  {
  }

  lemma ProvisionServed(w: World, g: Aim, call: BackendCall, rest: Script, c: Choice)
    requires AllParts(g, Then(call, rest))
    ensures var (w', r) := Serve(w, call, c);
            && w'.api == w.api && (w'.minio == w.minio || w'.minio == After(w.minio, call)) && !r.Granted?
            && Alike(Goal(w'.minio, g), Goal(w.minio, g), g.tenant.bucket)
            && (Advance(call, rest, r).Goes? ==>
                  && AllParts(g, Advance(call, rest, r).todo)
                  && Alike(AfterAll(w'.minio, Advance(call, rest, r).todo), AfterAll(w.minio, Then(call, rest)),
                           g.tenant.bucket))
  {
    FirstPart(g, call, rest);
    PartIsMinio(g, call);
    hide Serve, Perform, ServeMinio, AllParts, IsPart, Alike, AfterAll, Goal, CallError, OperationOf;
    var (w', r) := Serve(w, call, c);
    ServeWorld(w, call, c);
    ServeReply(w, call, c);
    Performs(w, call, c);
    GoalAbsorbs(w.minio, g, call);
    AlikeItself(Goal(w.minio, g), g.tenant.bucket);
    AlikeItself(AfterAll(w.minio, Then(call, rest)), g.tenant.bucket);
    AdvanceReaches(w.minio, g, call, rest);
    ExistsOnlyAnswersExists(w.minio, call);
    if r.Refused? && BestEffort(call) { OptionalReaches(w.minio, w'.minio, g, call, rest); }
  }

  lemma ProvisionClaimSide(cfg: Config, x: Case, c: Claim, t: C.Thread, r: Reply, next: C.Thread)
    requires (t.pc.Provision? || t.pc.StoreSecret? || t.pc.StoreCosi?) && WayClaim(x, c, t)
    requires Arrival(cfg, x.k, t, r, next)
    ensures WayClaim(x, c, next)
  {
    hide Advance, C.ProvisionScript, StartingCreds, TrimmedCreds, Begins, C.Destruction, Complete, IsBound, Handled,
         GivenCreds, C.CredentialData, TrimSpace, Lookup, C.UpToDate;
  }

  lemma ProvisionAlone(cfg: Config, x: Case, w: World, t: C.Thread, c: Choice, next: C.Thread)
    requires t.pc.Provision? && Between(cfg, x, w) && OnTheWay(cfg, x, w, t)
    requires Arrival(cfg, x.k, t, Serve(w, t.pc.call, c).1, next)
    ensures Between(cfg, x, Serve(w, t.pc.call, c).0) && OnTheWay(cfg, x, Serve(w, t.pc.call, c).0, next)
  {
    hide Serve, AimOf, Alike, AfterAll, Goal, AllParts, C.UpToDate, Advance, C.ProvisionScript, StartingCreds, Begins,
         C.Destruction, Complete, IsBound, Handled, C.CredentialData, TrimSpace, Lookup, UsesMinio, FinalCreds,
         FinalStatus, OursIn, SecretKeyIn, TrimmedCreds;
    var (w', r) := Serve(w, t.pc.call, c);
    var g, b := AimOf(cfg, x), BucketIn(cfg, x);
    ProvisionServed(w, g, t.pc.call, t.pc.rest, c);
    AlikeTrans(Goal(w'.minio, g), Goal(w.minio, g), Goal(x.server, g), b);
    if Advance(t.pc.call, t.pc.rest, r).Goes? {
      AlikeTrans(AfterAll(w'.minio, Advance(t.pc.call, t.pc.rest, r).todo),
                 AfterAll(w.minio, Then(t.pc.call, t.pc.rest)), Goal(x.server, g), b);
    }
    ProvisionClaimSide(cfg, x, w.api.claims[x.k], t, r, next);
    NothingToDo(w'.minio);
    CredsAtTheEnd(cfg, x);
  }

  lemma NothingToDo(m: M.Server)
    ensures AfterAll(m, End) == m
  {
  }

  lemma CredsAtTheEnd(cfg: Config, x: Case)
    ensures TrimmedCreds(CredsOf(AimOf(cfg, x).tenant, cfg.endpoint)) == FinalCreds(cfg, x)
  {
    TrimmedTenant(cfg, x.k, EffectiveBucketName(x.k, x.claim.spec, x.bc));
    hide TenantOf, EffectiveBucketName, Region, TrimmedCreds;
  }

  /* Storing the Secret, and the COSI object */

  lemma SecretServed(k: Key, w: World, t: C.Thread, c: Choice)
    requires t.pc.StoreSecret?
    requires t.pc.create <==> CredentialsKey(k) !in w.api.secrets
    requires !t.pc.create ==> w.api.secrets[CredentialsKey(k)].resourceVersion == t.pc.secret.resourceVersion
    ensures var (w', r) := Serve(w, C.Request(k, t), c);
            && w'.minio == w.minio && w'.api.claims == w.api.claims && w'.api.classes == w.api.classes
            && (if w' == w then !r.SecretIs? else Stored(w'.api, k, t.pc.secret))
            && (c.fate.Works? ==> r.SecretIs?)
  {
    hide ServeClaims, ServeAccesses, ServeCosi, ServeMinio, ReplyOnly, CredentialsKey;
  }

  lemma StoredIsOurs(cfg: Config, x: Case)
    ensures OwnKeys(cfg, x, FinalData(cfg, x))
  {
    M.CredentialsAreTrimmed(cfg.digest, Joined(x.k));
    hide EffectiveBucketName, Region, Joined, M.AccessKeyForAccount, M.SecretForAccount, M.PolicyName, TrimSpace,
         CredentialsKey;
  }

  lemma SecretAlone(cfg: Config, x: Case, w: World, t: C.Thread, c: Choice, next: C.Thread)
    requires t.pc.StoreSecret? && Between(cfg, x, w) && OnTheWay(cfg, x, w, t)
    requires Arrival(cfg, x.k, t, Serve(w, C.Request(x.k, t), c).1, next)
    ensures Between(cfg, x, Serve(w, C.Request(x.k, t), c).0)
    ensures OnTheWay(cfg, x, Serve(w, C.Request(x.k, t), c).0, next)
  {
    hide Serve, C.Request, AimOf, Alike, AfterAll, Goal, AllParts, C.UpToDate, Advance, C.ProvisionScript,
         StartingCreds, Begins, C.Destruction, Complete, IsBound, Handled, C.CredentialData, TrimSpace, Lookup,
         UsesMinio, FinalCreds, FinalStatus, TrimmedCreds, FinalData, CredentialsKey, OwnKeys;
    StoredIsOurs(cfg, x);
    SecretServed(x.k, w, t, c);
    ProvisionClaimSide(cfg, x, w.api.claims[x.k], t, Serve(w, C.Request(x.k, t), c).1, next);
  }

  lemma CosiServed(k: Key, w: World, t: C.Thread, c: Choice)
    requires t.pc.StoreCosi?
    ensures var w' := Serve(w, C.Request(k, t), c).0;
            w'.minio == w.minio && w'.api.claims == w.api.claims && w'.api.classes == w.api.classes
              && w'.api.secrets == w.api.secrets
  {
    hide TrimSpace;
    assert OnCosi(C.Request(k, t));
    hide Serve, C.Request;
    Frame(w, C.Request(k, t), c);
  }

  lemma CosiAlone(cfg: Config, x: Case, w: World, t: C.Thread, c: Choice, next: C.Thread)
    requires t.pc.StoreCosi? && Between(cfg, x, w) && OnTheWay(cfg, x, w, t)
    requires Arrival(cfg, x.k, t, Serve(w, C.Request(x.k, t), c).1, next)
    ensures Between(cfg, x, Serve(w, C.Request(x.k, t), c).0)
    ensures OnTheWay(cfg, x, Serve(w, C.Request(x.k, t), c).0, next)
  {
    hide Serve, C.Request, AimOf, Alike, AfterAll, Goal, AllParts, C.UpToDate, Advance, C.ProvisionScript,
         StartingCreds, Begins, C.Destruction, Complete, IsBound, Handled, C.CredentialData, TrimSpace, Lookup,
         UsesMinio, FinalCreds, FinalStatus, TrimmedCreds, OursIn, SecretKeyIn;
    CosiServed(x.k, w, t, c);
    ProvisionClaimSide(cfg, x, w.api.claims[x.k], t, Serve(w, C.Request(x.k, t), c).1, next);
  }

  /* Any activation, whatever happens to it */

  lemma AloneStep(cfg: Config, x: Case, w: World, t: C.Thread, c: Choice)
    requires Provisionable(cfg, x) && !t.pc.Finished? && Between(cfg, x, w) && OnTheWay(cfg, x, w, t)
    ensures var (w', r) := Serve(w, C.Request(x.k, t), c);
            Between(cfg, x, w') && OnTheWay(cfg, x, w', C.Resume(cfg, x.k, t, r))
  {
    hide Serve, C.Request, C.Resume, Arrival, Provisionable, Between, WayClaim, WayBackend, WaySecret, TrueReply,
         Written;
    var (w', r) := Serve(w, C.Request(x.k, t), c);
    var next := C.Resume(cfg, x.k, t, r);
    Arrives(cfg, x.k, t, r);
    WayFacts(cfg, x, w, t);
    if Reads(t.pc) {
      ReadTurn(x, w, t, c);
      ReadClaimSide(cfg, x, w, t, r, next);
      ReadBackendSide(cfg, x, w, t, r, next);
      ReadSecretSide(cfg, x, w, t, r, next);
    } else if WritesIt(t.pc) {
      WriteTurn(cfg, x, w, t, c);
      FinalIsUpToDate(cfg, x);
      WriteBetween(cfg, x, w, w', t);
      WriteClaimSide(cfg, x, w.api.claims[x.k], w'.api.claims[x.k], t, r, next);
      WriteSides(cfg, x, w, w', t, r, next);
    } else if t.pc.Provision? {
      ProvisionCall(x.k, t);
      ProvisionAlone(cfg, x, w, t, c, next);
    } else if t.pc.StoreSecret? {
      SecretAlone(cfg, x, w, t, c, next);
    } else {
      CosiAlone(cfg, x, w, t, c, next);
    }
  }

  lemma WayFacts(cfg: Config, x: Case, w: World, t: C.Thread)
    requires Between(cfg, x, w) && OnTheWay(cfg, x, w, t)
    ensures ClaimKept(x, w.api) && !C.Finalizing(t.pc)
    ensures t.pc.FetchClass? ==> SameReading(x, t.claim)
    ensures t.pc.StoreStatus? ==> t.creds == FinalCreds(cfg, x)
    ensures var c := w.api.claims[x.k];
            c.finalizers == x.claim.finalizers || c.finalizers == x.claim.finalizers + {ClaimFinalizer}
  {
    hide AimOf, Alike, AfterAll, Goal, AllParts, InPlace, FinalCreds, OursIn, C.UpToDate;
  }

  lemma Setout(cfg: Config, x: Case, w: World)
    requires Between(cfg, x, w)
    ensures OnTheWay(cfg, x, w, C.START)
  {
    hide AimOf, Alike, AfterAll, Goal, AllParts, InPlace, FinalCreds, OursIn, C.UpToDate;
  }

  lemma {:induction false} AnyRunStaysBetween(cfg: Config, x: Case, w: World, t: C.Thread, plan: nat -> Choice, n: nat)
    requires Provisionable(cfg, x) && Between(cfg, x, w) && OnTheWay(cfg, x, w, t)
    ensures Between(cfg, x, C.RunAlone(cfg, x.k, w, t, plan, n).world)
    decreases C.Stage(t.pc), C.Left(t.pc)
  {
    hide Serve, C.Request, C.Resume, Between, OnTheWay, Provisionable, C.Stage, C.Left;
    if !t.pc.Finished? {
      AloneStep(cfg, x, w, t, plan(n));
      var (w', r) := Serve(w, C.Request(x.k, t), plan(n));
      C.Progresses(cfg, x.k, t, r);
      AnyRunStaysBetween(cfg, x, w', C.Resume(cfg, x.k, t, r), plan, n + 1);
    }
  }

  /* An activation without faults */

  predicate Fair(c: Choice) { c.fate.Works? && c.resolution.None? }

  // Served without faults, the script is never refused.
  predicate Serviceable(m: M.Server, todo: Script)
    decreases Size(todo)
  {
    todo.End?
    || (&& OnMinio(todo.call)
        && var (m', r) := ServeMinio(m, todo.call);
           AdvanceShortens(todo.call, todo.rest, r);
           var p := Advance(todo.call, todo.rest, r);
           p.Goes? && Serviceable(m', p.todo))
  }

  lemma GrantIsServiceable(m: M.Server, g: Aim)
    ensures Serviceable(m, GrantPart(g))
  {
    hide PolicyOf, CallError, OperationOf;
    var n := g.tenant;
    var m1 := ServeMinio(m, AddUser(n.accessKey, n.secretKey)).0;
    var m2 := ServeMinio(m1, AddPolicy(n.policy, PolicyOf(n.bucket, g.spec))).0;
    var s2 := Then(AttachPolicy(n.policy, n.accessKey), End);
    assert Serviceable(ServeMinio(m2, AttachPolicy(n.policy, n.accessKey)).0, End);
    assert Serviceable(m2, s2);
    assert Serviceable(m1, Then(AddPolicy(n.policy, PolicyOf(n.bucket, g.spec)), s2));
  }

  // One more call in front, which is served and keeps the bucket.
  lemma ServiceableBefore(m: M.Server, b: string, call: BackendCall, rest: Script)
    requires b in m.buckets && (call.SetQuota? || call.SetLifecycle? || call.SetReplication?) && call.b == b
    requires rest.Then? ==> !rest.call.MakeBucket? && !rest.call.RemoveBucket?
    requires Serviceable(ServeMinio(m, call).0, rest)
    ensures Serviceable(m, Then(call, rest)) && b in ServeMinio(m, call).0.buckets
  {
    hide CallError, OperationOf;
  }

  lemma ConfigIsServiceable(m: M.Server, g: Aim)
    requires g.tenant.bucket in m.buckets
    ensures Serviceable(m, QuotaScript(g.tenant.bucket, g.spec, GrantPart(g)))
  {
    hide GrantPart, Rules, Serviceable, Effect;
    var b, spec, s3 := g.tenant.bucket, g.spec, GrantPart(g);
    assert s3.Then? && s3.call.AddUser? by { GrantStarts(g); }
    var s2, s1 := ReplicationScript(b, spec, s3), LifecycleScript(b, spec, s3);
    forall m: M.Server | b in m.buckets ensures Serviceable(m, s2) {
      GrantIsServiceable(m, g);
      if spec.replicationTarget.Some? {
        GrantIsServiceable(ServeMinio(m, SetReplication(b, spec.replicationTarget.value)).0, g);
        ServiceableBefore(m, b, SetReplication(b, spec.replicationTarget.value), s3);
      }
    }
    forall m: M.Server | b in m.buckets ensures Serviceable(m, s1) {
      if |spec.lifecycleRules| > 0 {
        var call := Call.SetLifecycle(b, Rules(spec.lifecycleRules));
        BucketStays(m, b, call);
        ServiceableBefore(m, b, call, s2);
      }
    }
    if WantsQuota(spec) {
      var call := Call.SetQuota(b, spec.quotaBytes.value);
      BucketStays(m, b, call);
      ServiceableBefore(m, b, call, s1);
    }
  }

  lemma GrantStarts(g: Aim)
    ensures GrantPart(g).Then? && GrantPart(g).call.AddUser?
  {
    hide PolicyOf;
  }

  lemma BucketStays(m: M.Server, b: string, call: Call)
    requires b in m.buckets && (call.SetQuota? || call.SetLifecycle?)
    ensures b in ServeMinio(m, call).0.buckets
  {
  }

  lemma WholeIsServiceable(m: M.Server, g: Aim)
    ensures Serviceable(m, AimScript(g))
  {
    hide GrantPart, QuotaScript, CallError, OperationOf;
    var b := g.tenant.bucket;
    var rest := QuotaScript(b, g.spec, GrantPart(g));
    var make := MakeBucket(b, g.region, g.locking);
    if b in m.buckets {
      ConfigIsServiceable(m, g);
    } else {
      ConfigIsServiceable(ServeMinio(m, make).0, g);
      assert Serviceable(m, Then(make, rest));
    }
  }

  // A thread that nothing has gone wrong for.
  ghost predicate Smooth(cfg: Config, x: Case, w: World, t: C.Thread) {
    && (t.pc.Finished? ==> InPlace(cfg, x, w))
    && (t.pc.NoteFetch? || t.pc.NoteWrite? ==> t.pc.after.Proceed?)
    && (t.pc.Provision? ==> Serviceable(w.minio, Then(t.pc.call, t.pc.rest)))
  }

  // The replies of a fault-free cluster to each kind of call.
  ghost predicate GoodReply(cfg: Config, x: Case, w: World, t: C.Thread, r: Reply) {
    && (t.pc.Fetch? || t.pc.AddFinalizer? || t.pc.Refetch? || t.pc.StoreStatus? ==> r.ClaimIs?)
    && (t.pc.FetchClass? ==> r == ClassIs(x.bc))
    && (t.pc.Resolve? ==> r.Resolved?)
    && (t.pc.FetchSecret? ==> r.NotFound? || (r.SecretIs? && OursIn(cfg, x, r.secret)))
    && (t.pc.StoreSecret? ==> r.SecretIs?)
  }

  lemma GoodReads(cfg: Config, x: Case, w: World, t: C.Thread, c: Choice)
    requires Reads(t.pc) && Fair(c) && Provisionable(cfg, x) && Between(cfg, x, w) && OnTheWay(cfg, x, w, t)
    ensures GoodReply(cfg, x, w, t, Serve(w, C.Request(x.k, t), c).1)
  {
    hide ServeMinio, ServeAccesses, WriteSecret, WriteClaim, WriteClaimStatus, WriteCosi, TrimSpace, CredentialsKey,
         FinalData, FinalStatus, FinalCreds, AimOf, Alike, Goal, AfterAll, C.UpToDate, AllParts;
  }

  lemma GoodReplies(cfg: Config, x: Case, w: World, t: C.Thread, c: Choice)
    requires !t.pc.Finished? && Fair(c) && Provisionable(cfg, x) && Between(cfg, x, w) && OnTheWay(cfg, x, w, t)
    ensures GoodReply(cfg, x, w, t, Serve(w, C.Request(x.k, t), c).1)
  {
    hide Serve, C.Request, Between, WayClaim, WayBackend, OursIn, Provisionable;
    WayFacts(cfg, x, w, t);
    if Reads(t.pc) { GoodReads(cfg, x, w, t, c); }
    else if WritesIt(t.pc) { WayParts(cfg, x, w, t); WriteTurn(cfg, x, w, t, c); }
    else if t.pc.StoreSecret? { SecretServed(x.k, w, t, c); }
  }

  lemma WayParts(cfg: Config, x: Case, w: World, t: C.Thread)
    requires OnTheWay(cfg, x, w, t)
    ensures x.k in w.api.claims && WayClaim(x, w.api.claims[x.k], t)
  {
    hide WayClaim, WayBackend, WaySecret;
  }

  // Where good replies lead.
  lemma SmoothAdmission(cfg: Config, x: Case, w: World, t: C.Thread, r: Reply)
    requires C.Admitting(t.pc) && !t.pc.ReadKeys? && Provisionable(cfg, x) && GoodReply(cfg, x, w, t, r)
    requires t.pc.NoteFetch? || t.pc.NoteWrite? ==> t.pc.after.Proceed?
    requires t.pc.Fetch? ==> !r.claim.deleting
    ensures var next := C.ResumeAdmission(cfg, x.k, t, r);
            && !next.pc.Provision?
            && (next.pc.Finished? ==> (t.pc.Fetch? || t.pc.AddFinalizer?) && r.ClaimIs? && C.UpToDate(r.claim))
            && (next.pc.NoteFetch? || next.pc.NoteWrite? ==> next.pc.after.Proceed?)
  {
    hide C.GotKeys, C.UpToDate, IsBound, UsesMinio, OursIn, TrimSpace;
  }

  lemma SmoothService(cfg: Config, x: Case, w: World, t: C.Thread, r: Reply)
    requires C.Serving(t.pc) && !t.pc.Provision? && GoodReply(cfg, x, w, t, r) && t.claim.uid == x.claim.uid
    ensures var next := C.ResumeProvision(cfg, t, r);
            && !next.pc.Provision? && !next.pc.NoteFetch? && !next.pc.NoteWrite?
            && (next.pc.Finished? ==> t.pc.StoreStatus? || t.pc.FetchCosi? || t.pc.StoreCosi?)
  {
    hide C.Provisioned, C.CredentialData, TrimSpace, FinalData;
  }

  lemma SmoothKeys(cfg: Config, x: Case, w: World, t: C.Thread, r: Reply)
    requires t.pc.ReadKeys? && UsesMinio(x.bc) && t.claim.spec == x.claim.spec && t.bc == x.bc
    requires r.SecretIs? ==> OursIn(cfg, x, r.secret)
    ensures Smooth(cfg, x, w, C.ResumeAdmission(cfg, x.k, t, r))
  {
    hide AimOf, UsesMinio, OursIn, C.ProvisionScript, AimScript, Serviceable, C.ChosenCreds, InPlace, C.GotAccess,
         TrimmedCreds;
    var creds := StartingCreds(cfg, x.k, t, r);
    KeysAreOurs(cfg, x, t, r);
    ScriptIgnoresStatus(x.k, t.claim, x.claim, x.bc, creds);
    ScriptIsWhole(cfg, x, creds);
    WholeIsServiceable(w.minio, AimOf(cfg, x));
    WholeGoesOn(AimOf(cfg, x));
  }

  lemma WholeGoesOn(g: Aim)
    ensures AimScript(g).Then?
  {
    hide QuotaScript, GrantPart;
  }

  lemma SmoothProvision(cfg: Config, x: Case, w: World, t: C.Thread, c: Choice)
    requires t.pc.Provision? && Fair(c) && Serviceable(w.minio, Then(t.pc.call, t.pc.rest))
    requires Complete(TrimmedCreds(t.creds))
    ensures var (w', r) := Serve(w, t.pc.call, c); Smooth(cfg, x, w', C.ResumeProvision(cfg, t, r))
  {
    hide Perform, ServeMinio, TrimmedCreds, Complete, InPlace, Advance, C.ProvisionFails;
    Performs(w, t.pc.call, c);
    ExistsOnlyAnswersExists(w.minio, t.pc.call);
  }

  lemma PhaseOf(cfg: Config, k: Key, t: C.Thread, r: Reply)
    ensures C.Admitting(t.pc) ==> C.Resume(cfg, k, t, r) == C.ResumeAdmission(cfg, k, t, r)
    ensures C.Serving(t.pc) ==> C.Resume(cfg, k, t, r) == C.ResumeProvision(cfg, t, r)
  {
    hide C.ResumeAdmission, C.ResumeProvision, C.ResumeFinal;
  }

  // An end that is reached with the claim up to date is the end.
  lemma EndIsDone(cfg: Config, x: Case, w: World)
    requires Between(cfg, x, w) && C.UpToDate(w.api.claims[x.k])
    ensures InPlace(cfg, x, w)
  {
    hide AimOf, Alike, Goal, FinalStatus, OursIn, C.UpToDate;
  }

  lemma WayVariables(cfg: Config, x: Case, w: World, t: C.Thread)
    requires Provisionable(cfg, x) && Between(cfg, x, w) && OnTheWay(cfg, x, w, t)
    ensures C.Serving(t.pc) ==> t.claim.uid == x.claim.uid
    ensures t.pc.ReadKeys? ==> t.claim.spec == x.claim.spec && t.bc == x.bc
    ensures t.pc.Provision? ==> t.creds == CredsOf(AimOf(cfg, x).tenant, cfg.endpoint)
    ensures t.pc.FetchCosi? || t.pc.StoreCosi? ==> C.UpToDate(w.api.claims[x.k])
    ensures !w.api.claims[x.k].deleting && UsesMinio(x.bc)
  {
    hide AimOf, Alike, AfterAll, Goal, AllParts, InPlace, FinalCreds, OursIn, C.UpToDate, UsesMinio;
  }

  lemma CompleteAtTheEnd(cfg: Config, x: Case)
    requires TrimSpace(cfg.endpoint) != ""
    ensures Complete(FinalCreds(cfg, x))
  {
    M.CredentialsAreTrimmed(cfg.digest, Joined(x.k));
    hide TrimSpace, Joined, M.AccessKeyForAccount, M.SecretForAccount, M.PolicyName, EffectiveBucketName, Region,
         CredentialsKey;
  }

  lemma WrittenIsUpToDate(cfg: Config, x: Case, t: C.Thread, c: Claim, d: Claim)
    requires t.pc.StoreStatus? && Written(cfg, x, t, c, d)
    ensures C.UpToDate(d)
  {
    FinalIsUpToDate(cfg, x);
    hide FinalStatus;
  }

  lemma FairStep(cfg: Config, x: Case, w: World, t: C.Thread, c: Choice)
    requires Provisionable(cfg, x) && !t.pc.Finished? && Fair(c)
    requires Between(cfg, x, w) && OnTheWay(cfg, x, w, t) && Smooth(cfg, x, w, t)
    ensures var (w', r) := Serve(w, C.Request(x.k, t), c); Smooth(cfg, x, w', C.Resume(cfg, x.k, t, r))
  {
    hide Serve, C.Request, C.Resume, C.ResumeAdmission, C.ResumeProvision, Between, OnTheWay, Written, AimOf,
         C.UpToDate, UsesMinio, OursIn, Serviceable, InPlace, FinalCreds, Complete, TrimmedCreds, TrimSpace, Handled;
    var (w', r) := Serve(w, C.Request(x.k, t), c);
    WayFacts(cfg, x, w, t);
    WayVariables(cfg, x, w, t);
    AloneStep(cfg, x, w, t, c);
    GoodReplies(cfg, x, w, t, c);
    PhaseOf(cfg, x.k, t, r);
    if t.pc.Provision? {
      ProvisionCall(x.k, t);
      CredsAtTheEnd(cfg, x);
      CompleteAtTheEnd(cfg, x);
      SmoothProvision(cfg, x, w, t, c);
    } else if t.pc.ReadKeys? {
      ReadTurn(x, w, t, c);
      assert r.SecretIs? ==> OursIn(cfg, x, r.secret) by { HonestKeys(cfg, x, w, t, r); }
      SmoothKeys(cfg, x, w, t, r);
    } else if C.Admitting(t.pc) {
      if Reads(t.pc) { ReadTurn(x, w, t, c); } else { WayParts(cfg, x, w, t); WriteTurn(cfg, x, w, t, c); }
      if t.pc.Fetch? { ReadsClaim(cfg, x, w, t, r); }
      SmoothAdmission(cfg, x, w, t, r);
      if C.Resume(cfg, x.k, t, r).pc.Finished? {
        ReadsClaim(cfg, x, w', t, r);
        EndIsDone(cfg, x, w');
      }
    } else {
      SmoothService(cfg, x, w, t, r);
      if t.pc.StoreStatus? {
        WayParts(cfg, x, w, t);
        WriteTurn(cfg, x, w, t, c);
        WrittenIsUpToDate(cfg, x, t, w.api.claims[x.k], w'.api.claims[x.k]);
        EndIsDone(cfg, x, w');
      } else if t.pc.FetchCosi? {
        ReadTurn(x, w, t, c);
        EndIsDone(cfg, x, w');
      } else if t.pc.StoreCosi? {
        CosiServed(x.k, w, t, c);
        EndIsDone(cfg, x, w');
      }
    }
  }

  lemma HonestKeys(cfg: Config, x: Case, w: World, t: C.Thread, r: Reply)
    requires t.pc.ReadKeys? && Between(cfg, x, w) && TrueReply(x, w, t, r)
    ensures r.SecretIs? ==> OursIn(cfg, x, r.secret)
  {
    hide OursIn, InPlace, Goal, Alike, AimOf, C.UpToDate;
  }

  // A claim in the reply is the one now stored.
  lemma ReadsClaim(cfg: Config, x: Case, w: World, t: C.Thread, r: Reply)
    requires Between(cfg, x, w) && (t.pc.Fetch? || t.pc.AddFinalizer?)
    requires r.ClaimIs? && r.claim == w.api.claims[x.k]
    ensures !r.claim.deleting
  {
    hide OursIn, InPlace, Goal, Alike, AimOf, C.UpToDate;
  }

  ghost predicate FairPlan(plan: nat -> Choice) { forall i: nat :: Fair(plan(i)) }

  lemma {:induction false} FairRunIsDone(cfg: Config, x: Case, w: World, t: C.Thread, plan: nat -> Choice, n: nat)
    requires Provisionable(cfg, x) && Between(cfg, x, w) && OnTheWay(cfg, x, w, t) && Smooth(cfg, x, w, t)
    requires FairPlan(plan)
    ensures InPlace(cfg, x, C.RunAlone(cfg, x.k, w, t, plan, n).world)
    decreases C.Stage(t.pc), C.Left(t.pc)
  {
    hide Serve, C.Request, C.Resume, Between, OnTheWay, Provisionable, C.Stage, C.Left, InPlace, Serviceable;
    if !t.pc.Finished? {
      assert Fair(plan(n));
      AloneStep(cfg, x, w, t, plan(n));
      FairStep(cfg, x, w, t, plan(n));
      var (w', r) := Serve(w, C.Request(x.k, t), plan(n));
      C.Progresses(cfg, x.k, t, r);
      FairRunIsDone(cfg, x, w', C.Resume(cfg, x.k, t, r), plan, n + 1);
    }
  }

  /* Any number of attempts */

  function Attempt(cfg: Config, k: Key, w: World, plan: nat -> Choice): World {
    C.RunAlone(cfg, k, w, C.START, plan, 0).world
  }

  // One reconcile after another, each with its own faults and its own point where the process dies.
  function Attempts(cfg: Config, k: Key, w: World, plans: seq<nat -> Choice>): World
    decreases |plans|
  {
    if plans == [] then w else Attempts(cfg, k, Attempt(cfg, k, w, plans[0]), plans[1..])
  }

  lemma {:induction false} AttemptsStayBetween(cfg: Config, x: Case, w: World, plans: seq<nat -> Choice>)
    requires Provisionable(cfg, x) && Between(cfg, x, w)
    ensures Between(cfg, x, Attempts(cfg, x.k, w, plans))
    decreases |plans|
  {
    hide Between, Provisionable, C.RunAlone, OnTheWay;
    if plans != [] {
      Setout(cfg, x, w);
      AnyRunStaysBetween(cfg, x, w, C.START, plans[0], 0);
      AttemptsStayBetween(cfg, x, Attempt(cfg, x.k, w, plans[0]), plans[1..]);
    }
  }

  lemma FairAttemptIsDone(cfg: Config, x: Case, w: World, plan: nat -> Choice)
    requires Provisionable(cfg, x) && Between(cfg, x, w) && FairPlan(plan)
    ensures InPlace(cfg, x, Attempt(cfg, x.k, w, plan)) && Between(cfg, x, Attempt(cfg, x.k, w, plan))
  {
    hide Between, Provisionable, C.RunAlone, OnTheWay, FairPlan, InPlace, Serviceable;
    Setout(cfg, x, w);
    FairRunIsDone(cfg, x, w, C.START, plan, 0);
    AnyRunStaysBetween(cfg, x, w, C.START, plan, 0);
  }

  // A claim that is not up to date, its class, and a credentials Secret, if there is one, that the claim may take.
  ghost predicate StartsAs(cfg: Config, x: Case, w: World) {
    && x.k in w.api.claims && w.api.claims[x.k] == x.claim && !C.UpToDate(x.claim)
    && x.claim.spec.className in w.api.classes && w.api.classes[x.claim.spec.className] == x.bc
    && w.minio == x.server
    && (if SecretKeyIn(x) in w.api.secrets then x.data == w.api.secrets[SecretKeyIn(x)].data else x.data == map[])
    && SecretSound(cfg, x, w.api)
  }

  lemma StartIsBetween(cfg: Config, x: Case, w: World)
    requires Provisionable(cfg, x) && StartsAs(cfg, x, w)
    ensures Between(cfg, x, w)
  {
    AlikeItself(Goal(x.server, AimOf(cfg, x)), BucketIn(cfg, x));
    hide AimOf, Alike, Goal, C.UpToDate, UsesMinio, TrimSpace, SecretKeyIn;
  }

  // Equal as far as the claim is concerned: backend, Secret and status; versions and replication may differ.
  ghost predicate SameOutcome(cfg: Config, x: Case, a: World, b: World) {
    && Alike(a.minio, b.minio, BucketIn(cfg, x))
    && x.k in a.api.claims && x.k in b.api.claims
    && a.api.claims[x.k] == b.api.claims[x.k].(resourceVersion := a.api.claims[x.k].resourceVersion)
    && SecretKeyIn(x) in a.api.secrets && SecretKeyIn(x) in b.api.secrets
    && a.api.secrets[SecretKeyIn(x)]
       == b.api.secrets[SecretKeyIn(x)].(resourceVersion := a.api.secrets[SecretKeyIn(x)].resourceVersion)
  }

  lemma DoneIsDone(cfg: Config, x: Case, a: World, b: World)
    requires Between(cfg, x, a) && InPlace(cfg, x, a) && Between(cfg, x, b) && InPlace(cfg, x, b)
    ensures SameOutcome(cfg, x, a, b)
  {
    AlikeBack(b.minio, Goal(x.server, AimOf(cfg, x)), BucketIn(cfg, x));
    AlikeTrans(a.minio, Goal(x.server, AimOf(cfg, x)), b.minio, BucketIn(cfg, x));
    hide AimOf, Alike, Goal, C.UpToDate, FinalStatus, FinalData, SecretKeyIn;
  }

  /** Crash-retry convergence: for a claim of a MinIO class that is not up to date - a new one, or one that was
      provisioned before and has its credentials Secret, its spec having been edited since, the bucket's name included -
      any finite series of reconciles, each cut off or disturbed anywhere, followed by one reconcile without faults, has
      the same outcome as that one reconcile alone: the same buckets, quota, lifecycle, users, policies and mappings,
      the same Secret and the same status and finalizers. */
  lemma RetriesConverge(cfg: Config, x: Case, w: World, plans: seq<nat -> Choice>, fair: nat -> Choice)
    requires Provisionable(cfg, x) && StartsAs(cfg, x, w) && FairPlan(fair)
    ensures SameOutcome(cfg, x, Attempt(cfg, x.k, Attempts(cfg, x.k, w, plans), fair), Attempt(cfg, x.k, w, fair))
    ensures InPlace(cfg, x, Attempt(cfg, x.k, w, fair))
  {
    hide Provisionable, Between, InPlace, StartsAs, FairPlan, C.RunAlone, SameOutcome;
    StartIsBetween(cfg, x, w);
    AttemptsStayBetween(cfg, x, w, plans);
    FairAttemptIsDone(cfg, x, Attempts(cfg, x.k, w, plans), fair);
    FairAttemptIsDone(cfg, x, w, fair);
    DoneIsDone(cfg, x, Attempt(cfg, x.k, Attempts(cfg, x.k, w, plans), fair), Attempt(cfg, x.k, w, fair));
  }
}
