/** What a finalization leaves behind: nothing that was created, where it works with the name under which things were
    created; and everything on any other name. */
module Leftovers {
  import opened Text
  import opened Kube
  import opened Cluster
  import opened Frames
  import opened Provisioning
  import opened ClaimFlow
  import opened ClaimInvariant
  import opened ClaimRuns
  import opened RecordedName
  import opened System
  import opened Memos
  import opened FinalizerGuard
  import opened RetainSafety
  import M = Minio
  import C = ClaimMachine

  /* Everything is created on the effective name, for the account's own key */

  function OwnKey(k: Key): string { M.AccessKeyForAccount(Joined(k)) }

  predicate CreatesOn(k: Key, b: string, call: Call) {
    && (call.MakeBucket? ==> call.b == b)
    && (call.AddUser? ==> call.accessKey == OwnKey(k))
    && (call.AddPolicy? ==> call.policyName == M.PolicyName(b, Joined(k)))
  }

  predicate AllOn(k: Key, b: string, todo: Script) {
    todo.Then? ==> CreatesOn(k, b, todo.call) && AllOn(k, b, todo.rest)
  }

  lemma ScriptOn(k: Key, c: Claim, bc: BucketClass, creds: Creds)
    requires creds.accessKey == OwnKey(k)
    ensures AllOn(k, creds.bucket, C.ProvisionScript(k, c, bc, creds))
  {
    hide M.PolicyName, OwnKey, Joined, EqualFold, Region, Rules, UsesMinio;
    var b := creds.bucket;
    var grant := GrantScript(b, Joined(k), c.spec.accessType, creds.accessKey, creds.secretKey);
    assert AllOn(k, b, grant.rest.rest);
    assert AllOn(k, b, grant.rest) && AllOn(k, b, grant);
    assert AllOn(k, b, ReplicationScript(b, c.spec, grant));
    assert AllOn(k, b, LifecycleScript(b, c.spec, grant));
    assert AllOn(k, b, QuotaScript(b, c.spec, grant));
    assert AllOn(k, b, BucketScript(b, c.spec, bc, grant).rest);
    assert AllOn(k, b, Then(ForeignGrant, End).rest);
  }

  lemma AdvanceOn(k: Key, b: string, call: BackendCall, rest: Script, r: Reply)
    requires AllOn(k, b, rest)
    ensures Advance(call, rest, r).Goes? ==> AllOn(k, b, Advance(call, rest, r).todo)
  {
    hide CallError, OperationOf, M.PolicyName, OwnKey, Joined;
  }

  predicate ThreadOn(k: Key, b: string, t: C.Thread) { t.pc.Provision? ==> AllOn(k, b, Then(t.pc.call, t.pc.rest)) }

  // No Secret that the claim's thread reads tells another access key than the account's own.
  predicate TellsOwnKey(k: Key, r: Reply) {
    r.SecretIs? ==> var told := TrimSpace(Lookup(r.secret.data, AccessKeyID)); told == "" || told == OwnKey(k)
  }

  lemma StartsWithOwnKey(cfg: Config, k: Key, t: C.Thread, r: Reply)
    requires TellsOwnKey(k, r)
    ensures StartingCreds(cfg, k, t, r).accessKey == OwnKey(k)
  {
    TrimSpaceTrimmed("");
    hide TrimSpace, EffectiveBucketName, Joined, M.AccessKeyForAccount, M.SecretForAccount;
  }

  lemma ThreadOnNext(cfg: Config, k: Key, b: string, t: C.Thread, r: Reply, next: C.Thread)
    requires ThreadOn(k, b, t) && EffectiveNameIs(k, b, t) && Arrival(cfg, k, t, r, next) && TellsOwnKey(k, r)
    ensures ThreadOn(k, b, next)
  {
    hide Advance, C.ProvisionScript, EffectiveBucketName, KeyOr, SecretOr, Lookup, TrimSpace, Joined, Begins, CreatesOn,
         C.Destruction, C.CredentialData, Complete, C.UpToDate, OwnKey, TellsOwnKey;
    if next.pc.Provision? {
      if t.pc.Provision? {
        AdvanceOn(k, b, t.pc.call, t.pc.rest, r);
      } else {
        StartsWithOwnKey(cfg, k, t, r);
        ScriptOn(k, t.claim, t.bc, next.creds);
      }
    }
  }

  ghost predicate OwnKeysOnly(s: System, a: Action, k: Key) {
    a.StepClaim? && a.key == k && Issued(s, a).Some? ==> TellsOwnKey(k, ReplyTo(s, a))
  }

  lemma ThreadOnStep(cfg: Config, s: System, a: Action, k: Key, b: string)
    requires ThreadOn(k, b, ClaimThread(s, k)) && EffectiveNameIs(k, b, ClaimThread(s, k)) && OwnKeysOnly(s, a, k)
    ensures ThreadOn(k, b, ClaimThread(Apply(cfg, s, a), k))
  {
    hide Apply, ClaimThread, Issued, NextWorld, C.Request, C.Resume, EffectiveNameIs, Arrival, AllOn, TellsOwnKey;
    ThreadOf(cfg, s, a, k);
    if a.StepClaim? && a.key == k && Issued(s, a).Some? {
      OwnTurnIs(s, a);
      Arrives(cfg, k, ClaimThread(s, k), ReplyTo(s, a));
      ThreadOnNext(cfg, k, b, ClaimThread(s, k), ReplyTo(s, a), C.Resume(cfg, k, ClaimThread(s, k), ReplyTo(s, a)));
    }
  }

  // Whatever was ever created for a claim is the bucket `b`, the account's user and its policy on `b`.
  predicate HeldOn(x: Watched, ref: Ref, b: string) {
    ref in x.touched ==>
      && x.touched[ref].buckets <= {b} && x.touched[ref].users <= {OwnKey(ref.key)}
      && x.touched[ref].policies <= {M.PolicyName(b, Joined(ref.key))}
  }

  predicate ToldOwnKey(x: Watched, k: Key) { ClaimMemo(x, k).told == "" || ClaimMemo(x, k).told == OwnKey(k) }

  lemma ToldStep(cfg: Config, x: Watched, a: Action, k: Key)
    requires ToldOwnKey(x, k) && OwnKeysOnly(x.s, a, k)
    ensures ToldOwnKey(Watch(cfg, x, a), k)
  {
    hide Apply, ClaimThread, NextDriverMemos, NextReleased, NextTouched, C.Request, Serve, OwnKey, TrimSpace, Lookup,
         ReasonToSkip, Issued;
  }

  lemma OnlyProvisioningCreates(k: Key, t: C.Thread, m: Memo)
    requires !t.pc.Finished? && MemoFits(k, t, m) && Creates(C.Request(k, t))
    ensures t.pc.Provision? && C.Request(k, t) == t.pc.call
  {
    hide CredentialsKey, C.BoundTo, C.Noted, M.PolicyName, FinalBucketName, KeyOr, Joined, Justified, TrimSpace;
  }

  lemma HeldOnStep(cfg: Config, x: Watched, a: Action, ref: Ref, b: string)
    requires HeldOn(x, ref, b) && ThreadOn(ref.key, b, ClaimThread(x.s, ref.key))
    requires MemoFits(ref.key, ClaimThread(x.s, ref.key), ClaimMemo(x, ref.key))
    ensures HeldOn(Watch(cfg, x, a), ref, b)
  {
    hide Apply, ClaimThread, ClaimMemo, NextClaimMemos, NextDriverMemos, NextReleased, MemoFits, C.Request, Serve,
         M.PolicyName, OwnKey, Joined, Creates;
    if a.StepClaim? && a.key == ref.key && Issued(x.s, a).Some? && Creates(Issued(x.s, a).value) {
      OwnTurnIs(x.s, a);
      assert Issued(x.s, a).value == C.Request(a.key, ClaimThread(x.s, a.key));
      OnlyProvisioningCreates(ref.key, ClaimThread(x.s, ref.key), ClaimMemo(x, ref.key));
    }
  }

  /* A bucket that was found gone stays gone until it is made again */

  // Nobody but the claim's own thread makes the bucket.
  ghost predicate SoleMaker(s: System, a: Action, k: Key, b: string) {
    Issued(s, a).Some? && Issued(s, a).value.MakeBucket? && Issued(s, a).value.b == b ==> a.StepClaim? && a.key == k
  }

  predicate GoneIsAbsent(x: Watched, k: Key, b: string) { b in ClaimMemo(x, k).gone ==> b !in x.s.world.minio.buckets }

  // What an answer tells about a bucket is true, and only MakeBucket brings one about.
  lemma AbsenceServed(w: World, call: Call, c: Choice, m: Memo, b: string)
    requires b in m.gone ==> b !in w.minio.buckets
    ensures var (w', r) := Serve(w, call, c);
            && (b in Learn(m, call, r).gone ==> b !in w'.minio.buckets)
            && (b in w'.minio.buckets && b !in w.minio.buckets ==> call.MakeBucket? && call.b == b)
  {
    hide Serve, Perform, ServeMinio, ReasonToSkip, TrimSpace, Lookup;
    Frame(w, call, c);
    ServeWorld(w, call, c);
    ServeReply(w, call, c);
    Performs(w, call, c);
    if OnMinio(call) { AbsenceEffect(w.minio, call, b); }
  }

  lemma AbsenceEffect(m: M.Server, call: Call, b: string)
    requires OnMinio(call)
    ensures var (m', r) := ServeMinio(m, call);
            && (b in m'.buckets && b !in m.buckets ==> call == MakeBucket(b, call.region, call.locking))
            && (call == BucketExists(b) && r == Exists(false) ==> b !in m'.buckets)
            && (call == RemoveBucket(b) && r.Done? ==> b !in m'.buckets)
  {
  }

  lemma GoneIsAbsentStep(cfg: Config, x: Watched, a: Action, k: Key, b: string)
    requires GoneIsAbsent(x, k, b) && SoleMaker(x.s, a, k, b)
    ensures GoneIsAbsent(Watch(cfg, x, a), k, b)
  {
    hide Apply, ClaimThread, NextDriverMemos, NextReleased, NextTouched, C.Request, Serve, Learn, Others, Issued;
    WorldOf(cfg, x.s, a);
    if Issued(x.s, a).Some? {
      AbsenceServed(x.s.world, Issued(x.s, a).value, a.choice, ClaimMemo(x, k), b);
    }
  }

  /* Over runs */

  // The hypothesis about one step: the effective name is fixed, nobody else makes a bucket of that name, and the
  // claim's Secrets tell no other account's key.
  ghost predicate KeepsName(s: System, a: Action, k: Key, b: string) {
    EffectiveNameIs(k, b, ClaimThread(s, k)) && SoleMaker(s, a, k, b) && OwnKeysOnly(s, a, k)
  }

  ghost predicate KeepsNameRun(cfg: Config, s: System, actions: seq<Action>, k: Key, b: string)
    decreases |actions|
  {
    actions == [] || (KeepsName(s, actions[0], k, b)
                      && KeepsNameRun(cfg, Apply(cfg, s, actions[0]), actions[1..], k, b))
  }

  ghost predicate LeftInv(x: Watched, ref: Ref, b: string) {
    var t := ClaimThread(x.s, ref.key);
    && ClaimFine(x.s, ref.key) && NameFine(x.s.world.api, ref.key, t, b) && ThreadOn(ref.key, b, t)
    && MemoFits(ref.key, t, ClaimMemo(x, ref.key)) && HeldOn(x, ref, b) && GoneIsAbsent(x, ref.key, b)
    && ToldOwnKey(x, ref.key)
  }

  lemma LeftStep(cfg: Config, x: Watched, a: Action, ref: Ref, b: string)
    requires LeftInv(x, ref, b) && KeepsName(x.s, a, ref.key, b)
    ensures LeftInv(Watch(cfg, x, a), ref, b)
  {
    hide Watch, Apply, ClaimThread, ClaimMemo, ClaimFine, NameFine, ThreadOn, MemoFits, HeldOn, GoneIsAbsent,
         EffectiveNameIs, SoleMaker, Evolves, Latched;
    WatchedSystem(cfg, x, a);
    FineStep(cfg, x.s, a, ref.key);
    NameStep(cfg, x.s, a, ref.key, b);
    ThreadOnStep(cfg, x.s, a, ref.key, b);
    MemoFitsStep(cfg, x, a, ref.key);
    HeldOnStep(cfg, x, a, ref, b);
    ToldStep(cfg, x, a, ref.key);
    GoneIsAbsentStep(cfg, x, a, ref.key, b);
  }

  lemma {:induction false} LeftRun(cfg: Config, x: Watched, actions: seq<Action>, ref: Ref, b: string)
    requires LeftInv(x, ref, b) && KeepsNameRun(cfg, x.s, actions, ref.key, b)
    ensures LeftInv(WatchRun(cfg, x, actions), ref, b)
    decreases |actions|
  {
    hide LeftInv, KeepsName, Watch, Apply;
    if actions != [] {
      LeftStep(cfg, x, actions[0], ref, b);
      WatchedSystem(cfg, x, actions[0]);
      LeftRun(cfg, Watch(cfg, x, actions[0]), actions[1..], ref, b);
    }
  }

  lemma LeftStart(s: System, ref: Ref, b: string)
    requires Initial(s)
    ensures LeftInv(Begin(s), ref, b)
  {
    InitialInv(s);
    hide ClaimFine;
  }

  /** The corollary of the finalizer guard. As long as the claim's effective name is fixed, nobody else makes a bucket of
      that name and the claim's Secrets tell no other account's key: when a claim loses the finalizer under the policy
      Delete, and not for a reason to skip, every bucket that was ever created for it is absent, and the removal of every
      user and of every policy that was has been asked for - provided that finalization, if it found no recorded name,
      worked with the effective one (Limits.NamesAgreeIff). */
  lemma NothingCreatedStays(cfg: Config, s: System, actions: seq<Action>, a: Action, ref: Ref, b: string)
    requires Initial(s) && KeepsNameRun(cfg, s, actions, ref.key, b)
    requires Releases(Run(cfg, s, actions), a) && a.key == ref.key
    requires Run(cfg, s, actions).world.api.claims[ref.key].uid == ref.uid
    requires var c := Run(cfg, s, actions).world.api.claims[ref.key];
             c.status.bucketName == "" ==> FinalBucketName(ref.key, c) == b
    requires var m := ClaimMemo(WatchRun(cfg, Begin(s), actions), ref.key);
             !m.skips && m.bc.Some? && UsesMinio(m.bc.value) && Deletes(m.bc.value.deletionPolicy)
    ensures var x := WatchRun(cfg, Begin(s), actions);
            ref in x.touched ==>
              && (forall made :: made in x.touched[ref].buckets ==> made !in NextWorld(x.s, a).minio.buckets)
              && (forall u :: u in x.touched[ref].users ==> RemoveUser(u) in ClaimMemo(x, ref.key).asked)
              && (forall p :: p in x.touched[ref].policies ==> RemovePolicy(p) in ClaimMemo(x, ref.key).asked)
  {
    hide WatchRun, Run, Initial, LeftInv, Releases, NextWorld, UsesMinio, Deletes, FinalBucketName, KeepsNameRun,
         ClaimMemo;
    LeftStart(s, ref, b);
    LeftRun(cfg, Begin(s), actions, ref, b);
    ReleasedWithout(cfg, WatchRun(cfg, Begin(s), actions), a, ref, b);
  }

  lemma ReleasedWithout(cfg: Config, x: Watched, a: Action, ref: Ref, b: string)
    requires LeftInv(x, ref, b) && Releases(x.s, a) && a.key == ref.key
    requires var c := x.s.world.api.claims[ref.key]; c.status.bucketName == "" ==> FinalBucketName(ref.key, c) == b
    requires var m := ClaimMemo(x, ref.key);
             !m.skips && m.bc.Some? && UsesMinio(m.bc.value) && Deletes(m.bc.value.deletionPolicy)
    ensures b !in NextWorld(x.s, a).minio.buckets
    ensures RemoveUser(OwnKey(ref.key)) in ClaimMemo(x, ref.key).asked
    ensures RemovePolicy(M.PolicyName(b, Joined(ref.key))) in ClaimMemo(x, ref.key).asked
    ensures HeldOn(x, ref, b)
  {
    hide NextWorld, ClaimThread, ClaimMemo, ClaimFine, ThreadOn, MemoFits, HeldOn, UsesMinio, Deletes,
         M.AccessKeyForAccount, M.PolicyName, Joined, Releases;
    ReleaseIsStep(x.s, a);
    var k, c := ref.key, x.s.world.api.claims[ref.key];
    ReleasedByDrop(cfg, x, a);
    DropIsJustified(k, ClaimThread(x.s, k), ClaimMemo(x, k));
    assert FinalBucketName(k, c) == b;
    DropKeepsServer(x.s, a);
  }

  lemma DropKeepsServer(s: System, a: Action)
    requires Releases(s, a) && ClaimThread(s, a.key).pc.DropFinalizer?
    ensures NextWorld(s, a).minio == s.world.minio
  {
    hide Serve, Others, C.Request;
    if Issued(s, a).Some? {
      DropIsUpdate(a.key, ClaimThread(s, a.key));
      Frame(s.world, Issued(s, a).value, a.choice);
    }
  }

  lemma DropIsUpdate(k: Key, t: C.Thread)
    requires t.pc.DropFinalizer?
    ensures C.Request(k, t).UpdateClaim?
  {
  }

  /* Nothing else goes */

  ghost predicate Aimed(x: Watched, k: Key) {
    ClaimCareful(ClaimThread(x.s, k), ClaimMemo(x, k)) && MemoFits(k, ClaimThread(x.s, k), ClaimMemo(x, k))
  }

  lemma AimedStep(cfg: Config, x: Watched, a: Action, k: Key)
    requires Aimed(x, k)
    ensures Aimed(Watch(cfg, x, a), k)
  {
    hide Watch, ClaimThread, ClaimMemo, ClaimCareful, MemoFits;
    ClaimCarefulStep(cfg, x, a, k);
    MemoFitsStep(cfg, x, a, k);
  }

  lemma {:induction false} AimedRun(cfg: Config, x: Watched, actions: seq<Action>, k: Key)
    requires Aimed(x, k)
    ensures Aimed(WatchRun(cfg, x, actions), k)
    decreases |actions|
  {
    hide Aimed, Watch;
    if actions != [] {
      AimedStep(cfg, x, actions[0], k);
      AimedRun(cfg, Watch(cfg, x, actions[0]), actions[1..], k);
    }
  }

  lemma RemovalIsAimed(k: Key, t: C.Thread, m: Memo, b: string)
    requires !t.pc.Finished? && ClaimCareful(t, m) && MemoFits(k, t, m) && C.Request(k, t) == RemoveBucket(b)
    ensures b == FinalBucketName(k, t.claim)
  {
    hide CredentialsKey, C.BoundTo, C.Noted, TrimSpace, FinalBucketName, Justified, RevokeShape, UsesMinio;
  }

  lemma AimedAtStart(s: System, k: Key)
    requires Initial(s)
    ensures Aimed(Begin(s), k)
  {
  }

  /** The partner: in every reachable state, the bucket that a claim's finalization makes disappear is the one its name
      leads to - so a bucket provisioned under another name (the name not trimmed, or not in lower case, and nothing
      recorded) is left behind when the claim goes. */
  lemma OnlyFinalNameGoes(cfg: Config, s: System, actions: seq<Action>, a: Action, b: string)
    requires Initial(s) && a.StepClaim?
    requires b in Run(cfg, s, actions).world.minio.buckets && b !in NextWorld(Run(cfg, s, actions), a).minio.buckets
    ensures b == FinalBucketName(a.key, ClaimThread(Run(cfg, s, actions), a.key).claim)
  {
    hide WatchRun, Run, NextWorld, Initial, ClaimCareful, MemoFits, ClaimThread, ClaimMemo, FinalBucketName, Serve,
         Destroys, C.Request;
    var x := WatchRun(cfg, Begin(s), actions);
    AimedAtStart(s, a.key);
    AimedRun(cfg, Begin(s), actions, a.key);
    RemovalIsIssued(x.s, a, b);
    OwnTurnIs(x.s, a);
    IssuedRemoval(x.s, a, b);
    RemovalIsAimed(a.key, ClaimThread(x.s, a.key), ClaimMemo(x, a.key), b);
  }

  lemma IssuedRemoval(s: System, a: Action, b: string)
    requires Issued(s, a).Some? && b in s.world.minio.buckets && b !in NextWorld(s, a).minio.buckets
    ensures Issued(s, a).value == RemoveBucket(b)
  {
    hide Issued, Serve, Others;
    OnlyRemoval(s.world, Issued(s, a).value, a.choice, b);
  }
}
