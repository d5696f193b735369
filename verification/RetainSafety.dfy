/** A bucket disappears only in a step of an activation that has itself read the policy Delete, whichever of
    the three handlers it belongs to. */
module RetainSafety {
  import opened Text
  import opened Kube
  import opened CosiNames
  import opened Cluster
  import opened Frames
  import opened Provisioning
  import opened ClaimFlow
  import opened System
  import opened Memos
  import M = Minio
  import C = ClaimMachine
  import A = AccessMachine
  import D = DriverMachine

  /* What the threads may do to buckets, given what they have read */

  predicate MayDelete(m: Memo) { "Delete" in m.policies }

  predicate ClaimCareful(t: C.Thread, m: Memo) {
    match t.pc
    case Provision(call, rest) => Keeps(Then(call, rest))
    case Revoke(call, rest) => Keeps(Then(call, rest)) && t.bc.deletionPolicy in m.policies
    case FinalResolve => t.bc.deletionPolicy in m.policies
    case FinalSecret => t.bc.deletionPolicy in m.policies
    case Delete(call, rest) => MayDelete(m)
    case _ => true
  }

  predicate AccessCareful(t: A.Thread) {
    match t.pc
    case Grant(call, rest) => Keeps(Then(call, rest))
    case Revoke(call, rest) => Keeps(Then(call, rest))
    case _ => true
  }

  predicate DriverCareful(t: D.Thread, m: Memo) { t.pc.Work? ==> Keeps(Then(t.pc.call, t.pc.rest)) || MayDelete(m) }

  lemma LearnKeeps(m: Memo, call: Call, r: Reply)
    ensures m.policies <= Learn(m, call, r).policies
  {
    hide ReasonToSkip, TrimSpace;
  }

  lemma ScriptKeeps(k: Key, c: Claim, bc: BucketClass, creds: Creds)
    ensures Keeps(C.ProvisionScript(k, c, bc, creds))
  {
    hide GrantScript, BucketScript, Joined, UsesMinio;
    GrantKeeps(creds.bucket, Joined(k), c.spec.accessType, creds.accessKey, creds.secretKey);
    BucketKeeps(creds.bucket, c.spec, bc,
                GrantScript(creds.bucket, Joined(k), c.spec.accessType, creds.accessKey, creds.secretKey));
  }

  lemma BeginsCareful(k: Key, t: C.Thread, accessKey: string, next: C.Thread)
    requires next.pc.Revoke? && Begins(k, t, accessKey, next)
    ensures Keeps(Then(next.pc.call, next.pc.rest))
  {
    RevokeKeeps(FinalBucketName(k, t.claim), Joined(k), accessKey);
    hide RevokeScript, KeyOr, FinalBucketName, Joined, UsesMinio;
  }

  lemma ProvisionStaysCareful(cfg: Config, k: Key, t: C.Thread, r: Reply, next: C.Thread)
    requires next.pc.Provision? && Arrival(cfg, k, t, r, next)
    requires t.pc.Provision? ==> Keeps(Then(t.pc.call, t.pc.rest))
    ensures Keeps(Then(next.pc.call, next.pc.rest))
  {
    hide Advance, StartingCreds, C.ProvisionScript;
    ScriptKeeps(k, t.claim, t.bc, next.creds);
    if t.pc.Provision? { AdvanceKeeps(t.pc.call, t.pc.rest, r); }
  }

  lemma RevokeStaysCareful(cfg: Config, k: Key, t: C.Thread, r: Reply, m: Memo, next: C.Thread)
    requires next.pc.Revoke? && ClaimCareful(t, m) && Arrival(cfg, k, t, r, next)
    ensures Keeps(Then(next.pc.call, next.pc.rest)) && next.bc.deletionPolicy in m.policies
  {
    hide Advance, Begins, TrimSpace, Lookup;
    if t.pc.Revoke? { AdvanceKeeps(t.pc.call, t.pc.rest, r); }
    else if t.pc.FinalResolve? { BeginsCareful(k, t, "", next); }
    else { BeginsCareful(k, t, if r.SecretIs? then TrimSpace(Lookup(r.secret.data, AccessKeyID)) else "", next); }
  }

  lemma ClassIsLearnt(cfg: Config, k: Key, t: C.Thread, r: Reply, m: Memo, next: C.Thread)
    requires !t.pc.Finished? && Arrival(cfg, k, t, r, next) && next.pc.FinalResolve?
    ensures next.bc.deletionPolicy in Learn(m, C.Request(k, t), r).policies
  {
    hide ReasonToSkip, TrimSpace;
  }

  lemma ClaimStaysCareful(cfg: Config, k: Key, t: C.Thread, r: Reply, m: Memo, next: C.Thread)
    requires !t.pc.Finished? && ClaimCareful(t, m) && Arrival(cfg, k, t, r, next)
    ensures ClaimCareful(next, Learn(m, C.Request(k, t), r))
  {
    hide Advance, Begins, Learn, C.Request, C.Destruction, StartingCreds, C.ProvisionScript, TrimSpace, Lookup;
    LearnKeeps(m, C.Request(k, t), r);
    if next.pc.Provision? { hide Arrival; ProvisionStaysCareful(cfg, k, t, r, next); }
    else if next.pc.Revoke? { hide Arrival; RevokeStaysCareful(cfg, k, t, r, m, next); }
    else if next.pc.FinalResolve? { hide Arrival; ClassIsLearnt(cfg, k, t, r, m, next); }
    else { hide Keeps; }
  }

  lemma AccessStaysCareful(cfg: Config, k: Key, t: A.Thread, r: Reply)
    requires !t.pc.Finished? && AccessCareful(t)
    ensures AccessCareful(A.Resume(cfg, k, t, r))
  {
    hide Advance, GrantScript, RevokeScript, UsesMinio, TrimSpace, A.RevokedName, A.GrantedName, M.AccessKeyForAccount,
         M.SecretForAccount, KeyOr, Joined, A.KnownKey;
    match t.pc
    case Resolve =>
      GrantKeeps(t.bucket, Joined(k), "ReadWrite", M.AccessKeyForAccount(Joined(k)),
                 M.SecretForAccount(cfg.digest, Joined(k)));
    case Grant(call, rest) => AdvanceKeeps(call, rest, r);
    case RevokeResolve => RevokeKeeps(t.bucket, Joined(k), t.accessKey);
    case Revoke(call, rest) => AdvanceKeeps(call, rest, r);
    case _ =>
  }

  lemma RequestStartsCareful(cfg: Config, req: D.Request, m: Memo)
    ensures DriverCareful(D.Start(cfg, req), m)
  {
    hide BucketScript, GrantScript, RevokeScript, D.Extend, TrimSpace, ToLower, SyntheticClaim, SyntheticClass,
         EffectiveBucketName;
    hide KeyOr, SecretOr, Lookup, D.AccountOf, SplitAccount, Joined;
    match req
    case CreateBucketRequest(name, parameters, e) =>
      var claim := SyntheticClaim(name, parameters);
      if claim.Some? && SyntheticClass(cfg.driverName, claim.value.1.className, parameters).Some? {
        var bc := SyntheticClass(cfg.driverName, claim.value.1.className, parameters).value;
        BucketKeeps(EffectiveBucketName(claim.value.0, claim.value.1, bc), D.Extend(claim.value.1, e), bc, End);
      }
    case DeleteBucketRequest(bucketID) =>
    case GrantRequest(bucketID, name, parameters, e) =>
      var claim := SyntheticClaim(bucketID, parameters);
      if claim.Some? {
        var account := D.AccountOf(name);
        GrantKeeps(D.BucketOf(bucketID), account, D.Extend(claim.value.1, e).accessType,
                   KeyOr(TrimSpace(Lookup(parameters, "existingAccessKey")), account),
                   SecretOr(cfg.digest, TrimSpace(Lookup(parameters, "existingSecretKey")), account));
      }
    case RevokeRequest(bucketID, accountID) =>
      var k := SplitAccount(accountID);
      if k.Some? { RevokeKeeps(D.BucketOf(bucketID), Joined(k.value), ""); }
  }

  // The fallback that guesses a class from the bucket's name cannot reach a deletion.
  lemma GuessNeverDeletes(cfg: Config, t: D.Thread, name: string, r: Reply)
    requires !r.CosiIs?
    ensures D.GotPolicy(cfg, t, name, r).pc.Finished?
  {
    GuessedClassRetains(cfg.driverName, BucketClassNameFromBucketObjectName(name));
    hide SyntheticClass, BucketClassNameFromBucketObjectName;
  }

  lemma DriverStaysCareful(cfg: Config, t: D.Thread, r: Reply, m: Memo)
    requires !t.pc.Finished? && DriverCareful(t, m)
    ensures DriverCareful(D.Resume(cfg, t, r), Learn(m, D.NextCall(t), r))
  {
    LearnKeeps(m, D.NextCall(t), r);
    match t.pc
    case ReadPolicy(name) =>
      if !r.CosiIs? { GuessNeverDeletes(cfg, t, name, r); }
      hide SyntheticClass, BucketClassNameFromBucketObjectName, TrimSpace;
    case Work(call, rest) =>
      hide Advance, Learn, TrimmedCreds, Incomplete;
      if Keeps(Then(call, rest)) { AdvanceKeeps(call, rest, r); }
  }

  /* Over runs */

  ghost predicate Careful(x: Watched) {
    && (forall k :: ClaimCareful(ClaimThread(x.s, k), ClaimMemo(x, k)))
    && (forall k :: AccessCareful(AccessThread(x.s, k)))
    && (forall id: nat :: DriverCareful(RequestThread(x.s, id), DriverMemo(x, id)))
  }

  lemma ClaimCarefulStep(cfg: Config, x: Watched, a: Action, k: Key)
    requires ClaimCareful(ClaimThread(x.s, k), ClaimMemo(x, k))
    ensures ClaimCareful(ClaimThread(Watch(cfg, x, a).s, k), ClaimMemo(Watch(cfg, x, a), k))
  {
    hide C.Resume, NextWorld, NextDriverMemos, NextTouched, NextReleased, NextAccesses, NextDriver, Learn, Serve,
         C.Request;
    var t := ClaimThread(x.s, k);
    if a.StepClaim? && a.key == k && Issued(x.s, a).Some? {
      hide ClaimCareful;
      Arrives(cfg, k, t, ReplyTo(x.s, a));
      ClaimStaysCareful(cfg, k, t, ReplyTo(x.s, a), ClaimMemo(x, k), C.Resume(cfg, k, t, ReplyTo(x.s, a)));
    }
  }

  lemma AccessCarefulStep(cfg: Config, s: System, a: Action, k: Key)
    requires AccessCareful(AccessThread(s, k))
    ensures AccessCareful(AccessThread(Apply(cfg, s, a), k))
  {
    hide A.Resume, NextWorld, NextClaims, NextDriver, Serve, A.Request;
    if a.StepAccess? && a.key == k && Issued(s, a).Some? {
      hide AccessCareful;
      AccessStaysCareful(cfg, k, AccessThread(s, k), ReplyTo(s, a));
    }
  }

  lemma DriverCarefulStep(cfg: Config, x: Watched, a: Action, id: nat)
    requires DriverCareful(RequestThread(x.s, id), DriverMemo(x, id))
    ensures DriverCareful(RequestThread(Watch(cfg, x, a).s, id), DriverMemo(Watch(cfg, x, a), id))
  {
    hide D.Resume, D.Start, NextWorld, NextClaimMemos, NextTouched, NextReleased, NextAccesses, NextClaims, Learn,
         Serve, D.NextCall, DriverCareful;
    if a.StepRequest? && a.id == id && Issued(x.s, a).Some? {
      DriverStaysCareful(cfg, RequestThread(x.s, id), ReplyTo(x.s, a), DriverMemo(x, id));
    } else if a.StartRequest? && a.id == id {
      RequestStartsCareful(cfg, a.request, BLANK);
    } else if a.Crash? {
      CrashIsCareful(DriverMemo(x, id));
    }
  }

  lemma CrashIsCareful(m: Memo)
    ensures DriverCareful(D.Reject(D.Success), m)
  {
  }

  lemma CarefulStep(cfg: Config, x: Watched, a: Action)
    requires Careful(x)
    ensures Careful(Watch(cfg, x, a))
  {
    hide Watch, Apply, ClaimCareful, AccessCareful, DriverCareful;
    var y := Watch(cfg, x, a);
    WatchedSystem(cfg, x, a);
    forall k ensures ClaimCareful(ClaimThread(y.s, k), ClaimMemo(y, k)) { ClaimCarefulStep(cfg, x, a, k); }
    forall k ensures AccessCareful(AccessThread(y.s, k)) { AccessCarefulStep(cfg, x.s, a, k); }
    forall id: nat ensures DriverCareful(RequestThread(y.s, id), DriverMemo(y, id)) {
      DriverCarefulStep(cfg, x, a, id);
    }
  }

  lemma {:induction false} CarefulRun(cfg: Config, x: Watched, actions: seq<Action>)
    requires Careful(x)
    ensures Careful(WatchRun(cfg, x, actions))
    decreases |actions|
  {
    hide Careful, Watch, Apply;
    if actions != [] {
      CarefulStep(cfg, x, actions[0]);
      CarefulRun(cfg, Watch(cfg, x, actions[0]), actions[1..]);
    }
  }

  // Nothing but RemoveBucket takes a bucket away.
  lemma OnlyRemoval(w: World, call: Call, c: Choice, b: string)
    requires b in w.minio.buckets && b !in Serve(w, call, c).0.minio.buckets
    ensures call == RemoveBucket(b)
  {
    hide Serve, Perform, ServeMinio;
    Frame(w, call, c);
    ServeWorld(w, call, c);
    Performs(w, call, c);
    if OnMinio(call) && call != RemoveBucket(b) { KeepsBucket(w.minio, call, b); }
  }

  lemma KeepsBucket(m: M.Server, call: Call, b: string)
    requires OnMinio(call) && call != RemoveBucket(b) && b in m.buckets
    ensures b in ServeMinio(m, call).0.buckets
  {
  }

  lemma ClaimDestroys(k: Key, t: C.Thread, m: Memo)
    requires !t.pc.Finished? && ClaimCareful(t, m) && Destroys(C.Request(k, t))
    ensures MayDelete(m)
  {
    hide CredentialsKey, C.BoundTo, C.Noted, TrimSpace;
  }

  lemma AccessesDestroyNothing(k: Key, t: A.Thread)
    requires !t.pc.Finished? && AccessCareful(t)
    ensures !Destroys(A.Request(k, t))
  {
    hide A.InfoKey, A.ClaimKey, Joined;
  }

  /** Retain safety across the claim finalizer, the BucketAccess reconciler and the COSI driver, in every reachable
      state: an activation asks a backend of any kind to delete a bucket only if it was answered the policy Delete. */
  lemma OnlyDeleteAsks(cfg: Config, s: System, actions: seq<Action>, a: Action)
    requires Initial(s)
    requires Issued(Run(cfg, s, actions), a).Some? && Destroys(Issued(Run(cfg, s, actions), a).value)
    ensures var x := WatchRun(cfg, Begin(s), actions);
            (a.StepClaim? && MayDelete(ClaimMemo(x, a.key))) || (a.StepRequest? && MayDelete(DriverMemo(x, a.id)))
  {
    hide Careful, MayDelete, WatchRun, Issued, Initial;
    CarefulStart(s);
    CarefulRun(cfg, Begin(s), actions);
    CarefulDestruction(WatchRun(cfg, Begin(s), actions), a);
  }

  /** So the step that makes a bucket disappear from the storage server belongs to such an activation. */
  lemma OnlyDeleteDeletes(cfg: Config, s: System, actions: seq<Action>, a: Action, b: string)
    requires Initial(s)
    requires b in Run(cfg, s, actions).world.minio.buckets && b !in NextWorld(Run(cfg, s, actions), a).minio.buckets
    ensures var x := WatchRun(cfg, Begin(s), actions);
            (a.StepClaim? && MayDelete(ClaimMemo(x, a.key))) || (a.StepRequest? && MayDelete(DriverMemo(x, a.id)))
  {
    hide Careful, MayDelete, WatchRun, Run, NextWorld, Initial, Issued;
    RemovalIsIssued(Run(cfg, s, actions), a, b);
    OnlyDeleteAsks(cfg, s, actions, a);
  }

  lemma CarefulStart(s: System)
    requires Initial(s)
    ensures Careful(Begin(s))
  {
  }

  lemma CarefulDestruction(x: Watched, a: Action)
    requires Careful(x) && Issued(x.s, a).Some? && Destroys(Issued(x.s, a).value)
    ensures (a.StepClaim? && MayDelete(ClaimMemo(x, a.key))) || (a.StepRequest? && MayDelete(DriverMemo(x, a.id)))
  {
    hide C.Request, A.Request, ClaimCareful, AccessCareful, MayDelete;
    match a
    case StepClaim(k, _) => ClaimDestroys(k, ClaimThread(x.s, k), ClaimMemo(x, k));
    case StepAccess(k, _) => AccessesDestroyNothing(k, AccessThread(x.s, k));
    case StepRequest(id, _) => assert DriverCareful(RequestThread(x.s, id), DriverMemo(x, id));
  }

  // Users and the rest of the cluster delete no bucket.
  lemma OthersKeepBuckets(s: System, a: Action, b: string)
    requires Issued(s, a).None? && b in s.world.minio.buckets
    ensures b in NextWorld(s, a).minio.buckets
  {
    hide Issued, Others;
  }

  lemma RemovalIsIssued(s: System, a: Action, b: string)
    requires b in s.world.minio.buckets && b !in NextWorld(s, a).minio.buckets
    ensures Issued(s, a).Some? && Destroys(Issued(s, a).value)
  {
    hide Issued, Serve, Others;
    if Issued(s, a).Some? {
      OnlyRemoval(s.world, Issued(s, a).value, a.choice, b);
    } else {
      OthersKeepBuckets(s, a, b);
    }
  }

  /* Clusters in which nothing says Delete */

  ghost predicate Retaining(api: Api) {
    && (forall name :: name in api.classes ==> api.classes[name].deletionPolicy != "Delete")
    && (forall name :: name in api.cosiBuckets ==> TrimSpace(api.cosiBuckets[name].deletionPolicy) != "Delete")
  }

  ghost predicate Unaware(x: Watched) {
    (forall k :: !MayDelete(ClaimMemo(x, k))) && (forall id: nat :: !MayDelete(DriverMemo(x, id)))
  }

  lemma LearnsNoDelete(w: World, call: Call, c: Choice, m: Memo)
    requires Retaining(w.api) && !MayDelete(m)
    ensures !MayDelete(Learn(m, call, Serve(w, call, c).1))
  {
    hide ServeClaims, ServeSecrets, ServeAccesses, ServeMinio, WriteCosi, TrimSpace, ReasonToSkip;
  }

  lemma ClaimUnaware(cfg: Config, x: Watched, a: Action, k: Key)
    requires Retaining(x.s.world.api) && !MayDelete(ClaimMemo(x, k))
    ensures !MayDelete(ClaimMemo(Watch(cfg, x, a), k))
  {
    hide Retaining, Learn, Serve, Apply, NextTouched, NextReleased, NextDriverMemos, C.Request;
    if a.StepClaim? && a.key == k && Issued(x.s, a).Some? {
      LearnsNoDelete(x.s.world, Issued(x.s, a).value, a.choice, ClaimMemo(x, k));
    }
  }

  lemma DriverUnaware(cfg: Config, x: Watched, a: Action, id: nat)
    requires Retaining(x.s.world.api) && !MayDelete(DriverMemo(x, id))
    ensures !MayDelete(DriverMemo(Watch(cfg, x, a), id))
  {
    hide Retaining, Learn, Serve, Apply, NextTouched, NextReleased, NextClaimMemos, D.NextCall;
    if a.StepRequest? && a.id == id && Issued(x.s, a).Some? {
      LearnsNoDelete(x.s.world, Issued(x.s, a).value, a.choice, DriverMemo(x, id));
    }
  }

  lemma UnawareStep(cfg: Config, x: Watched, a: Action)
    requires Retaining(x.s.world.api) && Unaware(x)
    ensures Unaware(Watch(cfg, x, a))
  {
    hide Retaining, MayDelete, Watch;
    var y := Watch(cfg, x, a);
    forall k ensures !MayDelete(ClaimMemo(y, k)) { ClaimUnaware(cfg, x, a, k); }
    forall id: nat ensures !MayDelete(DriverMemo(y, id)) { DriverUnaware(cfg, x, a, id); }
  }

  lemma UnawareStart(s: System)
    ensures Unaware(Begin(s))
  {
  }

  lemma RetainingStep(cfg: Config, x: Watched, a: Action, b: string)
    requires Careful(x) && Unaware(x) && Retaining(x.s.world.api) && b in x.s.world.minio.buckets
    ensures var y := Watch(cfg, x, a);
            y.s == Apply(cfg, x.s, a) && Careful(y) && Unaware(y) && b in y.s.world.minio.buckets
  {
    hide Watch, Apply, NextWorld, Careful, Unaware, Retaining, MayDelete;
    WatchedSystem(cfg, x, a);
    CarefulStep(cfg, x, a);
    UnawareStep(cfg, x, a);
    UnawareOf(x, a);
    WorldOf(cfg, x.s, a);
    if b !in NextWorld(x.s, a).minio.buckets { RemovalIsIssued(x.s, a, b); CarefulDestruction(x, a); }
  }

  ghost predicate RetainingAll(cfg: Config, s: System, actions: seq<Action>) {
    forall i :: 0 <= i < |actions| ==> Retaining(Run(cfg, s, actions[..i]).world.api)
  }

  lemma RetainingTail(cfg: Config, s: System, actions: seq<Action>)
    requires actions != [] && RetainingAll(cfg, s, actions)
    ensures Retaining(s.world.api) && RetainingAll(cfg, Apply(cfg, s, actions[0]), actions[1..])
  {
    hide Retaining, Apply;
    assert actions[..0] == [] && Run(cfg, s, actions[..0]) == s;
    forall i | 0 <= i < |actions[1..]|
      ensures Retaining(Run(cfg, Apply(cfg, s, actions[0]), actions[1..][..i]).world.api)
    {
      assert actions[..i + 1][0] == actions[0] && actions[..i + 1][1..] == actions[1..][..i];
      assert Run(cfg, s, actions[..i + 1]) == Run(cfg, Apply(cfg, s, actions[0]), actions[1..][..i]);
    }
  }

  lemma {:induction false} RetainingRun(cfg: Config, x: Watched, actions: seq<Action>, b: string)
    requires Careful(x) && Unaware(x) && b in x.s.world.minio.buckets && RetainingAll(cfg, x.s, actions)
    ensures b in Run(cfg, x.s, actions).world.minio.buckets
    decreases |actions|
  {
    hide Watch, Apply, Careful, Unaware, Retaining, RetainingAll;
    if actions != [] {
      RetainingTail(cfg, x.s, actions);
      RetainingStep(cfg, x, actions[0], b);
      RetainingRun(cfg, Watch(cfg, x, actions[0]), actions[1..], b);
    }
  }

  lemma UnawareOf(x: Watched, a: Action)
    requires Unaware(x)
    ensures a.StepClaim? ==> !MayDelete(ClaimMemo(x, a.key))
    ensures a.StepRequest? ==> !MayDelete(DriverMemo(x, a.id))
  {
  }

  /** While no class and no COSI Bucket says Delete, no bucket is ever lost, whoever asks for what. */
  lemma RetainedBucketsStay(cfg: Config, s: System, actions: seq<Action>, b: string)
    requires Initial(s) && b in s.world.minio.buckets
    requires RetainingAll(cfg, s, actions)
    ensures b in Run(cfg, s, actions).world.minio.buckets
  {
    hide Careful, Unaware, Retaining, RetainingAll, Initial, Run;
    CarefulStart(s);
    UnawareStart(s);
    RetainingRun(cfg, Begin(s), actions, b);
  }
}
