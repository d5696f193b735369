/** Finalization takes away what provisioning made, and finalizing again changes nothing further. */
module Restore {
  import opened Text
  import opened Kube
  import opened Cluster
  import opened Frames
  import opened Provisioning
  import opened ClaimInvariant
  import opened System
  import opened Memos
  import opened Credentials
  import opened Generations
  import opened Effects
  import opened Convergence
  import M = Minio
  import C = ClaimMachine

  /* A deployment without a tenant */

  function Torn(m: M.Server, n: Tenant): M.Server {
    M.Server(m.buckets - {n.bucket}, m.users - {n.accessKey}, m.policies - {n.policy}, m.attached - {n.accessKey})
  }

  // Nobody else is mapped to the tenant's policy, and its bucket, if there is one, is empty.
  ghost predicate Removable(m: M.Server, n: Tenant) {
    && (forall u :: u in m.attached && u != n.accessKey ==> m.attached[u] != n.policy)
    && (n.bucket in m.buckets ==> m.buckets[n.bucket].empty)
  }

  predicate NoUser(m: M.Server, n: Tenant) { n.accessKey !in m.users && n.accessKey !in m.attached }

  predicate NoPolicy(m: M.Server, n: Tenant) { n.policy !in m.policies }

  predicate NoBucket(m: M.Server, n: Tenant) { n.bucket !in m.buckets }

  lemma GoneIsTorn(m: M.Server, n: Tenant)
    requires NoUser(m, n) && NoPolicy(m, n) && NoBucket(m, n)
    ensures m == Torn(m, n)
  {
  }

  // Users are mapped to policies only as long as they exist.
  predicate Consistent(m: M.Server, n: Tenant) { n.accessKey in m.attached ==> n.accessKey in m.users }

  /* The calls of a teardown, served */

  lemma UserRemoved(m: M.Server, n: Tenant)
    requires Removable(m, n) && Consistent(m, n)
    ensures var m' := ServeMinio(m, RemoveUser(n.accessKey)).0;
            NoUser(m', n) && Removable(m', n) && Consistent(m', n) && Torn(m', n) == Torn(m, n)
  {
  }

  lemma PolicyRemoved(m: M.Server, n: Tenant)
    requires Removable(m, n) && NoUser(m, n)
    ensures var m' := ServeMinio(m, RemovePolicy(n.policy)).0;
            NoUser(m', n) && NoPolicy(m', n) && Removable(m', n) && Consistent(m', n) && Torn(m', n) == Torn(m, n)
  {
  }

  lemma BucketRemoved(m: M.Server, n: Tenant)
    requires Removable(m, n) && NoUser(m, n) && NoPolicy(m, n) && n.bucket in m.buckets
    ensures var (m', r) := ServeMinio(m, RemoveBucket(n.bucket));
            r.Done? && NoUser(m', n) && NoPolicy(m', n) && NoBucket(m', n) && Removable(m', n) && Consistent(m', n)
              && Torn(m', n) == Torn(m, n)
  {
  }

  /* A claim being finalized under policy Delete */

  // The claim, its class and its tenant; `torn` is the deployment without the tenant.
  datatype Going = Going(k: Key, claim: Claim, bc: BucketClass, tenant: Tenant, torn: M.Server)

  ghost predicate Deletable(z: Going) {
    && z.claim.deleting && ClaimFinalizer in z.claim.finalizers
    && UsesMinio(z.bc) && Deletes(z.bc.deletionPolicy)
    && FinalBucketName(z.k, z.claim) == z.tenant.bucket
    && z.tenant.policy == M.PolicyName(z.tenant.bucket, Joined(z.k))
    && z.tenant.accessKey == M.AccessKeyForAccount(Joined(z.k))
    && TrimSpace(z.tenant.accessKey) == z.tenant.accessKey
  }

  // The Secret that the claim refers to, if it is there, tells the tenant's access key.
  ghost predicate TellsKey(z: Going, api: Api) {
    z.claim.status.secretReference.Some? && z.claim.status.secretReference.value in api.secrets ==>
      Lookup(api.secrets[z.claim.status.secretReference.value].data, AccessKeyID) == z.tenant.accessKey
  }

  // Still to be finalized: the claim as it was, the backend on its way.
  ghost predicate Waiting(z: Going, w: World) {
    && z.k in w.api.claims && w.api.claims[z.k] == z.claim
    && z.claim.spec.className in w.api.classes && w.api.classes[z.claim.spec.className] == z.bc
    && TellsKey(z, w.api)
    && Removable(w.minio, z.tenant) && Consistent(w.minio, z.tenant) && Torn(w.minio, z.tenant) == z.torn
  }

  // Let go, with nothing of the tenant left behind.
  ghost predicate LetGo(z: Going, w: World) {
    && w.minio == z.torn
    && (z.k in w.api.claims ==> w.api.claims[z.k].deleting && ClaimFinalizer !in w.api.claims[z.k].finalizers)
  }

  // The thread that finalizes, as long as no call has failed.
  ghost predicate TakesDown(z: Going, m: M.Server, t: C.Thread) {
    var n := z.tenant;
    && (t.pc.Fetch? || C.Finalizing(t.pc))
    && (C.Finalizing(t.pc) ==> t.claim == z.claim)
    && (C.Finalizing(t.pc) && !t.pc.FinalClass? ==> t.bc == z.bc)
    && (t.pc.FinalSecret? ==> z.claim.status.secretReference.Some?)
    && (t.pc.Revoke? ==>
          && t.creds.bucket == n.bucket
          && (|| (t.pc.call == RemoveUser(n.accessKey) && t.pc.rest == Then(RemovePolicy(n.policy), End))
              || (t.pc.call == RemovePolicy(n.policy) && t.pc.rest == End && NoUser(m, n))))
    && (t.pc.Delete? ==>
          && NoUser(m, n) && NoPolicy(m, n)
          && (|| (t.pc.call == BucketExists(n.bucket) && t.pc.rest == Then(RemoveBucket(n.bucket), End))
              || (t.pc.call == RemoveBucket(n.bucket) && t.pc.rest == End && n.bucket in m.buckets)))
    && (t.pc.DropFinalizer? ==> NoUser(m, n) && NoPolicy(m, n) && NoBucket(m, n))
  }

  lemma FinalPhase(cfg: Config, k: Key, t: C.Thread, r: Reply)
    ensures C.Finalizing(t.pc) ==> C.Resume(cfg, k, t, r) == C.ResumeFinal(k, t, r)
    ensures t.pc.Fetch? ==> C.Resume(cfg, k, t, r) == C.ResumeAdmission(cfg, k, t, r)
  {
    hide C.ResumeAdmission, C.ResumeProvision, C.ResumeFinal;
  }

  // Reading the claim, the class, the provider and the Secret.
  lemma FairReads(z: Going, w: World, t: C.Thread, c: Choice)
    requires Fair(c) && Deletable(z) && Waiting(z, w) && TakesDown(z, w.minio, t)
    requires t.pc.Fetch? || t.pc.FinalClass? || t.pc.FinalResolve? || t.pc.FinalSecret?
    ensures var (w', r) := Serve(w, C.Request(z.k, t), c);
            && w' == w
            && (t.pc.Fetch? ==> r == ClaimIs(z.claim))
            && (t.pc.FinalClass? ==> r == ClassIs(z.bc))
            && (t.pc.FinalResolve? ==> r.Resolved?)
            && (t.pc.FinalSecret? && z.claim.status.secretReference.Some? && r.SecretIs? ==>
                  Lookup(r.secret.data, AccessKeyID) == z.tenant.accessKey)
  {
    hide ServeMinio, ServeAccesses, ServeCosi, WriteSecret, WriteClaim, WriteClaimStatus, Torn, Removable, Consistent,
         FinalBucketName, M.PolicyName, M.AccessKeyForAccount, Joined, TrimSpace;
  }

  lemma RevocationStarts(z: Going, t: C.Thread, accessKey: string)
    requires Deletable(z) && t.claim == z.claim && t.bc == z.bc && (accessKey == "" || accessKey == z.tenant.accessKey)
    ensures var next := C.BeginRevoke(z.k, t, accessKey);
            && next.pc == C.Revoke(RemoveUser(z.tenant.accessKey), Then(RemovePolicy(z.tenant.policy), End))
            && next.creds.bucket == z.tenant.bucket && next.claim == t.claim && next.bc == t.bc
  {
    hide FinalBucketName, M.PolicyName, M.AccessKeyForAccount, Joined, TrimSpace, UsesMinio;
  }

  // The two requests of the revocation are still to be made.
  predicate AtRevocation(z: Going, pc: C.Pc) {
    pc == C.Revoke(RemoveUser(z.tenant.accessKey), Then(RemovePolicy(z.tenant.policy), End))
  }

  // Where a read leads that is answered.
  predicate ReadsOn(z: Going, pc: C.Pc, next: C.Pc) {
    && (pc.Fetch? ==> next.FinalClass?)
    && (pc.FinalClass? ==> next.FinalResolve?)
    && (pc.FinalResolve? ==> if z.claim.status.secretReference.Some? then next.FinalSecret? else AtRevocation(z, next))
    && (pc.FinalSecret? ==> AtRevocation(z, next))
  }

  lemma FairReadStep(cfg: Config, z: Going, w: World, t: C.Thread, r: Reply)
    requires Deletable(z) && TakesDown(z, w.minio, t)
    requires t.pc.Fetch? || t.pc.FinalClass? || t.pc.FinalResolve? || t.pc.FinalSecret?
    requires t.pc.Fetch? ==> r == ClaimIs(z.claim)
    requires t.pc.FinalClass? ==> r == ClassIs(z.bc)
    requires t.pc.FinalResolve? ==> r.Resolved?
    requires t.pc.FinalSecret? && z.claim.status.secretReference.Some? && r.SecretIs? ==>
               Lookup(r.secret.data, AccessKeyID) == z.tenant.accessKey
    ensures TakesDown(z, w.minio, C.Resume(cfg, z.k, t, r)) && ReadsOn(z, t.pc, C.Resume(cfg, z.k, t, r).pc)
  {
    hide C.Resume, C.ResumeProvision, Deletable, TrimSpace, Lookup;
    FinalPhase(cfg, z.k, t, r);
    if t.pc.Fetch? || t.pc.FinalClass? {
      DeletesIt(z);
      hide C.BeginRevoke, C.Admit, C.GotFinalProvider;
    } else {
      RevocationFollows(z, w.minio, t, r);
    }
  }

  // With the provider resolved, the Secret is read if there is a reference to it, and the revocation begins.
  lemma RevocationFollows(z: Going, m: M.Server, t: C.Thread, r: Reply)
    requires Deletable(z) && TakesDown(z, m, t) && (t.pc.FinalResolve? || t.pc.FinalSecret?)
    requires t.pc.FinalResolve? ==> r.Resolved?
    requires t.pc.FinalSecret? && r.SecretIs? ==> Lookup(r.secret.data, AccessKeyID) == z.tenant.accessKey
    ensures TakesDown(z, m, C.ResumeFinal(z.k, t, r)) && ReadsOn(z, t.pc, C.ResumeFinal(z.k, t, r).pc)
  {
    hide C.BeginRevoke, Deletable, TrimSpace, Lookup, NoUser, NoPolicy, NoBucket;
    KeyIsTrimmed(z);
    RevocationStarts(z, t, if t.pc.FinalSecret? && r.SecretIs? then TrimSpace(Lookup(r.secret.data, AccessKeyID))
                           else "");
  }

  lemma KeyIsTrimmed(z: Going)
    requires Deletable(z)
    ensures TrimSpace(z.tenant.accessKey) == z.tenant.accessKey
  {
    hide TrimSpace, UsesMinio, FinalBucketName, M.PolicyName, M.AccessKeyForAccount, Joined;
  }

  // Removing the user, then the policy; what is replied does not matter.
  lemma FairRevocation(z: Going, w: World, t: C.Thread, c: Choice)
    requires !c.fate.LostRequest? && Deletable(z) && Waiting(z, w) && TakesDown(z, w.minio, t) && t.pc.Revoke?
    requires C.Finalizing(t.pc)
    ensures var (w', r) := Serve(w, t.pc.call, c);
            && w'.api == w.api && TakesDown(z, w'.minio, C.ResumeFinal(z.k, t, r))
            && Removable(w'.minio, z.tenant) && Consistent(w'.minio, z.tenant) && Torn(w'.minio, z.tenant) == z.torn
  {
    hide Perform, ServeMinio, Effect, Torn, Removable, Consistent, FinalBucketName, TellsKey, M.PolicyName,
         M.AccessKeyForAccount, Joined, TrimSpace, UsesMinio, CallError, OperationOf, NoUser, NoPolicy, NoBucket;
    Performs(w, t.pc.call, c);
    if t.pc.call.RemoveUser? { UserRemoved(w.minio, z.tenant); } else { PolicyRemoved(w.minio, z.tenant); }
  }

  lemma BucketLookedUp(m: M.Server, b: string)
    ensures ServeMinio(m, BucketExists(b)) == (m, Exists(b in m.buckets))
  {
  }

  // Removing the bucket, if it is there.
  lemma FairDestruction(z: Going, w: World, t: C.Thread, c: Choice)
    requires Fair(c) && Waiting(z, w) && TakesDown(z, w.minio, t) && t.pc.Delete? && C.Finalizing(t.pc)
    ensures var (w', r) := Serve(w, t.pc.call, c);
            && w'.api == w.api && TakesDown(z, w'.minio, C.ResumeFinal(z.k, t, r))
            && Removable(w'.minio, z.tenant) && Consistent(w'.minio, z.tenant) && Torn(w'.minio, z.tenant) == z.torn
  {
    hide Perform, ServeMinio, Torn, Removable, Consistent, TellsKey, CallError, OperationOf, NoUser, NoPolicy;
    Performs(w, t.pc.call, c);
    BucketLookedUp(w.minio, z.tenant.bucket);
    if t.pc.call.RemoveBucket? { BucketRemoved(w.minio, z.tenant); }
  }

  lemma FairDrop(z: Going, w: World, t: C.Thread, c: Choice)
    requires !c.fate.LostRequest? && z.claim.deleting && Waiting(z, w) && TakesDown(z, w.minio, t)
    requires t.pc.DropFinalizer?
    ensures LetGo(z, Serve(w, C.Request(z.k, t), c).0)
  {
    GoneIsTorn(w.minio, z.tenant);
    hide ServeMinio, ServeSecrets, ServeAccesses, ServeCosi, ReplyOnly, Torn, Removable, Consistent, TellsKey,
         WriteClaimStatus;
  }

  lemma FairFinalStep(cfg: Config, z: Going, w: World, t: C.Thread, c: Choice)
    requires Fair(c) && Deletable(z) && Waiting(z, w) && TakesDown(z, w.minio, t)
    ensures var (w', r) := Serve(w, C.Request(z.k, t), c);
            if t.pc.DropFinalizer? then LetGo(z, w') && C.Resume(cfg, z.k, t, r).pc.Finished?
            else Waiting(z, w') && TakesDown(z, w'.minio, C.Resume(cfg, z.k, t, r))
  {
    hide Serve, C.Request, C.Resume, Deletable, Torn, Removable, Consistent, TellsKey, LetGo;
    var (w', r) := Serve(w, C.Request(z.k, t), c);
    if t.pc.DropFinalizer? {
      assert z.claim.deleting by { DeletesIt(z); }
      FairDrop(z, w, t, c);
      DropEnds(cfg, z.k, t, r);
    }
    else if t.pc.Revoke? { FinalCall(z.k, t); FairRevocation(z, w, t, c); FinalPhase(cfg, z.k, t, r); }
    else if t.pc.Delete? { FinalCall(z.k, t); FairDestruction(z, w, t, c); FinalPhase(cfg, z.k, t, r); }
    else { FairReads(z, w, t, c); FairReadStep(cfg, z, w, t, r); }
  }

  lemma FinalCall(k: Key, t: C.Thread)
    requires t.pc.Revoke? || t.pc.Delete?
    ensures C.Request(k, t) == t.pc.call
  {
  }

  /* Faults that finalization makes up for */

  // Every fault of every call, with two exceptions: a request to revoke must not get lost, as nobody looks at its
  // reply, and the provider must not be reported as one for which finalization is skipped.
  predicate Bearable(call: Call, c: Choice) {
    && (call.RemoveUser? || call.RemovePolicy? ==> !c.fate.LostRequest?)
    && (call.ResolveProvider? && c.fate.Works? && c.resolution.Some? ==> !ReasonToSkip(c.resolution.value))
  }

  // A call of the deletion that failed, or whose reply got lost, ends the attempt with the bucket as it was or gone.
  lemma FailedDestruction(z: Going, w: World, t: C.Thread, c: Choice)
    requires !c.fate.Works? && Waiting(z, w) && TakesDown(z, w.minio, t) && t.pc.Delete? && C.Finalizing(t.pc)
    ensures var (w', r) := Serve(w, t.pc.call, c);
            && w'.api == w.api && C.ResumeFinal(z.k, t, r).pc.Finished?
            && Removable(w'.minio, z.tenant) && Consistent(w'.minio, z.tenant) && Torn(w'.minio, z.tenant) == z.torn
  {
    hide Perform, ServeMinio, Torn, Removable, Consistent, TellsKey, CallError, OperationOf, NoUser, NoPolicy;
    Performs(w, t.pc.call, c);
    BucketLookedUp(w.minio, z.tenant.bucket);
    if t.pc.call.RemoveBucket? { BucketRemoved(w.minio, z.tenant); }
  }

  lemma FailedRead(z: Going, w: World, t: C.Thread, c: Choice)
    requires !c.fate.Works? && (t.pc.Fetch? || t.pc.FinalClass? || t.pc.FinalResolve? || t.pc.FinalSecret?)
    ensures Serve(w, C.Request(z.k, t), c).0 == w && Serve(w, C.Request(z.k, t), c).1.Refused?
  {
    hide ServeMinio, ServeAccesses, ServeCosi, WriteSecret, WriteClaim, WriteClaimStatus;
  }

  // What a failed read makes of the attempt.
  lemma FailedReadStep(cfg: Config, z: Going, m: M.Server, t: C.Thread, r: Reply)
    requires Deletable(z) && TakesDown(z, m, t)
    requires t.pc.Fetch? || t.pc.FinalClass? || t.pc.FinalResolve? || t.pc.FinalSecret?
    requires r.Refused? || (t.pc.FinalResolve? && r.Unresolved? && !ReasonToSkip(r.why))
    ensures var next := C.Resume(cfg, z.k, t, r); next.pc.Finished? || TakesDown(z, m, next)
  {
    hide C.Resume, C.ResumeAdmission, C.ResumeFinal, TakesDown, Deletable, ReasonToSkip;
    FinalPhase(cfg, z.k, t, r);
    if t.pc.Fetch? { FirstReadFails(cfg, z.k, t, r); }
    else if t.pc.FinalSecret? { RevocationFollows(z, m, t, r); }
    else { FinalReadFails(z.k, t, r); }
  }

  lemma FirstReadFails(cfg: Config, k: Key, t: C.Thread, r: Reply)
    requires t.pc.Fetch? && r.Refused?
    ensures C.ResumeAdmission(cfg, k, t, r).pc.Finished?
  {
    hide C.GotClaim;
  }

  lemma FinalReadFails(k: Key, t: C.Thread, r: Reply)
    requires t.pc.FinalClass? || t.pc.FinalResolve?
    requires r.Refused? || (t.pc.FinalResolve? && r.Unresolved? && !ReasonToSkip(r.why))
    ensures C.ResumeFinal(k, t, r).pc.Finished?
  {
    hide C.BeginRevoke;
  }

  lemma NotResolved(w: World, bc: BucketClass, c: Choice)
    requires c.fate.Works? && c.resolution.Some? && UsesMinio(bc)
    ensures Serve(w, ResolveProvider(bc), c) == (w, Unresolved(c.resolution.value))
  {
  }

  // A choice tells the fate of a call, and only resolving a provider asks for more.
  lemma SameButResolution(w: World, call: Call, c: Choice)
    requires !call.ResolveProvider?
    ensures Serve(w, call, c) == Serve(w, call, c.(resolution := None))
  {
    hide ServeClaims, ServeSecrets, ServeAccesses, ServeCosi, ServeMinio;
  }

  // Whether an attempt is still under way and on course, or over.
  ghost predicate OnCourse(z: Going, w: World, t: C.Thread) {
    && (Waiting(z, w) || LetGo(z, w))
    && (t.pc.Finished? || (Waiting(z, w) && TakesDown(z, w.minio, t)))
  }

  lemma BearableRead(cfg: Config, z: Going, w: World, t: C.Thread, c: Choice)
    requires Deletable(z) && Waiting(z, w) && TakesDown(z, w.minio, t) && Bearable(C.Request(z.k, t), c)
    requires t.pc.Fetch? || t.pc.FinalClass? || t.pc.FinalResolve? || t.pc.FinalSecret?
    ensures var (w', r) := Serve(w, C.Request(z.k, t), c); OnCourse(z, w', C.Resume(cfg, z.k, t, r))
  {
    hide Serve, C.Resume, Deletable, Waiting, Torn, Removable, Consistent, TellsKey, LetGo, ReasonToSkip;
    var call := C.Request(z.k, t);
    var (w', r) := Serve(w, call, c);
    if !c.fate.Works? {
      FailedRead(z, w, t, c);
      FailedReadStep(cfg, z, w.minio, t, r);
    } else if t.pc.FinalResolve? && c.resolution.Some? {
      OnMinioClass(z);
      NotResolved(w, t.bc, c);
      FailedReadStep(cfg, z, w.minio, t, r);
    } else {
      if !t.pc.FinalResolve? { SameButResolution(w, call, c); }
      var fair := c.(resolution := None);
      FairReads(z, w, t, fair);
      FairReadStep(cfg, z, w, t, r);
    }
  }

  lemma OnMinioClass(z: Going)
    requires Deletable(z)
    ensures UsesMinio(z.bc)
  {
    hide UsesMinio, FinalBucketName, M.PolicyName, M.AccessKeyForAccount, TrimSpace, Joined;
  }

  lemma BearableStep(cfg: Config, z: Going, w: World, t: C.Thread, c: Choice)
    requires Deletable(z) && Waiting(z, w) && TakesDown(z, w.minio, t) && Bearable(C.Request(z.k, t), c)
    ensures var (w', r) := Serve(w, C.Request(z.k, t), c); OnCourse(z, w', C.Resume(cfg, z.k, t, r))
  {
    hide Serve, C.Request, C.Resume, Deletable, Torn, Removable, Consistent, TellsKey, LetGo;
    var (w', r) := Serve(w, C.Request(z.k, t), c);
    if t.pc.DropFinalizer? {
      DeletesIt(z);
      DropEnds(cfg, z.k, t, r);
      if c.fate.LostRequest? { LostIsLost(w, C.Request(z.k, t), c); } else { FairDrop(z, w, t, c); }
    } else if t.pc.Revoke? {
      FinalCall(z.k, t);
      FairRevocation(z, w, t, c);
      FinalPhase(cfg, z.k, t, r);
    } else if t.pc.Delete? {
      FinalCall(z.k, t);
      FinalPhase(cfg, z.k, t, r);
      SameButResolution(w, t.pc.call, c);
      if c.fate.Works? { FairDestruction(z, w, t, c.(resolution := None)); } else { FailedDestruction(z, w, t, c); }
    } else {
      BearableRead(cfg, z, w, t, c);
    }
  }

  lemma LostIsLost(w: World, call: Call, c: Choice)
    requires c.fate.LostRequest?
    ensures Serve(w, call, c).0 == w
  {
    hide Perform;
  }

  /* A finalization with such faults, cut off anywhere, and a complete one */

  // From the n-th call on the process is dead.
  ghost predicate Dead(plan: nat -> Choice, n: nat) { forall i: nat :: i >= n ==> plan(i).fate.LostRequest? }

  lemma {:induction false} DeadRun(cfg: Config, k: Key, w: World, t: C.Thread, plan: nat -> Choice, n: nat)
    requires Dead(plan, n)
    ensures C.RunAlone(cfg, k, w, t, plan, n).world == w
    decreases C.Stage(t.pc), C.Left(t.pc)
  {
    hide Perform, C.Request, C.Resume, C.Stage, C.Left;
    if !t.pc.Finished? {
      assert plan(n).fate.LostRequest?;
      var (w', r) := Serve(w, C.Request(k, t), plan(n));
      C.Progresses(cfg, k, t, r);
      DeadRun(cfg, k, w', C.Resume(cfg, k, t, r), plan, n + 1);
    }
  }

  // Every call of the activation meets a bearable fate until it ends or the process dies.
  ghost predicate BearableRun(cfg: Config, k: Key, w: World, t: C.Thread, plan: nat -> Choice, n: nat)
    decreases C.Stage(t.pc), C.Left(t.pc)
  {
    t.pc.Finished? || Dead(plan, n)
    || (&& Bearable(C.Request(k, t), plan(n))
        && var (w', r) := Serve(w, C.Request(k, t), plan(n));
           C.Progresses(cfg, k, t, r);
           BearableRun(cfg, k, w', C.Resume(cfg, k, t, r), plan, n + 1))
  }

  lemma {:induction false} CutRun(cfg: Config, z: Going, w: World, t: C.Thread, plan: nat -> Choice, n: nat)
    requires Deletable(z) && OnCourse(z, w, t) && BearableRun(cfg, z.k, w, t, plan, n)
    ensures var w' := C.RunAlone(cfg, z.k, w, t, plan, n).world; Waiting(z, w') || LetGo(z, w')
    decreases C.Stage(t.pc), C.Left(t.pc)
  {
    hide Serve, C.Request, C.Resume, C.Stage, C.Left, Deletable, Waiting, LetGo, Dead, Bearable, TakesDown;
    if !t.pc.Finished? {
      if Dead(plan, n) {
        DeadRun(cfg, z.k, w, t, plan, n);
      } else {
        var (w', r) := Serve(w, C.Request(z.k, t), plan(n));
        BearableStep(cfg, z, w, t, plan(n));
        C.Progresses(cfg, z.k, t, r);
        CutRun(cfg, z, w', C.Resume(cfg, z.k, t, r), plan, n + 1);
      }
    }
  }

  lemma {:induction false} CompleteRun(cfg: Config, z: Going, w: World, t: C.Thread, plan: nat -> Choice, n: nat)
    requires Deletable(z) && Waiting(z, w) && TakesDown(z, w.minio, t) && FairPlan(plan)
    ensures LetGo(z, C.RunAlone(cfg, z.k, w, t, plan, n).world)
    decreases C.Stage(t.pc), C.Left(t.pc)
  {
    hide Serve, C.Request, C.Resume, C.Stage, C.Left, Deletable, Waiting, LetGo, Torn, Removable;
    assert Fair(plan(n));
    var (w', r) := Serve(w, C.Request(z.k, t), plan(n));
    FairFinalStep(cfg, z, w, t, plan(n));
    C.Progresses(cfg, z.k, t, r);
    if t.pc.DropFinalizer? { assert C.RunAlone(cfg, z.k, w', C.Resume(cfg, z.k, t, r), plan, n + 1).world == w'; }
    else { CompleteRun(cfg, z, w', C.Resume(cfg, z.k, t, r), plan, n + 1); }
  }

  // Once let go, an activation does nothing.
  lemma LeftAlone(cfg: Config, z: Going, w: World, plan: nat -> Choice)
    requires LetGo(z, w)
    ensures Attempt(cfg, z.k, w, plan) == w
  {
    hide C.ResumeProvision, C.ResumeFinal, ServeSecrets, ServeAccesses, ServeCosi, ServeMinio, ReplyOnly;
    var (w', r) := Serve(w, GetClaim(z.k), plan(0));
    assert w' == w && (r.Refused? || r.NotFound?
                       || (r.ClaimIs? && r.claim.deleting && ClaimFinalizer !in r.claim.finalizers));
    assert C.Resume(cfg, z.k, C.START, r).pc.Finished?;
  }

  // One attempt after another, each with its own bearable faults and its own point where the process dies.
  ghost predicate BearableRuns(cfg: Config, k: Key, w: World, plans: seq<nat -> Choice>)
    decreases |plans|
  {
    plans == []
    || (BearableRun(cfg, k, w, C.START, plans[0], 0) && BearableRuns(cfg, k, Attempt(cfg, k, w, plans[0]), plans[1..]))
  }

  lemma {:induction false} AttemptsStayWaiting(cfg: Config, z: Going, w: World, plans: seq<nat -> Choice>)
    requires Deletable(z) && (Waiting(z, w) || LetGo(z, w)) && BearableRuns(cfg, z.k, w, plans)
    ensures var w' := Attempts(cfg, z.k, w, plans); Waiting(z, w') || LetGo(z, w')
    decreases |plans|
  {
    hide Deletable, Waiting, LetGo, C.RunAlone, BearableRun, TakesDown;
    if plans != [] {
      if Waiting(z, w) {
        Sets(z, w);
        CutRun(cfg, z, w, C.START, plans[0], 0);
      } else {
        LeftAlone(cfg, z, w, plans[0]);
      }
      AttemptsStayWaiting(cfg, z, Attempt(cfg, z.k, w, plans[0]), plans[1..]);
    }
  }

  lemma Sets(z: Going, w: World)
    ensures TakesDown(z, w.minio, C.START)
  {
  }

  lemma DeletesIt(z: Going)
    requires Deletable(z)
    ensures z.claim.deleting && ClaimFinalizer in z.claim.finalizers
  {
    hide FinalBucketName, M.PolicyName, M.AccessKeyForAccount, TrimSpace, UsesMinio, Joined;
  }

  /* Provisioning, then finalizing */

  // Nothing on the server bears the names of the tenant.
  predicate Unused(m: M.Server, n: Tenant) { n.bucket !in m.buckets && M.Free(m, n.accessKey, n.policy) }

  function GoingOf(cfg: Config, x: Case, w: World): Going
    requires x.k in w.api.claims
  {
    Going(x.k, w.api.claims[x.k], x.bc, AimOf(cfg, x).tenant, x.server)
  }

  lemma GoalTorn(m0: M.Server, m: M.Server, g: Aim)
    requires Unused(m0, g.tenant) && Alike(m, Goal(m0, g), g.tenant.bucket)
    ensures Torn(m, g.tenant) == m0 && Removable(m, g.tenant) && Consistent(m, g.tenant)
  {
    hide PolicyOf, Rules;
    var n := g.tenant;
    assert m.buckets - {n.bucket} == m0.buckets;
    assert m0.users[n.accessKey := n.secretKey] - {n.accessKey} == m0.users;
    assert m0.policies[n.policy := PolicyOf(n.bucket, g.spec)] - {n.policy} == m0.policies;
    assert m0.attached[n.accessKey := n.policy] - {n.accessKey} == m0.attached;
    forall u | u in m.attached && u != n.accessKey ensures m.attached[u] != n.policy {
      assert m0.attached[u] in m0.attached.Values;
    }
  }

  // Marking the claim for deletion, as the API server does.
  lemma DoomedClaim(api: Api, k: Key)
    requires k in api.claims && api.claims[k].finalizers != {} && !api.claims[k].deleting
    ensures var b := Doomed(api, k);
            && k in b.claims && b.claims[k].deleting && b.claims[k].finalizers == api.claims[k].finalizers
            && b.claims[k].status == api.claims[k].status && b.claims[k].spec == api.claims[k].spec
            && b.classes == api.classes && b.secrets == api.secrets
  {
  }

  lemma GoingTenant(cfg: Config, x: Case)
    ensures var n := AimOf(cfg, x).tenant;
            && n.policy == M.PolicyName(n.bucket, Joined(x.k)) && n.accessKey == M.AccessKeyForAccount(Joined(x.k))
            && TrimSpace(n.accessKey) == n.accessKey && n.bucket == EffectiveBucketName(x.k, x.claim.spec, x.bc)
            && FinalCreds(cfg, x).bucket == n.bucket && FinalCreds(cfg, x).accessKey == n.accessKey
  {
    M.CredentialsAreTrimmed(cfg.digest, Joined(x.k));
    hide EffectiveBucketName, Region, M.PolicyName, M.AccessKeyForAccount, M.SecretForAccount, Joined, CredentialsKey,
         TrimSpace;
  }

  // What finalization needs to know of a claim that was provisioned to the end.
  lemma DoneFacts(cfg: Config, x: Case, w: World)
    requires Between(cfg, x, w) && InPlace(cfg, x, w)
    ensures x.k in w.api.claims && w.api.claims[x.k].status == FinalStatus(cfg, x)
    ensures var c := w.api.claims[x.k]; ClaimFinalizer in c.finalizers && !c.deleting && c.spec == x.claim.spec
    ensures SecretKeyIn(x) in w.api.secrets && w.api.secrets[SecretKeyIn(x)].data == FinalData(cfg, x)
    ensures x.claim.spec.className in w.api.classes && w.api.classes[x.claim.spec.className] == x.bc
    ensures Alike(w.minio, Goal(x.server, AimOf(cfg, x)), AimOf(cfg, x).tenant.bucket)
  {
    hide AimOf, Goal, Alike, FinalStatus, FinalData, SecretSound, C.UpToDate;
  }

  lemma DoneIsDeletable(cfg: Config, x: Case, w: World)
    requires Provisionable(cfg, x) && Deletes(x.bc.deletionPolicy) && Between(cfg, x, w) && InPlace(cfg, x, w)
    requires Unused(x.server, AimOf(cfg, x).tenant)
    ensures x.k in w.api.claims && w.api.claims[x.k].finalizers != {} && !w.api.claims[x.k].deleting
    ensures var w2 := w.(api := Doomed(w.api, x.k));
            x.k in w2.api.claims && Deletable(GoingOf(cfg, x, w2)) && Waiting(GoingOf(cfg, x, w2), w2)
  {
    hide AimOf, Goal, Alike, Torn, Removable, Consistent, Unused, Doomed, EffectiveBucketName, M.PolicyName,
         M.AccessKeyForAccount, Joined, TrimSpace, UsesMinio, FinalCreds, CredentialsKey, Between, InPlace;
    DoneFacts(cfg, x, w);
    DoomedClaim(w.api, x.k);
    GoalTorn(x.server, w.minio, AimOf(cfg, x));
    GoingTenant(cfg, x);
    EffectiveNameNonempty(x.k, x.claim.spec, x.bc);
  }

  /** Provision, delete, finalize: from a server on which the claim's names are unused, whatever befell the attempts
      to provision it, the complete finalization - after any number of attempts that died on the way or met faults
      other than the loss of a request to revoke - leaves the server exactly as it was before the claim, and the
      claim without the finalizer; another one changes nothing further. */
  lemma FinalizationRestores(cfg: Config, x: Case, w: World, plans: seq<nat -> Choice>, fair: nat -> Choice,
                             cuts: seq<nat -> Choice>, last: nat -> Choice)
    requires Provisionable(cfg, x) && StartsAs(cfg, x, w) && Deletes(x.bc.deletionPolicy)
    requires Unused(x.server, AimOf(cfg, x).tenant)
    requires FairPlan(fair) && FairPlan(last)
    requires var w1 := Attempt(cfg, x.k, Attempts(cfg, x.k, w, plans), fair);
             BearableRuns(cfg, x.k, w1.(api := Doomed(w1.api, x.k)), cuts)
    ensures var w1 := Attempt(cfg, x.k, Attempts(cfg, x.k, w, plans), fair);
            var w2 := Attempts(cfg, x.k, w1.(api := Doomed(w1.api, x.k)), cuts);
            var w3 := Attempt(cfg, x.k, w2, last);
            && w3.minio == x.server
            && (x.k in w3.api.claims ==>
                  w3.api.claims[x.k].deleting && ClaimFinalizer !in w3.api.claims[x.k].finalizers)
            && Attempt(cfg, x.k, w3, last) == w3
  {
    hide Provisionable, Between, InPlace, StartsAs, FairPlan, C.RunAlone, Waiting, Deletable, BearableRuns, Unused,
         Deletes, Doomed, TakesDown, AimOf;
    StartIsBetween(cfg, x, w);
    AttemptsStayBetween(cfg, x, w, plans);
    var w1 := Attempt(cfg, x.k, Attempts(cfg, x.k, w, plans), fair);
    FairAttemptIsDone(cfg, x, Attempts(cfg, x.k, w, plans), fair);
    DoneIsDeletable(cfg, x, w1);
    var doomed := w1.(api := Doomed(w1.api, x.k));
    var z := GoingOf(cfg, x, doomed);
    AttemptsStayWaiting(cfg, z, doomed, cuts);
    var w2 := Attempts(cfg, x.k, doomed, cuts);
    if Waiting(z, w2) { Sets(z, w2); CompleteRun(cfg, z, w2, C.START, last, 0); } else { LeftAlone(cfg, z, w2, last); }
    LeftAlone(cfg, z, Attempt(cfg, x.k, w2, last), last);
  }

  /* The faults that finalization does not make up for */

  // The server after a request that may have got lost.
  function Tried(m: M.Server, call: Call, c: Choice): M.Server
    requires OnMinio(call)
  {
    if c.fate.LostRequest? then m else ServeMinio(m, call).0
  }

  function WithoutBucket(m: M.Server, n: Tenant): M.Server { m.(buckets := m.buckets - {n.bucket}) }

  // The server after one attempt whose two requests to revoke had these fates.
  function Left(m: M.Server, n: Tenant, user: Choice, policy: Choice): M.Server {
    WithoutBucket(Tried(Tried(m, RemoveUser(n.accessKey), user), RemovePolicy(n.policy), policy), n)
  }

  ghost predicate Released(z: Going, api: Api) {
    z.k in api.claims ==> api.claims[z.k].deleting && ClaimFinalizer !in api.claims[z.k].finalizers
  }

  // Nothing of the tenant is left exactly when no request to revoke something that was there got lost.
  lemma LeftIsTornIff(m: M.Server, n: Tenant, user: Choice, policy: Choice)
    requires Removable(m, n) && Consistent(m, n)
    ensures Left(m, n, user, policy) == Torn(m, n)
            <==> && (n.accessKey in m.users ==> !user.fate.LostRequest?)
                 && (n.policy in m.policies ==> !policy.fate.LostRequest?)
  {
    var m1 := Tried(m, RemoveUser(n.accessKey), user);
    var m2 := Tried(m1, RemovePolicy(n.policy), policy);
    PolicyTried(m1, n, policy);
    hide ServeMinio, Removable;
    if n.accessKey in m.users && user.fate.LostRequest? {
      assert n.accessKey in m2.users;
    } else {
      UserTried(m, n, user);
      assert m2.policies == m.policies - {n.policy} <==> (n.policy in m.policies ==> !policy.fate.LostRequest?);
    }
  }

  lemma UserTried(m: M.Server, n: Tenant, c: Choice)
    requires Removable(m, n) && Consistent(m, n) && (n.accessKey in m.users ==> !c.fate.LostRequest?)
    ensures var m' := Tried(m, RemoveUser(n.accessKey), c);
            && m' == m.(users := m.users - {n.accessKey}, attached := m.attached - {n.accessKey})
            && n.policy !in m'.attached.Values
  {
  }

  lemma PolicyTried(m: M.Server, n: Tenant, c: Choice)
    ensures var m' := Tried(m, RemovePolicy(n.policy), c);
            m' == if c.fate.LostRequest? || n.policy in m.attached.Values then m
                  else m.(policies := m.policies - {n.policy})
  {
  }

  // What the thread of a claim being finalized remembers.
  predicate Remembers(z: Going, t: C.Thread) { t.claim == z.claim && t.bc == z.bc && t.creds.bucket == z.tenant.bucket }

  // Neither the policy nor the bucket has anything to do with the rest, whoever is left.
  lemma TeardownKeeps(z: Going, m: M.Server, call: Call)
    requires Removable(m, z.tenant) && Consistent(m, z.tenant) && Torn(m, z.tenant) == z.torn
    requires call in {RemoveUser(z.tenant.accessKey), RemovePolicy(z.tenant.policy), RemoveBucket(z.tenant.bucket)}
    ensures var m' := ServeMinio(m, call).0;
            Removable(m', z.tenant) && Consistent(m', z.tenant) && Torn(m', z.tenant) == z.torn
  {
  }

  lemma BucketGoes(m: M.Server, n: Tenant)
    requires Removable(m, n) && n.bucket in m.buckets
    ensures ServeMinio(m, RemoveBucket(n.bucket)) == (WithoutBucket(m, n), Done)
  {
  }

  lemma Revoking(z: Going, w: World, t: C.Thread, c: Choice)
    requires Deletable(z) && Waiting(z, w) && Remembers(z, t) && t.pc.Revoke?
    requires AtRevocation(z, t.pc) || t.pc == C.Revoke(RemovePolicy(z.tenant.policy), End)
    ensures var (w', r) := Serve(w, t.pc.call, c);
            var next := C.ResumeFinal(z.k, t, r);
            && w' == World(w.api, Tried(w.minio, t.pc.call, c)) && Waiting(z, w') && Remembers(z, next)
            && next.pc == if t.pc.rest.Then? then C.Revoke(RemovePolicy(z.tenant.policy), End)
                          else C.Delete(BucketExists(z.tenant.bucket), Then(RemoveBucket(z.tenant.bucket), End))
  {
    hide Perform, ServeMinio, Torn, Removable, Consistent, TellsKey, FinalBucketName, M.PolicyName,
         M.AccessKeyForAccount, Joined, TrimSpace, CallError, OperationOf, UsesMinio;
    Performs(w, t.pc.call, c);
    TeardownKeeps(z, w.minio, t.pc.call);
  }

  lemma LookingUp(z: Going, w: World, t: C.Thread, c: Choice)
    requires Fair(c) && Waiting(z, w) && Remembers(z, t)
    requires t.pc == C.Delete(BucketExists(z.tenant.bucket), Then(RemoveBucket(z.tenant.bucket), End))
    ensures var (w', r) := Serve(w, t.pc.call, c);
            var next := C.ResumeFinal(z.k, t, r);
            && w' == w && Remembers(z, next)
            && next.pc == if z.tenant.bucket in w.minio.buckets then C.Delete(RemoveBucket(z.tenant.bucket), End)
                          else C.DropFinalizer
  {
    hide Perform, ServeMinio, Waiting, CallError, OperationOf;
    Performs(w, t.pc.call, c);
    BucketLookedUp(w.minio, z.tenant.bucket);
  }

  lemma Deleting(z: Going, w: World, t: C.Thread, c: Choice)
    requires Fair(c) && Waiting(z, w) && Remembers(z, t) && z.tenant.bucket in w.minio.buckets
    requires t.pc == C.Delete(RemoveBucket(z.tenant.bucket), End)
    ensures var (w', r) := Serve(w, t.pc.call, c);
            var next := C.ResumeFinal(z.k, t, r);
            && w' == World(w.api, WithoutBucket(w.minio, z.tenant)) && Waiting(z, w') && Remembers(z, next)
               && next.pc.DropFinalizer?
  {
    hide Perform, ServeMinio, Torn, Removable, Consistent, TellsKey, CallError, OperationOf;
    Performs(w, t.pc.call, c);
    TeardownKeeps(z, w.minio, t.pc.call);
    BucketGoes(w.minio, z.tenant);
  }

  lemma Dropping(z: Going, w: World, t: C.Thread, c: Choice)
    requires z.claim.deleting && Waiting(z, w) && t.claim == z.claim && t.pc.DropFinalizer?
    ensures var w' := Serve(w, C.Request(z.k, t), c).0;
            w'.minio == w.minio && (!c.fate.LostRequest? ==> Released(z, w'.api))
  {
    hide ServeMinio, ServeSecrets, ServeAccesses, ServeCosi, ReplyOnly, Torn, Removable, Consistent, TellsKey,
         WriteClaimStatus;
  }

  lemma DroppingRun(cfg: Config, z: Going, w: World, t: C.Thread, plan: nat -> Choice, n: nat)
    requires Deletable(z) && Waiting(z, w) && t.claim == z.claim && t.pc.DropFinalizer?
    ensures var w' := C.RunAlone(cfg, z.k, w, t, plan, n).world;
            w'.minio == w.minio && (!plan(n).fate.LostRequest? ==> Released(z, w'.api))
  {
    hide Serve, C.RunAlone, C.Request, C.Resume, Deletable, Waiting, Released;
    var (w', r) := Serve(w, C.Request(z.k, t), plan(n));
    C.OneStep(cfg, z.k, w, t, plan, n);
    DeletesIt(z);
    Dropping(z, w, t, plan(n));
    DropEnds(cfg, z.k, t, r);
    C.AtTheEnd(cfg, z.k, w', C.Resume(cfg, z.k, t, r), plan, n + 1);
  }

  // From the deletion of the bucket on, without faults.
  lemma {:induction false} DeletingRun(cfg: Config, z: Going, w: World, t: C.Thread, plan: nat -> Choice, n: nat)
    requires Deletable(z) && Waiting(z, w) && Remembers(z, t) && forall i: nat :: i >= n ==> Fair(plan(i))
    requires var b := z.tenant.bucket;
             || t.pc == C.Delete(BucketExists(b), Then(RemoveBucket(b), End))
             || (t.pc == C.Delete(RemoveBucket(b), End) && b in w.minio.buckets)
             || (t.pc.DropFinalizer? && b !in w.minio.buckets)
    ensures var w' := C.RunAlone(cfg, z.k, w, t, plan, n).world;
            w'.minio == WithoutBucket(w.minio, z.tenant) && Released(z, w'.api)
    decreases if t.pc.DropFinalizer? then 0 else if t.pc.call.RemoveBucket? then 1 else 2
  {
    hide Serve, C.RunAlone, C.Request, C.Resume, C.ResumeFinal, Deletable, Waiting, Released;
    assert Fair(plan(n));
    if t.pc.DropFinalizer? {
      DroppingRun(cfg, z, w, t, plan, n);
      assert w.minio.buckets - {z.tenant.bucket} == w.minio.buckets;
    } else {
      var (w', r) := Serve(w, t.pc.call, plan(n));
      FinalCall(z.k, t);
      C.OneStep(cfg, z.k, w, t, plan, n);
      if t.pc.call.BucketExists? { LookingUp(z, w, t, plan(n)); } else { Deleting(z, w, t, plan(n)); }
      FinalPhase(cfg, z.k, t, r);
      DeletingRun(cfg, z, w', C.Resume(cfg, z.k, t, r), plan, n + 1);
    }
  }

  // From the revocation on, without faults but those of its two requests.
  lemma RevokingRun(cfg: Config, z: Going, w: World, t: C.Thread, plan: nat -> Choice, n: nat)
    requires Deletable(z) && Waiting(z, w) && Remembers(z, t) && AtRevocation(z, t.pc)
    requires forall i: nat :: i > n + 1 ==> Fair(plan(i))
    ensures var w' := C.RunAlone(cfg, z.k, w, t, plan, n).world;
            w'.minio == Left(w.minio, z.tenant, plan(n), plan(n + 1)) && Released(z, w'.api)
  {
    hide Serve, C.RunAlone, C.Request, C.Resume, C.ResumeFinal, Deletable, Waiting, Released, Fair, Tried;
    var (w1, r1) := Serve(w, t.pc.call, plan(n));
    FinalCall(z.k, t);
    C.OneStep(cfg, z.k, w, t, plan, n);
    Revoking(z, w, t, plan(n));
    FinalPhase(cfg, z.k, t, r1);
    var t1 := C.Resume(cfg, z.k, t, r1);
    var (w2, r2) := Serve(w1, t1.pc.call, plan(n + 1));
    FinalCall(z.k, t1);
    C.OneStep(cfg, z.k, w1, t1, plan, n + 1);
    Revoking(z, w1, t1, plan(n + 1));
    FinalPhase(cfg, z.k, t1, r2);
    DeletingRun(cfg, z, w2, C.Resume(cfg, z.k, t1, r2), plan, n + 2);
  }

  // One read that is answered.
  lemma ReadingRun(cfg: Config, z: Going, w: World, t: C.Thread, plan: nat -> Choice, n: nat) returns (next: C.Thread)
    requires Deletable(z) && Waiting(z, w) && TakesDown(z, w.minio, t) && Fair(plan(n))
    requires t.pc.Fetch? || t.pc.FinalClass? || t.pc.FinalResolve? || t.pc.FinalSecret?
    ensures TakesDown(z, w.minio, next) && ReadsOn(z, t.pc, next.pc)
    ensures C.RunAlone(cfg, z.k, w, t, plan, n) == C.RunAlone(cfg, z.k, w, next, plan, n + 1)
  {
    hide Serve, C.RunAlone, C.Request, C.Resume, Deletable, Waiting, TakesDown, ReadsOn, Fair;
    var (w', r) := Serve(w, C.Request(z.k, t), plan(n));
    C.OneStep(cfg, z.k, w, t, plan, n);
    FairReads(z, w, t, plan(n));
    FairReadStep(cfg, z, w, t, r);
    next := C.Resume(cfg, z.k, t, r);
  }

  // A provider that is reported as one to skip.
  lemma SkippingRun(cfg: Config, z: Going, w: World, t: C.Thread, plan: nat -> Choice, n: nat)
    requires Deletable(z) && Waiting(z, w) && TakesDown(z, w.minio, t) && t.pc.FinalResolve?
    requires plan(n).fate.Works? && plan(n).resolution.Some? && ReasonToSkip(plan(n).resolution.value)
    ensures var w' := C.RunAlone(cfg, z.k, w, t, plan, n).world;
            w'.minio == w.minio && (!plan(n + 1).fate.LostRequest? ==> Released(z, w'.api))
  {
    hide Serve, C.RunAlone, C.Resume, Deletable, Waiting, Released;
    var (w', r) := Serve(w, C.Request(z.k, t), plan(n));
    C.OneStep(cfg, z.k, w, t, plan, n);
    OnMinioClass(z);
    NotResolved(w, t.bc, plan(n));
    FinalPhase(cfg, z.k, t, r);
    DroppingRun(cfg, z, w', C.Resume(cfg, z.k, t, r), plan, n + 1);
  }

  // The number of the call that asks for the removal of the user.
  function FirstRevocation(z: Going): nat { if z.claim.status.secretReference.Some? then 4 else 3 }

  /** The exact condition, for one attempt in which nothing else fails: finalization leaves the server as it was
      before the claim if and only if the provider is not reported as one to skip - or there was nothing to take
      away - and neither the request to remove an existing user nor the one to remove an existing policy is lost.
      There is no second attempt: the finalizer is gone, unless its own removal is lost. */
  lemma RestoredIff(cfg: Config, z: Going, w: World, plan: nat -> Choice)
    requires Deletable(z) && Waiting(z, w)
    requires plan(2).fate.Works? && (plan(2).resolution.Some? ==> ReasonToSkip(plan(2).resolution.value))
    requires forall i: nat :: i !in {2, FirstRevocation(z), FirstRevocation(z) + 1} ==> Fair(plan(i))
    ensures var w', u := Attempt(cfg, z.k, w, plan), FirstRevocation(z);
            && (w'.minio == z.torn <==>
                  if plan(2).resolution.Some? then w.minio == z.torn
                  else && (z.tenant.accessKey in w.minio.users ==> !plan(u).fate.LostRequest?)
                       && (z.tenant.policy in w.minio.policies ==> !plan(u + 1).fate.LostRequest?))
            && (plan(2).resolution.None? || !plan(3).fate.LostRequest? ==> Released(z, w'.api))
  {
    hide C.RunAlone, Deletable, Waiting, TakesDown, Left, Released, Attempt, ReasonToSkip, AtRevocation;
    assert Fair(plan(0)) && Fair(plan(1));
    Sets(z, w);
    assert Attempt(cfg, z.k, w, plan) == C.RunAlone(cfg, z.k, w, C.START, plan, 0).world by {
      IsAttempt(cfg, z.k, w, plan);
    }
    var t1 := ReadingRun(cfg, z, w, C.START, plan, 0);
    var t2 := ReadingRun(cfg, z, w, t1, plan, 1);
    if plan(2).resolution.Some? {
      SkippingRun(cfg, z, w, t2, plan, 2);
    } else {
      RevokingAttempt(cfg, z, w, t2, plan);
    }
  }

  lemma IsAttempt(cfg: Config, k: Key, w: World, plan: nat -> Choice)
    ensures Attempt(cfg, k, w, plan) == C.RunAlone(cfg, k, w, C.START, plan, 0).world
  {
    hide C.RunAlone;
  }

  lemma RevokingAttempt(cfg: Config, z: Going, w: World, t: C.Thread, plan: nat -> Choice)
    requires Deletable(z) && Waiting(z, w) && TakesDown(z, w.minio, t) && t.pc.FinalResolve? && Fair(plan(2))
    requires forall i: nat :: i !in {2, FirstRevocation(z), FirstRevocation(z) + 1} ==> Fair(plan(i))
    ensures var w', u := C.RunAlone(cfg, z.k, w, t, plan, 2).world, FirstRevocation(z);
            && (w'.minio == z.torn <==>
                  && (z.tenant.accessKey in w.minio.users ==> !plan(u).fate.LostRequest?)
                  && (z.tenant.policy in w.minio.policies ==> !plan(u + 1).fate.LostRequest?))
            && Released(z, w'.api)
  {
    hide C.RunAlone, Deletable, TellsKey, Removable, Consistent, Torn, TakesDown, Left, Released, AtRevocation, Fair;
    var u := FirstRevocation(z);
    var next := ReadingRun(cfg, z, w, t, plan, 2);
    if u == 4 { next := ReadingRun(cfg, z, w, next, plan, 3); }
    RevokesNext(next.pc, z);
    Recalls(z, w.minio, next);
    RevokingRun(cfg, z, w, next, plan, u);
    LeftIsTornIff(w.minio, z.tenant, plan(u), plan(u + 1));
  }

  lemma RevokesNext(pc: C.Pc, z: Going)
    requires AtRevocation(z, pc)
    ensures pc.Revoke?
  {
  }

  lemma Recalls(z: Going, m: M.Server, t: C.Thread)
    requires TakesDown(z, m, t) && t.pc.Revoke?
    ensures Remembers(z, t)
  {
  }

  // Let go all the same, with the user still there.
  ghost predicate Leaked(z: Going, w: World) { z.tenant.accessKey in w.minio.users && Released(z, w.api) }

  /** So whenever the request to remove an existing user is lost, finalization goes on without a retry, lets go of the
      claim and leaves the user behind, even if nothing else fails. */
  lemma LostRevocationLeaks(cfg: Config, z: Going, w: World, t: C.Thread, plan: nat -> Choice, n: nat)
    requires Deletable(z) && Waiting(z, w) && TakesDown(z, w.minio, t) && t.pc.Revoke? && t.pc.call.RemoveUser?
    requires z.tenant.accessKey in w.minio.users
    requires plan(n).fate.LostRequest? && forall i: nat :: i > n ==> Fair(plan(i))
    ensures Leaked(z, C.RunAlone(cfg, z.k, w, t, plan, n).world)
  {
    hide C.RunAlone, Deletable, Waiting, Released;
    Recalls(z, w.minio, t);
    RevokingRun(cfg, z, w, t, plan, n);
    hide TakesDown;
  }
}
