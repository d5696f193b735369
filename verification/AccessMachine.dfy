/** The BucketAccess reconciler as a machine that issues one call per step
    (internal/controller/bucketaccess_controller.go). A thread is one activation for the BucketAccess `k`. */
module AccessMachine {
  import opened Text
  import opened Kube
  import opened Cluster
  import opened Provisioning
  import M = Minio

  datatype Result = Success | Requeue(seconds: nat) | Errored

  datatype Pc =
    | Fetch | AddFinalizer | ReadClaim | ReadClass | Resolve | Grant(call: BackendCall, rest: Script)
    | ReadInfo | StoreInfo(secret: Secret, create: bool) | StoreGranted
    | RevokeClaim | RevokeInfo | RevokeClass | RevokeResolve | Revoke(call: BackendCall, rest: Script) | DeleteInfo
      | DropFinalizer
    | Finished(result: Result)

  datatype Thread = Thread(pc: Pc, access: Access, claim: Claim, bc: BucketClass, bucket: string, accessKey: string)

  const START := Thread(Fetch, EMPTY_ACCESS, EMPTY_CLAIM, EMPTY_CLASS, "", "")

  function ClaimKey(k: Key, a: Access): Key { Key(k.namespace, a.claimName) }

  function InfoKey(k: Key, a: Access): Key { Key(k.namespace, a.secretName) }

  // The name that is granted on.
  function GrantedName(c: Claim): string { ToLower(TrimSpace(c.status.bucketName)) }

  // The name that is revoked on.
  function RevokedName(k: Key, c: Claim): string {
    ToLower(if TrimSpace(c.status.bucketName) != "" then TrimSpace(c.status.bucketName)
            else if TrimSpace(c.spec.bucketName) != "" then TrimSpace(c.spec.bucketName)
            else Joined(k))
  }

  function Request(k: Key, t: Thread): Call
    requires !t.pc.Finished?
  {
    match t.pc
    case Fetch => GetAccess(k)
    case AddFinalizer => UpdateAccess(k, t.access.(finalizers := t.access.finalizers + {AccessFinalizer}))
    case ReadClaim => GetClaim(ClaimKey(k, t.access))
    case ReadClass => GetClass(t.claim.spec.className)
    case Resolve => ResolveProvider(t.bc)
    case Grant(call, _) => call
    case ReadInfo => GetSecret(InfoKey(k, t.access))
    case StoreInfo(secret, create) =>
      if create then CreateSecret(InfoKey(k, t.access), secret) else UpdateSecret(InfoKey(k, t.access), secret)
    case StoreGranted => PutAccessStatus(k, t.access.(granted := true, accountID := Joined(k)))
    case RevokeClaim => GetClaim(ClaimKey(k, t.access))
    case RevokeInfo => GetSecret(InfoKey(k, t.access))
    case RevokeClass => GetClass(t.claim.spec.className)
    case RevokeResolve => ResolveProvider(t.bc)
    case Revoke(call, _) => call
    case DeleteInfo => DeleteSecret(InfoKey(k, t.access))
    case DropFinalizer => UpdateAccess(k, t.access.(finalizers := t.access.finalizers - {AccessFinalizer}))
  }

  function Finish(t: Thread, r: Result): Thread { t.(pc := Finished(r)) }

  function GotObject(t: Thread): Thread {
    if t.access.claimName == "" || t.access.secretName == "" then Finish(t, Success)
    else if t.access.deleting then
      if AccessFinalizer in t.access.finalizers then t.(pc := RevokeClaim) else Finish(t, Success)
    else if AccessFinalizer !in t.access.finalizers then t.(pc := AddFinalizer)
    else Admit(t)
  }

  function Admit(t: Thread): Thread {
    if t.access.granted then Finish(t, Success) else t.(pc := ReadClaim)
  }

  /* Granting */

  function GotClaim(t: Thread, r: Reply): Thread {
    match r
    case NotFound => Finish(t, Requeue(5))
    case ClaimIs(c) =>
      if !c.status.bucketReady || TrimSpace(c.status.bucketName) == "" then Finish(t, Requeue(3))
      else t.(claim := c, bucket := GrantedName(c), pc := ReadClass)
    case _ => Finish(t, Errored)
  }

  function GotClass(t: Thread, r: Reply): Thread {
    match r
    case NotFound => Finish(t, Requeue(5))
    case ClassIs(bc) => t.(bc := bc, pc := Resolve)
    case _ => Finish(t, Errored)
  }

  function GotProvider(cfg: Config, k: Key, t: Thread, r: Reply): Thread {
    match r
    case Resolved => BeginGrant(cfg, k, t)
    case Unresolved(why) =>
      Finish(t, if why.Unsupported? || why.NotImplemented? then Requeue(15) else if why.Missing? then Requeue(5)
                else Errored)
    case _ => Finish(t, Errored)
  }

  function BeginGrant(cfg: Config, k: Key, t: Thread): Thread {
    var accessKey := M.AccessKeyForAccount(Joined(k));
    var secretKey := M.SecretForAccount(cfg.digest, Joined(k));
    Give(t.(accessKey := accessKey),
         if UsesMinio(t.bc) then GrantScript(t.bucket, Joined(k), "ReadWrite", accessKey, secretKey)
         else Then(ForeignGrant, End))
  }

  // The next call of the grant, or what follows its last one.
  function Give(t: Thread, todo: Script): Thread {
    match todo
    case Then(call, rest) => t.(pc := Grant(call, rest))
    case End => t.(pc := ReadInfo)
  }

  function GotGrant(t: Thread, call: BackendCall, rest: Script, r: Reply): Thread {
    var t := if r.Granted? then t.(accessKey := r.accessKey) else t;
    match Advance(call, rest, r)
    case Fails(_, _) => Finish(t, Requeue(5))
    case Goes(todo) => Give(t, todo)
  }

  function GotInfo(t: Thread, r: Reply): Thread {
    match r
    case NotFound => t.(pc := StoreInfo(Secret(0, None, map[BucketInfo := t.accessKey]), true))
    case SecretIs(s) => t.(pc := StoreInfo(s.(data := s.data[BucketInfo := t.accessKey]), false))
    case _ => Finish(t, Errored)
  }

  /* Revoking */

  function GotRevokeClaim(k: Key, t: Thread, r: Reply): Thread {
    match r
    case NotFound => t.(pc := DropFinalizer)
    case ClaimIs(c) => t.(claim := c, bucket := RevokedName(ClaimKey(k, t.access), c), pc := RevokeInfo)
    case _ => Finish(t, Errored)
  }

  function KnownKey(r: Reply): string {
    if r.SecretIs? then TrimSpace(Lookup(r.secret.data, BucketInfo)) else ""
  }

  function GotRevokeProvider(k: Key, t: Thread, r: Reply): Thread {
    match r
    case Resolved =>
      Withdraw(t, if UsesMinio(t.bc) then RevokeScript(t.bucket, Joined(k), t.accessKey) else Then(ForeignRevoke, End))
    case Unresolved(why) => Finish(t, if why.Unsupported? || why.NotImplemented? then Requeue(15) else Errored)
    case _ => Finish(t, Errored)
  }

  // The next call of the revocation, or what follows its last one.
  function Withdraw(t: Thread, todo: Script): Thread {
    match todo
    case Then(call, rest) => t.(pc := Revoke(call, rest))
    case End => t.(pc := DeleteInfo)
  }

  function GotRevocation(t: Thread, call: BackendCall, rest: Script, r: Reply): Thread {
    match Advance(call, rest, r)
    case Fails(_, _) => Finish(t, Requeue(5))
    case Goes(todo) => Withdraw(t, todo)
  }

  /* The transition of a thread */

  function Resume(cfg: Config, k: Key, t: Thread, r: Reply): Thread {
    match t.pc
    case Fetch => if r.AccessIs? then GotObject(t.(access := r.access))
                  else Finish(t, if r.NotFound? then Success else Errored)
    case AddFinalizer => if r.AccessIs? then Admit(t.(access := r.access)) else Finish(t, Errored)
    case ReadClaim => GotClaim(t, r)
    case ReadClass => GotClass(t, r)
    case Resolve => GotProvider(cfg, k, t, r)
    case Grant(call, rest) => GotGrant(t, call, rest, r)
    case ReadInfo => GotInfo(t, r)
    case StoreInfo(_, _) => if r.SecretIs? then t.(pc := StoreGranted) else Finish(t, Errored)
    case StoreGranted => Finish(t, if r.AccessIs? then Success else Errored)
    case RevokeClaim => GotRevokeClaim(k, t, r)
    case RevokeInfo => t.(accessKey := KeyOr(KnownKey(r), Joined(k)), pc := RevokeClass)
    case RevokeClass => if r.ClassIs? then t.(bc := r.bc, pc := RevokeResolve) else Finish(t, Errored)
    case RevokeResolve => GotRevokeProvider(k, t, r)
    case Revoke(call, rest) => GotRevocation(t, call, rest, r)
    case DeleteInfo => t.(pc := DropFinalizer)
    case DropFinalizer => Finish(t, if r.AccessIs? then Success else Errored)
    case Finished(_) => t
  }

  function Step(cfg: Config, k: Key, w: World, t: Thread, c: Choice): (World, Thread)
    requires !t.pc.Finished?
  {
    var (w', r) := Serve(w, Request(k, t), c);
    (w', Resume(cfg, k, t, r))
  }

  function Stage(pc: Pc): nat {
    match pc
    case Fetch => 12
    case AddFinalizer => 11
    case ReadClaim => 10
    case ReadClass => 9
    case Resolve => 8
    case Grant(_, _) => 7
    case ReadInfo => 6
    case StoreInfo(_, _) => 5
    case StoreGranted => 4
    case RevokeClaim => 10
    case RevokeInfo => 9
    case RevokeClass => 8
    case RevokeResolve => 7
    case Revoke(_, _) => 6
    case DeleteInfo => 5
    case DropFinalizer => 4
    case Finished(_) => 0
  }

  function Left(pc: Pc): nat {
    match pc
    case Grant(_, rest) => 1 + Size(rest)
    case Revoke(_, rest) => 1 + Size(rest)
    case _ => 0
  }

  predicate Nearer(a: Pc, b: Pc) { Stage(a) < Stage(b) || (Stage(a) == Stage(b) && Left(a) < Left(b)) }

  lemma Progresses(cfg: Config, k: Key, t: Thread, r: Reply)
    requires !t.pc.Finished?
    ensures Nearer(Resume(cfg, k, t, r).pc, t.pc)
  {
    hide Advance, TrimSpace, RevokedName, GrantedName, KnownKey, KeyOr, Joined, BeginGrant, GotRevokeProvider, GotGrant,
         GotRevocation;
    BeginningsAreNearer(cfg, k, t, r);
    if t.pc.Grant? { GrantProgresses(t, t.pc.call, t.pc.rest, r); }
    if t.pc.Revoke? { RevocationProgresses(t, t.pc.call, t.pc.rest, r); }
  }

  lemma GrantProgresses(t: Thread, call: BackendCall, rest: Script, r: Reply)
    requires t.pc == Grant(call, rest)
    ensures Nearer(GotGrant(t, call, rest, r).pc, t.pc)
  {
    hide Advance;
    AdvanceShortens(call, rest, r);
  }

  lemma RevocationProgresses(t: Thread, call: BackendCall, rest: Script, r: Reply)
    requires t.pc == Revoke(call, rest)
    ensures Nearer(GotRevocation(t, call, rest, r).pc, t.pc)
  {
    hide Advance;
    AdvanceShortens(call, rest, r);
  }

  lemma BeginningsAreNearer(cfg: Config, k: Key, t: Thread, r: Reply)
    ensures Stage(BeginGrant(cfg, k, t).pc) <= 7
    ensures Stage(GotRevokeProvider(k, t, r).pc) <= 6
  {
    hide GrantScript, RevokeScript, UsesMinio, Joined, M.AccessKeyForAccount, M.SecretForAccount;
  }

  datatype Outcome = Outcome(world: World, result: Result, calls: nat)

  /** An activation running to its end with nobody else in between. */
  function RunAlone(cfg: Config, k: Key, w: World, t: Thread, plan: nat -> Choice, n: nat): Outcome
    decreases Stage(t.pc), Left(t.pc)
  {
    if t.pc.Finished? then Outcome(w, t.pc.result, n)
    else
      var (w', r) := Serve(w, Request(k, t), plan(n));
      Progresses(cfg, k, t, r);
      RunAlone(cfg, k, w', Resume(cfg, k, t, r), plan, n + 1)
  }

  lemma OneStep(cfg: Config, k: Key, w: World, t: Thread, plan: nat -> Choice, n: nat)
    requires !t.pc.Finished?
    ensures var (w', r) := Serve(w, Request(k, t), plan(n));
            RunAlone(cfg, k, w, t, plan, n) == RunAlone(cfg, k, w', Resume(cfg, k, t, r), plan, n + 1)
  {
    hide Serve, Request, Resume;
  }

  lemma AtTheEnd(cfg: Config, k: Key, w: World, t: Thread, plan: nat -> Choice, n: nat)
    requires t.pc.Finished?
    ensures RunAlone(cfg, k, w, t, plan, n) == Outcome(w, t.pc.result, n)
  {
  }
}
