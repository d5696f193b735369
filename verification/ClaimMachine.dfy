/** The BucketClaim reconciler as a machine that issues one call per step
    (internal/controller/bucketclaim_controller.go). A thread is one activation of Reconcile for the claim `k`. */
module ClaimMachine {
  import opened Text
  import opened Errors
  import opened Kube
  import opened Cluster
  import opened Provisioning

  datatype Result = Success | Requeue(seconds: nat) | Errored

  // A status note: noteClaimProvisioning or noteClaimNotReady.
  datatype Note = Note(phase: Phase, reason: Reason)

  datatype After = Proceed | Stop(result: Result)

  datatype Pc =
    | Fetch | AddFinalizer | FetchClass | Resolve
    | NoteFetch(note: Note, after: After) | NoteWrite(note: Note, after: After, seen: Claim)
    | ReadKeys | Provision(call: BackendCall, rest: Script)
    | FetchSecret | StoreSecret(secret: Secret, create: bool) | Refetch | StoreStatus(seen: Claim)
    | FetchCosi | StoreCosi(bucket: CosiBucket, create: bool)
    | FinalClass | FinalResolve | FinalSecret | Revoke(call: BackendCall, rest: Script)
      | Delete(call: BackendCall, rest: Script) | DropFinalizer
    | Finished(result: Result)

  // Where the activation is, and its local variables.
  datatype Thread = Thread(pc: Pc, claim: Claim, bc: BucketClass, creds: Creds)

  const START := Thread(Fetch, EMPTY_CLAIM, EMPTY_CLASS, Creds("", "", "", ""))

  /* What the handler writes */

  const PROVISIONING := Note(Pending, Reason.Provisioning)

  function NotReady(reason: Reason): Note { Note(Failed, reason) }

  function Noted(c: Claim, note: Note): Claim {
    c.(status := c.status.(phase := note.phase, bucketReady := false,
                           ready := Some(Condition(false, c.generation, note.reason))))
  }

  function BoundTo(c: Claim, k: Key, creds: Creds): Claim {
    c.(status := ClaimStatus(Bound, true, Some(Condition(true, c.generation, BucketProvisioned)),
                             creds.bucket, creds.endpoint, Some(CredentialsKey(k))))
  }

  function CredentialData(creds: Creds, data: map<Entry, string>): map<Entry, string> {
    data[AccessKeyID := creds.accessKey][AccessSecretKey := creds.secretKey]
        [BucketName := creds.bucket][Endpoint := creds.endpoint]
  }

  function FailureReason(op: Operation): Reason {
    match op
    case CreateBucket => CreateBucketFailed
    case GrantAccess => GrantAccessFailed
    case _ => ConfigureBucketFailed
  }

  /* The call a thread is about to issue */

  function Request(k: Key, t: Thread): Call
    requires !t.pc.Finished?
  {
    match t.pc
    case Fetch => GetClaim(k)
    case AddFinalizer => UpdateClaim(k, t.claim.(finalizers := t.claim.finalizers + {ClaimFinalizer}))
    case FetchClass => GetClass(t.claim.spec.className)
    case Resolve => ResolveProvider(t.bc)
    case NoteFetch(_, _) => GetClaim(k)
    case NoteWrite(note, _, seen) => PutClaimStatus(k, Noted(seen, note))
    case ReadKeys => GetSecret(CredentialsKey(k))
    case Provision(call, _) => call
    case FetchSecret => GetSecret(CredentialsKey(k))
    case StoreSecret(secret, create) =>
      if create then CreateSecret(CredentialsKey(k), secret) else UpdateSecret(CredentialsKey(k), secret)
    case Refetch => GetClaim(k)
    case StoreStatus(seen) => PutClaimStatus(k, BoundTo(seen, k, t.creds))
    case FetchCosi => GetCosi(TrimSpace(t.creds.bucket))
    case StoreCosi(bucket, create) =>
      if create then CreateCosi(TrimSpace(t.creds.bucket), bucket) else PutCosiStatus(TrimSpace(t.creds.bucket), bucket)
    case FinalClass => GetClass(t.claim.spec.className)
    case FinalResolve => ResolveProvider(t.bc)
    case FinalSecret => GetSecret(if t.claim.status.secretReference.Some? then t.claim.status.secretReference.value
                                  else k)
    case Revoke(call, _) => call
    case Delete(call, _) => call
    case DropFinalizer => UpdateClaim(k, t.claim.(finalizers := t.claim.finalizers - {ClaimFinalizer}))
  }

  /* What a reply makes of a thread */

  function Finish(t: Thread, r: Result): Thread { t.(pc := Finished(r)) }

  function WithNote(t: Thread, note: Note, after: After): Thread { t.(pc := NoteFetch(note, after)) }

  function GotClaim(t: Thread): Thread {
    if t.claim.deleting then
      if ClaimFinalizer in t.claim.finalizers then t.(pc := FinalClass) else Finish(t, Success)
    else if ClaimFinalizer !in t.claim.finalizers then t.(pc := AddFinalizer)
    else Admit(t)
  }

  // Bound at its current generation.
  predicate UpToDate(c: Claim) { IsBound(c.status) && c.status.ready.value.observedGeneration == c.generation }

  // The fast path: nothing to do for a claim that is up to date.
  function Admit(t: Thread): Thread {
    if UpToDate(t.claim) then Finish(t, Success) else t.(pc := FetchClass)
  }

  function GotClass(t: Thread, r: Reply): Thread {
    match r
    case ClassIs(bc) =>
      var t := t.(bc := bc);
      if !Handled(bc) then WithNote(t, NotReady(UnsupportedDriver), Stop(Success)) else t.(pc := Resolve)
    case NotFound => WithNote(t, PROVISIONING, Stop(Requeue(10)))
    case _ => WithNote(t, NotReady(BucketClassLookupFailed), Stop(Errored))
  }

  function GotProvider(t: Thread, r: Reply): Thread {
    match r
    case Resolved => if IsBound(t.claim.status) then t.(pc := ReadKeys) else WithNote(t, PROVISIONING, Proceed)
    case Unresolved(Missing) => WithNote(t, PROVISIONING, Stop(Requeue(10)))
    case Unresolved(Unsupported) => WithNote(t, NotReady(UnsupportedBackend), Stop(Success))
    case Unresolved(AwsCredentials) => WithNote(t, NotReady(AwsCredentialSecretInvalid), Stop(Success))
    case Unresolved(NotImplemented) => WithNote(t, NotReady(UnsupportedBackend), Stop(Success))
    case _ => WithNote(t, NotReady(MinioCredentialSecretInvalid), Stop(Errored))
  }

  function Continue(t: Thread, after: After): Thread {
    if after.Proceed? then t.(pc := ReadKeys) else Finish(t, after.result)
  }

  // mergeClaimStatus: no note on a claim that is gone, going or bound.
  function GotNoted(t: Thread, note: Note, after: After, r: Reply): Thread {
    if r.ClaimIs? && !r.claim.deleting && !IsBound(r.claim.status) then t.(pc := NoteWrite(note, after, r.claim))
    else Continue(t, after)
  }

  // The keys to ask for: those in the credentials Secret if it could be read, else the account's own.
  function ChosenCreds(cfg: Config, k: Key, c: Claim, bc: BucketClass, data: map<Entry, string>): Creds {
    Creds(EffectiveBucketName(k, c.spec, bc),
          KeyOr(TrimSpace(Lookup(data, AccessKeyID)), Joined(k)),
          SecretOr(cfg.digest, TrimSpace(Lookup(data, AccessSecretKey)), Joined(k)),
          cfg.endpoint)
  }

  function ProvisionScript(k: Key, c: Claim, bc: BucketClass, creds: Creds): Script {
    if UsesMinio(bc) then
      BucketScript(creds.bucket, c.spec, bc,
                   GrantScript(creds.bucket, Joined(k), c.spec.accessType, creds.accessKey, creds.secretKey))
    else Then(ForeignGrant, End)
  }

  // The next call of provisioning, or what follows its last one.
  function Provide(cfg: Config, t: Thread, todo: Script): Thread {
    match todo
    case Then(call, rest) => t.(pc := Provision(call, rest))
    case End => GotAccess(cfg, t.(creds := TrimmedCreds(t.creds)))
  }

  function GotKeys(cfg: Config, k: Key, t: Thread, r: Reply): Thread {
    var creds := ChosenCreds(cfg, k, t.claim, t.bc, if r.SecretIs? then r.secret.data else map[]);
    Provide(cfg, t.(creds := creds), ProvisionScript(k, t.claim, t.bc, creds))
  }

  function ProvisionFails(cfg: Config, t: Thread, op: Operation, err: Err): Thread {
    if cfg.isTransient(Err.Provisioning(op, t.creds.bucket, err)) then WithNote(t, PROVISIONING, Stop(Requeue(15)))
    else WithNote(t, NotReady(FailureReason(op)), Stop(Errored))
  }

  function Provisioned(cfg: Config, t: Thread, call: BackendCall, rest: Script, r: Reply): Thread {
    var t := if r.Granted? then t.(creds := Creds(t.creds.bucket, r.accessKey, r.secretKey, r.endpoint)) else t;
    match Advance(call, rest, r)
    case Fails(op, err) => ProvisionFails(cfg, t, op, err)
    case Goes(todo) => Provide(cfg, t, todo)
  }

  // Incomplete credentials must not pass for success.
  function GotAccess(cfg: Config, t: Thread): Thread {
    if Complete(t.creds) then t.(pc := FetchSecret) else ProvisionFails(cfg, t, GrantAccess, Incomplete())
  }

  // controllerutil.CreateOrUpdate with SetControllerReference, which refuses another owner's Secret.
  function GotSecret(t: Thread, r: Reply): Thread {
    match r
    case NotFound => t.(pc := StoreSecret(Secret(0, Some(t.claim.uid), CredentialData(t.creds, map[])), true))
    case SecretIs(s) =>
      if s.owner.Some? && s.owner.value != t.claim.uid then WithNote(t, NotReady(ReconcileSecretFailed), Stop(Errored))
      else t.(pc := StoreSecret(s.(owner := Some(t.claim.uid), data := CredentialData(t.creds, s.data)), false))
    case _ => WithNote(t, NotReady(ReconcileSecretFailed), Stop(Errored))
  }

  function StoredSecret(t: Thread, r: Reply): Thread {
    if r.SecretIs? then t.(pc := Refetch) else WithNote(t, NotReady(ReconcileSecretFailed), Stop(Errored))
  }

  function StoredStatus(cfg: Config, t: Thread, r: Reply): Thread {
    if !r.ClaimIs? then Finish(t, Errored)
    else if cfg.enableCosi && TrimSpace(t.creds.bucket) != "" then t.(pc := FetchCosi)
    else Finish(t, Success)
  }

  // ensureCosiBucket
  function GotCosi(t: Thread, r: Reply): Thread {
    match r
    case NotFound => t.(pc := StoreCosi(CosiBucket(0, t.bc.deletionPolicy, true, TrimSpace(t.creds.bucket)), true))
    case CosiIs(b) => t.(pc := StoreCosi(b.(bucketReady := true, bucketID := TrimSpace(t.creds.bucket)), false))
    case _ => Finish(t, Errored)
  }

  /* Finalization */

  function GotFinalClass(t: Thread, r: Reply): Thread {
    match r
    case ClassIs(bc) => t.(bc := bc, pc := FinalResolve)
    case NotFound => t.(pc := DropFinalizer)
    case _ => Finish(t, Errored)
  }

  function GotFinalProvider(k: Key, t: Thread, r: Reply): Thread {
    match r
    case Resolved => if t.claim.status.secretReference.Some? then t.(pc := FinalSecret) else BeginRevoke(k, t, "")
    case Unresolved(why) =>
      if why.Unsupported? || why.AwsCredentials? || why.NotImplemented? then t.(pc := DropFinalizer)
      else Finish(t, Errored)
    case _ => Finish(t, Errored)
  }

  function BeginRevoke(k: Key, t: Thread, accessKey: string): Thread {
    var bucket := FinalBucketName(k, t.claim);
    Withdraw(t.(creds := Creds(bucket, KeyOr(accessKey, Joined(k)), "", "")),
             if UsesMinio(t.bc) then RevokeScript(bucket, Joined(k), accessKey) else Then(ForeignRevoke, End))
  }

  // The next call of the revocation, or what follows its last one.
  function Withdraw(t: Thread, todo: Script): Thread {
    match todo
    case Then(call, rest) => t.(pc := Revoke(call, rest))
    case End => if Deletes(t.bc.deletionPolicy) then Destroy(t, Destruction(t)) else t.(pc := DropFinalizer)
  }

  // A failed revocation is logged, and finalization goes on.
  function Revoked(t: Thread, call: BackendCall, rest: Script, r: Reply): Thread {
    var p := Advance(call, rest, r);
    Withdraw(t, if p.Goes? then p.todo else End)
  }

  function Destruction(t: Thread): Script {
    if UsesMinio(t.bc) then DeleteScript(t.creds.bucket) else Then(ForeignDelete, End)
  }

  function Destroy(t: Thread, todo: Script): Thread {
    match todo
    case Then(call, rest) => t.(pc := Delete(call, rest))
    case End => t.(pc := DropFinalizer)
  }

  function Deleted(t: Thread, call: BackendCall, rest: Script, r: Reply): Thread {
    match Advance(call, rest, r)
    case Fails(_, _) => Finish(t, Errored)
    case Goes(todo) => Destroy(t, todo)
  }

  /* The transition of a thread */

  function ResumeAdmission(cfg: Config, k: Key, t: Thread, r: Reply): Thread {
    match t.pc
    case Fetch => if r.ClaimIs? then GotClaim(t.(claim := r.claim))
                  else Finish(t, if r.NotFound? then Success else Errored)
    case AddFinalizer => if r.ClaimIs? then Admit(t.(claim := r.claim)) else Finish(t, Errored)
    case FetchClass => GotClass(t, r)
    case Resolve => GotProvider(t, r)
    case NoteFetch(note, after) => GotNoted(t, note, after, r)
    case NoteWrite(_, after, _) => Continue(t, after)
    case _ => GotKeys(cfg, k, t, r)
  }

  function ResumeProvision(cfg: Config, t: Thread, r: Reply): Thread {
    match t.pc
    case Provision(call, rest) => Provisioned(cfg, t, call, rest, r)
    case FetchSecret => GotSecret(t, r)
    case StoreSecret(_, _) => StoredSecret(t, r)
    case Refetch => if r.ClaimIs? then t.(pc := StoreStatus(r.claim)) else Finish(t, Errored)
    case StoreStatus(_) => StoredStatus(cfg, t, r)
    case FetchCosi => GotCosi(t, r)
    case _ => Finish(t, if r.CosiIs? then Success else Errored)
  }

  function ResumeFinal(k: Key, t: Thread, r: Reply): Thread {
    match t.pc
    case FinalClass => GotFinalClass(t, r)
    case FinalResolve => GotFinalProvider(k, t, r)
    case FinalSecret => BeginRevoke(k, t, if r.SecretIs? then TrimSpace(Lookup(r.secret.data, AccessKeyID)) else "")
    case Revoke(call, rest) => Revoked(t, call, rest, r)
    case Delete(call, rest) => Deleted(t, call, rest, r)
    case _ => Finish(t, if r.ClaimIs? then Success else Errored)
  }

  predicate Admitting(pc: Pc) {
    pc.Fetch? || pc.AddFinalizer? || pc.FetchClass? || pc.Resolve? || pc.NoteFetch? || pc.NoteWrite? || pc.ReadKeys?
  }

  predicate Serving(pc: Pc) {
    pc.Provision? || pc.FetchSecret? || pc.StoreSecret? || pc.Refetch? || pc.StoreStatus? || pc.FetchCosi?
      || pc.StoreCosi?
  }

  predicate Finalizing(pc: Pc) {
    pc.FinalClass? || pc.FinalResolve? || pc.FinalSecret? || pc.Revoke? || pc.Delete? || pc.DropFinalizer?
  }

  function Resume(cfg: Config, k: Key, t: Thread, r: Reply): Thread {
    if Admitting(t.pc) then ResumeAdmission(cfg, k, t, r)
    else if Serving(t.pc) then ResumeProvision(cfg, t, r)
    else if Finalizing(t.pc) then ResumeFinal(k, t, r)
    else t
  }

  function Step(cfg: Config, k: Key, w: World, t: Thread, c: Choice): (World, Thread)
    requires !t.pc.Finished?
  {
    var (w', r) := Serve(w, Request(k, t), c);
    (w', Resume(cfg, k, t, r))
  }

  // How far a thread still is from its end, by stages, and within a script by its length.
  function Stage(pc: Pc): nat {
    match pc
    case Fetch => 20
    case AddFinalizer => 19
    case FetchClass => 18
    case Resolve => 17
    case NoteFetch(_, after) => if after.Proceed? then 16 else 2
    case NoteWrite(_, after, _) => if after.Proceed? then 15 else 1
    case ReadKeys => 14
    case Provision(_, _) => 13
    case FetchSecret => 12
    case StoreSecret(_, _) => 11
    case Refetch => 10
    case StoreStatus(_) => 9
    case FetchCosi => 8
    case StoreCosi(_, _) => 7
    case FinalClass => 9
    case FinalResolve => 8
    case FinalSecret => 7
    case Revoke(_, _) => 6
    case Delete(_, _) => 5
    case DropFinalizer => 4
    case Finished(_) => 0
  }

  function Left(pc: Pc): nat {
    match pc
    case Provision(_, rest) => 1 + Size(rest)
    case Revoke(_, rest) => 1 + Size(rest)
    case Delete(_, rest) => 1 + Size(rest)
    case _ => 0
  }

  predicate Nearer(a: Pc, b: Pc) { Stage(a) < Stage(b) || (Stage(a) == Stage(b) && Left(a) < Left(b)) }

  lemma AdmissionProgresses(cfg: Config, k: Key, t: Thread, r: Reply)
    requires Admitting(t.pc)
    ensures Nearer(ResumeAdmission(cfg, k, t, r).pc, t.pc)
  {
    hide GotKeys, GotClass, GotProvider, UpToDate;
    KeysAreNearer(cfg, k, t, r);
    ReportsAreNearer(t, r);
  }

  lemma KeysAreNearer(cfg: Config, k: Key, t: Thread, r: Reply)
    ensures Stage(GotKeys(cfg, k, t, r).pc) <= 13
  {
    hide ChosenCreds, ProvisionScript, TrimmedCreds, Complete, Incomplete;
  }

  lemma ReportsAreNearer(t: Thread, r: Reply)
    ensures Stage(GotClass(t, r).pc) <= 17
    ensures Stage(GotProvider(t, r).pc) <= 16
  {
    hide IsBound, Handled;
  }

  lemma ProvisionProgresses(cfg: Config, t: Thread, r: Reply)
    requires Serving(t.pc)
    ensures Nearer(ResumeProvision(cfg, t, r).pc, t.pc)
  {
    hide Advance, TrimmedCreds, Incomplete, CredentialData;
    if t.pc.Provision? { AdvanceShortens(t.pc.call, t.pc.rest, r); }
  }

  lemma FinalProgresses(k: Key, t: Thread, r: Reply)
    requires Finalizing(t.pc)
    ensures Nearer(ResumeFinal(k, t, r).pc, t.pc)
  {
    hide Advance, BeginRevoke, Revoked, Deleted, TrimSpace, Lookup;
    if t.pc.FinalResolve? { RevocationIsNearer(k, t, ""); }
    if t.pc.FinalSecret? {
      RevocationIsNearer(k, t, if r.SecretIs? then TrimSpace(Lookup(r.secret.data, AccessKeyID)) else "");
    }
    if t.pc.Revoke? { RevokedIsNearer(t, t.pc.call, t.pc.rest, r); }
    if t.pc.Delete? { DeletedIsNearer(t, t.pc.call, t.pc.rest, r); }
  }

  lemma RevocationIsNearer(k: Key, t: Thread, accessKey: string)
    ensures Stage(BeginRevoke(k, t, accessKey).pc) <= 6
  {
    hide RevokeScript, DeleteScript, FinalBucketName, KeyOr, UsesMinio, Joined, Deletes;
  }

  lemma RevokedIsNearer(t: Thread, call: BackendCall, rest: Script, r: Reply)
    requires t.pc == Revoke(call, rest)
    ensures Nearer(Revoked(t, call, rest, r).pc, t.pc)
  {
    hide Advance, DeleteScript, UsesMinio, Deletes;
    AdvanceShortens(call, rest, r);
  }

  lemma DeletedIsNearer(t: Thread, call: BackendCall, rest: Script, r: Reply)
    requires t.pc == Delete(call, rest)
    ensures Nearer(Deleted(t, call, rest, r).pc, t.pc)
  {
    hide Advance;
    AdvanceShortens(call, rest, r);
  }

  lemma Progresses(cfg: Config, k: Key, t: Thread, r: Reply)
    requires !t.pc.Finished?
    ensures Nearer(Resume(cfg, k, t, r).pc, t.pc)
  {
    hide ResumeAdmission, ResumeProvision, ResumeFinal;
    if Admitting(t.pc) { AdmissionProgresses(cfg, k, t, r); }
    else if Serving(t.pc) { ProvisionProgresses(cfg, t, r); }
    else { FinalProgresses(k, t, r); }
  }

  datatype Outcome = Outcome(world: World, result: Result, calls: nat)

  /** An activation running to its end with nobody else in between. `plan(n)` decides about the n-th call; a
      process that dies is a plan that loses every request from some call on. */
  function RunAlone(cfg: Config, k: Key, w: World, t: Thread, plan: nat -> Choice, n: nat): Outcome
    decreases Stage(t.pc), Left(t.pc)
  {
    if t.pc.Finished? then Outcome(w, t.pc.result, n)
    else
      var (w', r) := Serve(w, Request(k, t), plan(n));
      Progresses(cfg, k, t, r);
      RunAlone(cfg, k, w', Resume(cfg, k, t, r), plan, n + 1)
  }

  lemma OneStep(cfg: Config, k: Key, w: World, t: Thread, plan: nat -> Choice, n: nat)
    requires !t.pc.Finished?
    ensures var (w', r) := Serve(w, Request(k, t), plan(n));
            RunAlone(cfg, k, w, t, plan, n) == RunAlone(cfg, k, w', Resume(cfg, k, t, r), plan, n + 1)
  {
    hide Serve, Request, Resume;
  }

  lemma AtTheEnd(cfg: Config, k: Key, w: World, t: Thread, plan: nat -> Choice, n: nat)
    requires t.pc.Finished?
    ensures RunAlone(cfg, k, w, t, plan, n) == Outcome(w, t.pc.result, n)
  {
  }
}
