/** Where a claim thread can have come from: its transition function read backwards. */
module ClaimFlow {
  import opened Text
  import opened Kube
  import opened Cluster
  import opened Provisioning
  import opened ClaimMachine

  // Provisioning has begun, and the claim is held by its finalizer.
  predicate Working(pc: Pc) {
    pc.FetchClass? || pc.Resolve? || pc.NoteFetch? || pc.NoteWrite? || pc.ReadKeys? || Serving(pc)
  }

  predicate Publishing(pc: Pc) { Serving(pc) && !pc.Provision? }

  predicate Admitted(t: Thread, r: Reply, next: Thread) {
    && r == ClaimIs(next.claim) && !UpToDate(next.claim)
    && (t.pc.AddFinalizer? || (t.pc.Fetch? && !next.claim.deleting && ClaimFinalizer in next.claim.finalizers))
  }

  predicate Same(t: Thread, next: Thread) { next.claim == t.claim && next.bc == t.bc }

  // The keys that provisioning would start with, given the reply about the Secret.
  function StartingCreds(cfg: Config, k: Key, t: Thread, r: Reply): Creds {
    ChosenCreds(cfg, k, t.claim, t.bc, if r.SecretIs? then r.secret.data else map[])
  }

  function GivenCreds(t: Thread, r: Reply): Creds {
    if r.Granted? then Creds(t.creds.bucket, r.accessKey, r.secretKey, r.endpoint) else t.creds
  }

  predicate Arrival(cfg: Config, k: Key, t: Thread, r: Reply, next: Thread) {
    match next.pc
    case Fetch => false
    case AddFinalizer => t.pc.Fetch? && r == ClaimIs(next.claim) && !next.claim.deleting
    case FetchClass => Admitted(t, r, next)
    case Resolve => t.pc.FetchClass? && r == ClassIs(next.bc) && Handled(next.bc) && next.claim == t.claim
    case NoteFetch(note, after) =>
      && (t.pc.FetchClass? || t.pc.Resolve? || t.pc.Provision? || t.pc.FetchSecret? || t.pc.StoreSecret?)
      && next.claim == t.claim && note.phase != Bound
      && (after.Proceed? ==> t.pc.Resolve? && Same(t, next))
    case NoteWrite(note, after, seen) =>
      t.pc == NoteFetch(note, after) && r == ClaimIs(seen) && !seen.deleting && !IsBound(seen.status) && Same(t, next)
    case ReadKeys => (t.pc.Resolve? || (t.pc.NoteFetch? && t.pc.after.Proceed?)
                      || (t.pc.NoteWrite? && t.pc.after.Proceed?)) && Same(t, next)
    case Provision(call, rest) =>
      && Same(t, next)
      && (|| (&& t.pc.ReadKeys? && next.creds == StartingCreds(cfg, k, t, r)
              && Then(call, rest) == ProvisionScript(k, t.claim, t.bc, next.creds))
          || (&& t.pc.Provision? && next.creds == GivenCreds(t, r)
              && Advance(t.pc.call, t.pc.rest, r) == Goes(Then(call, rest))))
    case FetchSecret =>
      && t.pc.Provision? && Same(t, next) && next.creds == TrimmedCreds(GivenCreds(t, r)) && Complete(next.creds)
      && Advance(t.pc.call, t.pc.rest, r) == Goes(End)
    case StoreSecret(secret, create) =>
      && t.pc.FetchSecret? && Same(t, next) && next.creds == t.creds
      && (if create then r.NotFound? && secret == Secret(0, Some(t.claim.uid), CredentialData(t.creds, map[]))
          else && r.SecretIs?
               && secret == r.secret.(owner := Some(t.claim.uid), data := CredentialData(t.creds, r.secret.data))
               && (r.secret.owner.Some? ==> r.secret.owner.value == t.claim.uid))
    case Refetch => t.pc.StoreSecret? && r.SecretIs? && Same(t, next) && next.creds == t.creds
    case StoreStatus(seen) => t.pc.Refetch? && r == ClaimIs(seen) && Same(t, next) && next.creds == t.creds
    case FetchCosi => t.pc.StoreStatus? && r.ClaimIs? && Same(t, next) && next.creds == t.creds
    case StoreCosi(bucket, create) =>
      && t.pc.FetchCosi? && Same(t, next) && next.creds == t.creds
      && (create ==> bucket == CosiBucket(0, t.bc.deletionPolicy, true, TrimSpace(t.creds.bucket)))
    case FinalClass => t.pc.Fetch? && r == ClaimIs(next.claim) && next.claim.deleting
      && ClaimFinalizer in next.claim.finalizers
    case FinalResolve => t.pc.FinalClass? && r == ClassIs(next.bc) && next.claim == t.claim
    case FinalSecret => t.pc.FinalResolve? && r.Resolved? && Same(t, next) && t.claim.status.secretReference.Some?
    case Revoke(call, rest) =>
      && Same(t, next)
      && (|| (t.pc.Revoke? && next.creds == t.creds && Advance(t.pc.call, t.pc.rest, r) == Goes(Then(call, rest)))
          || (t.pc.FinalResolve? && r.Resolved? && t.claim.status.secretReference.None? && Begins(k, t, "", next))
          || (t.pc.FinalSecret?
              && Begins(k, t, if r.SecretIs? then TrimSpace(Lookup(r.secret.data, AccessKeyID)) else "", next)))
    case Delete(call, rest) =>
      && Same(t, next) && next.creds == t.creds
      && (|| (&& t.pc.Revoke? && Deletes(t.bc.deletionPolicy) && Then(call, rest) == Destruction(t)
              && (Advance(t.pc.call, t.pc.rest, r).Fails? || Advance(t.pc.call, t.pc.rest, r) == Goes(End)))
          || (t.pc.Delete? && Advance(t.pc.call, t.pc.rest, r) == Goes(Then(call, rest))))
    case DropFinalizer =>
      && next.claim == t.claim
      && (|| (t.pc.FinalClass? && r.NotFound?)
          || (t.pc.FinalResolve? && r.Unresolved?
              && (r.why.Unsupported? || r.why.AwsCredentials? || r.why.NotImplemented?))
          || (&& t.pc.Revoke? && Same(t, next) && !Deletes(t.bc.deletionPolicy)
              && (Advance(t.pc.call, t.pc.rest, r).Fails? || Advance(t.pc.call, t.pc.rest, r) == Goes(End)))
          || (t.pc.Delete? && Same(t, next) && Advance(t.pc.call, t.pc.rest, r) == Goes(End)))
    case Finished(_) => true
  }

  // A revocation starts with the keys found, on the name that finalization works with.
  predicate Begins(k: Key, t: Thread, accessKey: string, next: Thread)
    requires next.pc.Revoke?
  {
    var bucket := FinalBucketName(k, t.claim);
    && next.creds == Creds(bucket, KeyOr(accessKey, Joined(k)), "", "")
    && Then(next.pc.call, next.pc.rest)
       == if UsesMinio(t.bc) then RevokeScript(bucket, Joined(k), accessKey) else Then(ForeignRevoke, End)
  }

  lemma AdmissionArrives(cfg: Config, k: Key, t: Thread, r: Reply)
    requires Admitting(t.pc)
    ensures Arrival(cfg, k, t, r, ResumeAdmission(cfg, k, t, r))
  {
    hide GotKeys, UpToDate, IsBound;
    if t.pc.ReadKeys? { KeysArrive(cfg, k, t, r); }
    else if t.pc.Resolve? { ProviderArrives(cfg, k, t, r); }
  }

  lemma ProviderArrives(cfg: Config, k: Key, t: Thread, r: Reply)
    requires t.pc.Resolve?
    ensures Arrival(cfg, k, t, r, GotProvider(t, r))
  {
    hide IsBound;
  }

  lemma KeysArrive(cfg: Config, k: Key, t: Thread, r: Reply)
    requires t.pc.ReadKeys?
    ensures Arrival(cfg, k, t, r, GotKeys(cfg, k, t, r))
  {
    var creds := StartingCreds(cfg, k, t, r);
    ScriptStarts(k, t.claim, t.bc, creds);
    hide ProvisionScript, ChosenCreds;
  }

  lemma ScriptStarts(k: Key, c: Claim, bc: BucketClass, creds: Creds)
    ensures ProvisionScript(k, c, bc, creds).Then?
  {
    hide UsesMinio, Region, Rules, QuotaScript, GrantScript;
  }

  lemma ProvisionArrives(cfg: Config, k: Key, t: Thread, r: Reply)
    requires Serving(t.pc)
    ensures Arrival(cfg, k, t, r, ResumeProvision(cfg, t, r))
  {
    hide Provisioned, CredentialData, TrimSpace;
    if t.pc.Provision? { CallArrives(cfg, k, t, r); }
  }

  lemma CallArrives(cfg: Config, k: Key, t: Thread, r: Reply)
    requires t.pc.Provision?
    ensures Arrival(cfg, k, t, r, Provisioned(cfg, t, t.pc.call, t.pc.rest, r))
  {
    hide Advance, TrimmedCreds, Complete, ChosenCreds, Incomplete, ProvisionScript;
  }

  lemma FinalArrives(cfg: Config, k: Key, t: Thread, r: Reply)
    requires Finalizing(t.pc)
    ensures Arrival(cfg, k, t, r, ResumeFinal(k, t, r))
  {
    hide Advance, FinalBucketName, KeyOr, UsesMinio, Joined, TrimSpace, Lookup, Revoked, Deleted;
    if t.pc.Revoke? || t.pc.Delete? { TeardownArrives(cfg, k, t, r); }
  }

  lemma TeardownArrives(cfg: Config, k: Key, t: Thread, r: Reply)
    requires t.pc.Revoke? || t.pc.Delete?
    ensures t.pc.Revoke? ==> Arrival(cfg, k, t, r, Revoked(t, t.pc.call, t.pc.rest, r))
    ensures t.pc.Delete? ==> Arrival(cfg, k, t, r, Deleted(t, t.pc.call, t.pc.rest, r))
  {
    hide Advance, Begins, UsesMinio, Deletes;
  }

  lemma Arrives(cfg: Config, k: Key, t: Thread, r: Reply)
    requires !t.pc.Finished?
    ensures Arrival(cfg, k, t, r, Resume(cfg, k, t, r))
  {
    hide ResumeAdmission, ResumeProvision, ResumeFinal, Arrival;
    if Admitting(t.pc) { AdmissionArrives(cfg, k, t, r); }
    else if Serving(t.pc) { ProvisionArrives(cfg, k, t, r); }
    else { FinalArrives(cfg, k, t, r); }
  }
}
