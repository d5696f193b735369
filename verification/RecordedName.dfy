/** The bucket name that a claim's status records: with a fixed effective name there is only one, and it is never
    taken back. */
module RecordedName {
  import opened Text
  import opened Kube
  import opened Cluster
  import opened Frames
  import opened Provisioning
  import opened ClaimFlow
  import opened ClaimInvariant
  import opened ClaimRuns
  import opened System
  import C = ClaimMachine

  // The status names `b` or nothing.
  ghost predicate OneName(api: Api, k: Key, b: string) {
    k in api.claims ==> api.claims[k].status.bucketName == "" || api.claims[k].status.bucketName == b
  }

  predicate ServesName(t: C.Thread, b: string) { C.Serving(t.pc) ==> t.creds.bucket == b }

  // This claim, if it is still there, shows the name `b`.
  ghost predicate Shows(api: Api, k: Key, uid: nat, b: string) {
    uid < api.uids && (k in api.claims && api.claims[k].uid == uid ==> api.claims[k].status.bucketName == b)
  }

  ghost predicate NameFine(api: Api, k: Key, t: C.Thread, b: string) { OneName(api, k, b) && ServesName(t, b) }

  // The claim's effective bucket name when its thread begins to provision.
  predicate EffectiveNameIs(k: Key, b: string, t: C.Thread) {
    t.pc.ReadKeys? ==> EffectiveBucketName(k, t.claim.spec, t.bc) == b
  }

  lemma ServesNameNext(cfg: Config, k: Key, b: string, t: C.Thread, r: Reply, next: C.Thread)
    requires ServesName(t, b) && EffectiveNameIs(k, b, t) && Arrival(cfg, k, t, r, next)
    ensures ServesName(next, b)
  {
    hide Advance, C.ProvisionScript, EffectiveBucketName, KeyOr, SecretOr, Lookup, TrimSpace, Joined, Begins,
         C.Destruction, C.CredentialData, Complete, C.UpToDate;
  }

  lemma NameWritten(k: Key, b: string, api: Api, t: C.Thread)
    requires !t.pc.Finished? && WritesClaim(C.Request(k, t)) && OneName(api, k, b) && ServesName(t, b)
    requires Knows(api, k, t)
    ensures OneName(ServeClaims(api, C.Request(k, t)).0, k, b)
  {
    hide CredentialsKey, WriteClaim, WriteClaimStatus;
    WrittenStatus(api, k, C.Request(k, t).claim);
  }

  lemma OwnName(cfg: Config, k: Key, b: string, w: World, t: C.Thread, c: Choice)
    requires !t.pc.Finished? && NameFine(w.api, k, t, b) && Knows(w.api, k, t) && EffectiveNameIs(k, b, t)
    ensures var (w', r) := Serve(w, C.Request(k, t), c); NameFine(w'.api, k, C.Resume(cfg, k, t, r), b)
  {
    hide Serve, Perform, C.Request, C.Resume, ServeClaims, Knows, ServesName, EffectiveNameIs, Arrival;
    var (w', r) := Serve(w, C.Request(k, t), c);
    Arrives(cfg, k, t, r);
    ServesNameNext(cfg, k, b, t, r, C.Resume(cfg, k, t, r));
    Frame(w, C.Request(k, t), c);
    ServeWorld(w, C.Request(k, t), c);
    Performs(w, C.Request(k, t), c);
    if WritesClaim(C.Request(k, t)) { NameWritten(k, b, w.api, t); }
    else if OnClaims(C.Request(k, t)) { ReadsChangeNothing(w.api, C.Request(k, t)); }
  }

  lemma OneNameStable(a: Api, b: Api, k: Key, name: string)
    requires OneName(a, k, name) && Evolves(a, b, k) && Undisturbed(a, b, k)
    ensures OneName(b, k, name)
  {
  }

  // A name once shown stays shown, by the same claim.
  lemma ShowsStable(a: Api, b: Api, k: Key, uid: nat, name: string)
    requires Shows(a, k, uid, name) && name != "" && Evolves(a, b, k) && Latched(a, b, k) && OneName(b, k, name)
    ensures Shows(b, k, uid, name)
  {
  }

  lemma NameStep(cfg: Config, s: System, a: Action, k: Key, b: string)
    requires ClaimFine(s, k) && NameFine(s.world.api, k, ClaimThread(s, k), b)
    requires EffectiveNameIs(k, b, ClaimThread(s, k))
    ensures var s' := Apply(cfg, s, a); NameFine(s'.world.api, k, ClaimThread(s', k), b)
  {
    hide Apply, ClaimThread, Issued, NextWorld, Knows, Sane, Evolves, Undisturbed, OneName, EffectiveNameIs, Truthful,
         Serve, C.Request, C.Resume;
    WorldOf(cfg, s, a);
    ThreadOf(cfg, s, a, k);
    if a.StepClaim? && a.key == k && Issued(s, a).Some? {
      OwnTurnIs(s, a);
      OwnName(cfg, k, b, s.world, ClaimThread(s, k), a.choice);
    } else {
      StepDisturbs(s, a, k);
      NoTurn(s, a, k);
      OneNameStable(s.world.api, NextWorld(s, a).api, k, b);
    }
  }

  // What a step of a claim's own thread does.
  lemma OwnTurnIs(s: System, a: Action)
    requires a.StepClaim? && Issued(s, a).Some?
    ensures var t := ClaimThread(s, a.key);
            && !t.pc.Finished?
            && NextWorld(s, a) == Serve(s.world, C.Request(a.key, t), a.choice).0
            && ReplyTo(s, a) == Serve(s.world, C.Request(a.key, t), a.choice).1
  {
    hide C.Request, Serve;
  }

  /* The copy of the claim that is finalized */

  // A thread that finalizes has read a claim that names `b` or nothing.
  predicate FinalCopyNames(t: C.Thread, b: string) {
    C.Finalizing(t.pc) ==> t.claim.status.bucketName == "" || t.claim.status.bucketName == b
  }

  lemma FinalCopyNext(cfg: Config, k: Key, b: string, w: World, t: C.Thread, c: Choice)
    requires !t.pc.Finished? && OneName(w.api, k, b) && FinalCopyNames(t, b)
    ensures var (w', r) := Serve(w, C.Request(k, t), c); FinalCopyNames(C.Resume(cfg, k, t, r), b)
  {
    hide Serve, Perform, C.Request, C.Resume, ServeClaims, Advance, Begins, C.Destruction, C.ProvisionScript,
         StartingCreds, TrimmedCreds, Complete, C.CredentialData, C.UpToDate, Handled, Deletes;
    var (w', r) := Serve(w, C.Request(k, t), c);
    Arrives(cfg, k, t, r);
    ServeReply(w, C.Request(k, t), c);
    if t.pc.Fetch? {
      FirstRead(k, t);
      Performs(w, C.Request(k, t), c);
      ReadsChangeNothing(w.api, C.Request(k, t));
    }
  }

  lemma FirstRead(k: Key, t: C.Thread)
    requires t.pc.Fetch?
    ensures C.Request(k, t) == GetClaim(k)
  {
  }

  lemma FinalCopyStep(cfg: Config, s: System, a: Action, k: Key, b: string)
    requires OneName(s.world.api, k, b) && FinalCopyNames(ClaimThread(s, k), b)
    ensures FinalCopyNames(ClaimThread(Apply(cfg, s, a), k), b)
  {
    hide Apply, ClaimThread, Issued, NextWorld, OneName, Serve, C.Request, C.Resume;
    ThreadOf(cfg, s, a, k);
    if a.StepClaim? && a.key == k && Issued(s, a).Some? {
      OwnTurnIs(s, a);
      FinalCopyNext(cfg, k, b, s.world, ClaimThread(s, k), a.choice);
    }
  }
}
