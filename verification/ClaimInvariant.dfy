/** What holds of the stored claims and of the threads working on them in every reachable state. */
module ClaimInvariant {
  import opened Text
  import opened Kube
  import opened Cluster
  import opened Frames
  import opened Provisioning
  import opened ClaimMachine
  import opened ClaimFlow
  import opened System

  /* How the store may change from one moment to the next */

  ghost predicate SameOrLater(a: Api, b: Api, c: Claim, d: Claim) {
    || d == c
    || (&& a.version < d.resourceVersion <= b.version
        && c.generation <= d.generation
        && (c.generation == d.generation ==> c.spec == d.spec)
        && (c.deleting ==> d.deleting))
  }

  ghost predicate NewBorn(a: Api, b: Api, d: Claim) {
    && a.uids <= d.uid < b.uids && a.version < d.resourceVersion <= b.version
    && d.status == EMPTY_STATUS && d.finalizers == {}
  }

  ghost predicate Evolves(a: Api, b: Api, k: Key) {
    && a.version <= b.version && a.uids <= b.uids
    && (k in b.claims ==>
          var d := b.claims[k];
          if k in a.claims && a.claims[k].uid == d.uid then SameOrLater(a, b, a.claims[k], d) else NewBorn(a, b, d))
  }

  // What everybody but the claim's own thread leaves alone: its status, and the operator's finalizer.
  ghost predicate Undisturbed(a: Api, b: Api, k: Key) {
    && (k in a.claims && ClaimFinalizer in a.claims[k].finalizers ==>
          k in b.claims && a.claims[k].uid == b.claims[k].uid && ClaimFinalizer in b.claims[k].finalizers)
    && (k in a.claims && k in b.claims && a.claims[k].uid == b.claims[k].uid ==>
          a.claims[k].status == b.claims[k].status)
  }

  ghost predicate Sound(api: Api, k: Key) {
    k in api.claims ==>
      var c := api.claims[k];
      c.resourceVersion <= api.version && c.uid < api.uids
  }

  ghost predicate Truthful(api: Api, k: Key) {
    k in api.claims ==>
      var c := api.claims[k];
      Coherent(c.status) && (c.status.ready.Some? ==> c.status.ready.value.observedGeneration <= c.generation)
  }

  lemma EditEvolves(api: Api, j: Key, spec: ClaimSpec, foreign: set<string>, k: Key)
    ensures Evolves(api, Edited(api, j, spec, foreign), k) && Undisturbed(api, Edited(api, j, spec, foreign), k)
  {
    var others := set name | name in foreign :: Foreign(name);
    if j in api.claims && ClaimFinalizer in api.claims[j].finalizers {
      assert ClaimFinalizer in others + api.claims[j].finalizers * {ClaimFinalizer, AccessFinalizer};
    }
  }

  lemma OthersEvolve(api: Api, a: Action, k: Key)
    requires Sound(api, k)
    ensures Evolves(api, Others(api, a), k) && Undisturbed(api, Others(api, a), k)
  {
    hide Edited;
    if a.EditClaim? { EditEvolves(api, a.key, a.spec, a.foreign, k); }
  }

  predicate WritesClaim(call: Call) { call.UpdateClaim? || call.PutClaimStatus? }

  lemma WriteEvolves(api: Api, call: Call, k: Key)
    requires WritesClaim(call) && Sound(api, k)
    ensures Evolves(api, ServeClaims(api, call).0, k)
    ensures call.key != k ==> Undisturbed(api, ServeClaims(api, call).0, k)
  {
    hide WriteClaim, WriteClaimStatus;
    UpdateEvolves(api, call.key, call.claim, k);
    StatusEvolves(api, call.key, call.claim, k);
  }

  lemma UpdateEvolves(api: Api, j: Key, c: Claim, k: Key)
    requires Sound(api, k)
    ensures Evolves(api, WriteClaim(api, j, c).0, k) && (j != k ==> Undisturbed(api, WriteClaim(api, j, c).0, k))
  {
  }

  lemma StatusEvolves(api: Api, j: Key, c: Claim, k: Key)
    requires Sound(api, k)
    ensures Evolves(api, WriteClaimStatus(api, j, c).0, k)
    ensures j != k ==> Undisturbed(api, WriteClaimStatus(api, j, c).0, k)
  {
  }

  lemma KeepsClaims(w: World, call: Call, c: Choice)
    requires !WritesClaim(call)
    ensures var api := Perform(w, call, c).0.api;
            api.claims == w.api.claims && api.uids == w.api.uids && w.api.version <= api.version
  {
    hide Perform, ServeClaims, ServeSecrets, ServeAccesses, ServeCosi, ServeMinio, ReplyOnly;
    Performs(w, call, c);
    if OnClaims(call) { ReadsChangeNothing(w.api, call); }
    else if OnSecrets(call) { SecretsFrame(w.api, call); SecretVersionsGrow(w.api, call); }
    else if OnAccesses(call) { AccessesFrame(w.api, call); AccessVersionsGrow(w.api, call); }
    else if OnCosi(call) { CosiFrame(w.api, call); CosiVersionsGrow(w.api, call); }
    else if !OnMinio(call) { AnswersOnly(w, call, c); }
  }

  lemma AnswersOnly(w: World, call: Call, c: Choice)
    requires !OnClaims(call) && !OnSecrets(call) && !OnAccesses(call) && !OnCosi(call) && !OnMinio(call)
    ensures Perform(w, call, c).0 == w
  {
    hide ServeClaims, ServeSecrets, ServeAccesses, ServeCosi, ServeMinio, ReplyOnly;
  }

  lemma ServeEvolves(w: World, call: Call, c: Choice, k: Key)
    requires Sound(w.api, k)
    ensures Evolves(w.api, Serve(w, call, c).0.api, k)
    ensures !WritesClaim(call) || call.key != k ==> Undisturbed(w.api, Serve(w, call, c).0.api, k)
  {
    if WritesClaim(call) {
      hide ServeClaims;
      WriteEvolves(w.api, call, k);
    } else {
      hide Perform;
      KeepsClaims(w, call, c);
    }
  }

  /* What a thread knows */

  // A copy of the stored claim, possibly out of date: the version number tells, as does the generation for
  // the spec.
  ghost predicate Snapshot(api: Api, k: Key, x: Claim) {
    && x.resourceVersion <= api.version && x.uid < api.uids
    && (k in api.claims && api.claims[k].uid == x.uid ==>
          var c := api.claims[k];
          && x.generation <= c.generation
          && (x.generation == c.generation ==> x.spec == c.spec)
          && (x.deleting ==> c.deleting)
          && (x.resourceVersion == c.resourceVersion ==> x == c))
  }

  // The claim is still there and cannot go away.
  ghost predicate Held(api: Api, k: Key, x: Claim) {
    k in api.claims && api.claims[k].uid == x.uid && ClaimFinalizer in api.claims[k].finalizers
  }

  predicate Engaged(pc: Pc) { Working(pc) || Finalizing(pc) }

  ghost predicate Knows(api: Api, k: Key, t: Thread) {
    && (t.pc.AddFinalizer? || Engaged(t.pc) ==> Snapshot(api, k, t.claim))
    && (Engaged(t.pc) ==> Held(api, k, t.claim))
    && (t.pc.NoteWrite? || t.pc.StoreStatus? ==> Snapshot(api, k, t.pc.seen))
  }

  // What it knows for itself.
  predicate Sane(t: Thread) {
    && (t.pc.AddFinalizer? || Working(t.pc) ==> !t.claim.deleting)
    && (Finalizing(t.pc) ==> t.claim.deleting)
    && (t.pc.NoteWrite? ==> !t.pc.seen.deleting && !IsBound(t.pc.seen.status))
    && (t.pc.NoteFetch? || t.pc.NoteWrite? ==> t.pc.note.phase != Bound)
    && (Serving(t.pc) ==> t.creds.bucket != "")
    && (Publishing(t.pc) ==> Complete(t.creds))
  }

  lemma SnapshotStable(a: Api, b: Api, k: Key, x: Claim)
    requires Snapshot(a, k, x) && Evolves(a, b, k)
    ensures Snapshot(b, k, x)
  {
  }

  lemma KnowsStable(a: Api, b: Api, k: Key, t: Thread)
    requires Knows(a, k, t) && Evolves(a, b, k) && Undisturbed(a, b, k)
    ensures Knows(b, k, t)
  {
    hide Evolves, Snapshot;
    if t.pc.AddFinalizer? || Engaged(t.pc) { SnapshotStable(a, b, k, t.claim); }
    if t.pc.NoteWrite? || t.pc.StoreStatus? { SnapshotStable(a, b, k, t.pc.seen); }
  }

  /* A thread's own steps */

  lemma EffectiveNameNonempty(k: Key, spec: ClaimSpec, bc: BucketClass)
    ensures EffectiveBucketName(k, spec, bc) != ""
  {
    hide TrimSpace, Lookup;
    assert |Joined(k)| > 0;
  }

  // A claim in a reply is the stored one; after a finalizer was added it carries it and is not deleted.
  ghost predicate Faithful(api: Api, k: Key, t: Thread, r: Reply) {
    && (r.ClaimIs? && (t.pc.Fetch? || t.pc.NoteFetch? || t.pc.Refetch?) ==> k in api.claims && api.claims[k] == r.claim)
    && (r.ClaimIs? && t.pc.AddFinalizer? ==>
          k in api.claims && api.claims[k] == r.claim && ClaimFinalizer in r.claim.finalizers && !r.claim.deleting)
  }

  lemma StaysSane(cfg: Config, k: Key, api: Api, t: Thread, r: Reply, next: Thread)
    requires Sane(t) && Arrival(cfg, k, t, r, next) && Faithful(api, k, t, r)
    ensures Sane(next)
  {
    hide Advance, TrimSpace, ProvisionScript, CredentialData, Destruction, Begins, UpToDate, Handled,
         EffectiveBucketName, KeyOr, SecretOr, Lookup, Joined;
    EffectiveNameNonempty(k, t.claim.spec, t.bc);
  }

  lemma Learns(cfg: Config, k: Key, api: Api, t: Thread, r: Reply, next: Thread)
    requires Sound(api, k) && Knows(api, k, t) && Arrival(cfg, k, t, r, next) && Faithful(api, k, t, r)
    ensures Knows(api, k, next)
  {
    hide Advance, TrimmedCreds, Complete, ProvisionScript, CredentialData, Destruction, Begins, UpToDate, Handled,
         StartingCreds, Lookup, TrimSpace, IsBound, Deletes;
  }

  lemma OwnWrite(k: Key, api: Api, t: Thread)
    requires t.pc.AddFinalizer? || t.pc.NoteWrite? || t.pc.StoreStatus?
    requires Sound(api, k) && Knows(api, k, t) && Sane(t)
    ensures var (after, r) := ServeClaims(api, Request(k, t)); Faithful(after, k, t, r) && Knows(after, k, t)
  {
    hide BoundTo, Noted, IsBound;
  }

  lemma OwnRead(k: Key, w: World, t: Thread, c: Choice)
    requires !t.pc.Finished? && !WritesClaim(Request(k, t))
    ensures var (w', r) := Perform(w, Request(k, t), c); Faithful(w'.api, k, t, r)
  {
    hide ServeSecrets, ServeMinio, ServeAccesses, ServeCosi, ReplyOnly;
  }

  lemma OwnStep(cfg: Config, k: Key, w: World, t: Thread, c: Choice)
    requires !t.pc.Finished? && Sound(w.api, k) && Knows(w.api, k, t) && Sane(t)
    ensures var (w', r) := Serve(w, Request(k, t), c);
            Sound(w'.api, k) && Knows(w'.api, k, Resume(cfg, k, t, r)) && Sane(Resume(cfg, k, t, r))
  {
    hide Resume, Arrival, Undisturbed, ServeClaims, ServeSecrets, ServeMinio, ServeAccesses, ServeCosi, ReplyOnly;
    var (w', r) := Serve(w, Request(k, t), c);
    Arrives(cfg, k, t, r);
    ServeEvolves(w, Request(k, t), c, k);
    if t.pc.AddFinalizer? || t.pc.NoteWrite? || t.pc.StoreStatus? {
      OwnWrite(k, w.api, t);
    } else if !t.pc.DropFinalizer? {
      OwnRead(k, w, t, c);
      KnowsStable(w.api, w'.api, k, t);
    }
    if t.pc.DropFinalizer? {
      assert Resume(cfg, k, t, r).pc.Finished? by { DropEnds(cfg, k, t, r); }
    } else {
      StaysSane(cfg, k, w'.api, t, r, Resume(cfg, k, t, r));
      Learns(cfg, k, w'.api, t, r, Resume(cfg, k, t, r));
    }
  }

  lemma DropEnds(cfg: Config, k: Key, t: Thread, r: Reply)
    requires t.pc.DropFinalizer?
    ensures Resume(cfg, k, t, r).pc.Finished?
  {
    hide ResumeAdmission, ResumeProvision;
  }

  /* The status a claim shows */

  // Bound stays bound, a bucket name is never taken back, and the observed generation never falls.
  ghost predicate Latched(a: Api, b: Api, k: Key) {
    k in a.claims && k in b.claims && a.claims[k].uid == b.claims[k].uid ==>
      var x, y := a.claims[k].status, b.claims[k].status;
      && (IsBound(x) ==> IsBound(y))
      && (x.bucketName != "" ==> y.bucketName != "")
      && (x.ready.Some? ==> y.ready.Some? && x.ready.value.observedGeneration <= y.ready.value.observedGeneration)
  }

  lemma StatusStable(a: Api, b: Api, k: Key)
    requires Truthful(a, k) && Evolves(a, b, k)
    requires k in a.claims && k in b.claims && a.claims[k].uid == b.claims[k].uid ==>
               a.claims[k].status == b.claims[k].status
    ensures Truthful(b, k) && Latched(a, b, k)
  {
  }

  lemma OwnStatus(k: Key, api: Api, t: Thread)
    requires !t.pc.Finished? && WritesClaim(Request(k, t))
    requires Sound(api, k) && Truthful(api, k) && Knows(api, k, t) && Sane(t)
    ensures var after := ServeClaims(api, Request(k, t)).0; Truthful(after, k) && Latched(api, after, k)
  {
    hide CredentialsKey, WriteClaim, WriteClaimStatus, Snapshot, Held;
    var call := Request(k, t);
    if t.pc.NoteWrite? || t.pc.StoreStatus? { StatusWritten(api, k, t.pc.seen, call.claim); }
    else { MetadataWritten(api, k, call.claim); }
  }

  // A status that is written replaces the one that was read.
  lemma StatusWritten(api: Api, k: Key, seen: Claim, c: Claim)
    requires Snapshot(api, k, seen) && c == seen.(status := c.status)
    ensures var after := WriteClaimStatus(api, k, c).0;
            || after == api
            || (k in api.claims && api.claims[k] == seen && k in after.claims
                && after.claims[k] == c.(resourceVersion := after.claims[k].resourceVersion))
  {
  }

  lemma MetadataWritten(api: Api, k: Key, c: Claim)
    ensures var after := WriteClaim(api, k, c).0;
            k in after.claims ==>
              && k in api.claims && after.claims[k].status == api.claims[k].status
                 && after.claims[k].uid == api.claims[k].uid
              && api.claims[k].generation <= after.claims[k].generation
  {
  }
}
