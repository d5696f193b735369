/** The two controllers agree: what is revoked when a BucketAccess goes is what was granted for it, because the
    claim controller never takes a bucket name back. */
module Agreement {
  import opened Text
  import opened Kube
  import opened Cluster
  import opened Frames
  import opened Provisioning
  import opened ClaimInvariant
  import opened ClaimRuns
  import opened RecordedName
  import opened System
  import M = Minio
  import A = AccessMachine

  /* The BucketAccess's side */

  // A BucketAccess with its references, and the bucket name its claim shows.
  datatype Party = Party(key: Key, claimName: string, secretName: string, bucket: string)

  function ClaimKeyOf(p: Party): Key { Key(p.key.namespace, p.claimName) }

  function InfoKeyOf(p: Party): Key { Key(p.key.namespace, p.secretName) }

  function OwnKey(p: Party): string { M.AccessKeyForAccount(Joined(p.key)) }

  function Granted(p: Party): string { ToLower(TrimSpace(p.bucket)) }

  function PolicyOn(p: Party, bucket: string): string { M.PolicyName(bucket, Joined(p.key)) }

  // A user or a policy asked for on behalf of a BucketAccess, and the claim it was read from.
  datatype Made = User(access: nat, claim: nat, name: string) | Policy(access: nat, claim: nat, name: string)

  function MadeBy(t: A.Thread, call: Call): set<Made> {
    match call
    case AddUser(ak, _) => {User(t.access.uid, t.claim.uid, ak)}
    case AddPolicy(policy, _) => {Policy(t.access.uid, t.claim.uid, policy)}
    case _ => {}
  }

  predicate AsksPolicy(p: Party, call: Call, rest: Script) {
    call.AddPolicy? && call.policyName == PolicyOn(p, Granted(p)) && rest.Then? && rest.call.AttachPolicy?
      && rest.rest.End?
  }

  predicate GrantsOwn(p: Party, call: Call, rest: Script) {
    || (call.AddUser? && call.accessKey == OwnKey(p) && rest.Then? && AsksPolicy(p, rest.call, rest.rest))
    || AsksPolicy(p, call, rest)
    || (call.AttachPolicy? && rest.End?)
  }

  predicate RevokesExactly(p: Party, bucket: string, call: Call, rest: Script) {
    || (call == RemoveUser(OwnKey(p)) && rest.Then? && rest.call == RemovePolicy(PolicyOn(p, bucket)) && rest.rest.End?)
    || (call == RemovePolicy(PolicyOn(p, bucket)) && rest.End?)
    || (call.ForeignRevoke? && rest.End?)
  }

  predicate Granting(pc: A.Pc) {
    pc.ReadClass? || pc.Resolve? || pc.Grant? || pc.ReadInfo? || pc.StoreInfo? || pc.StoreGranted?
  }

  predicate Revoking(pc: A.Pc) { pc.RevokeInfo? || pc.RevokeClass? || pc.RevokeResolve? || pc.Revoke? }

  // What the thread keeps in its variables.
  predicate KeepsTo(p: Party, t: A.Thread) {
    && (!t.pc.Fetch? && !t.pc.Finished? ==> t.access.claimName == p.claimName && t.access.secretName == p.secretName)
    && (Granting(t.pc) ==> t.bucket == Granted(p) && TrimSpace(p.bucket) != "")
    && (t.pc.Grant? || t.pc.ReadInfo? || t.pc.StoreInfo? || t.pc.StoreGranted? ==> t.accessKey == OwnKey(p))
    && (t.pc.Grant? ==> GrantsOwn(p, t.pc.call, t.pc.rest))
    && (t.pc.StoreInfo? ==> Lookup(t.pc.secret.data, BucketInfo) == OwnKey(p))
    && (t.pc.RevokeClass? || t.pc.RevokeResolve? || t.pc.Revoke? ==> t.accessKey == OwnKey(p))
    && (t.pc.Revoke? ==> RevokesExactly(p, t.bucket, t.pc.call, t.pc.rest))
  }

  ghost predicate InfoFine(api: Api, p: Party) {
    InfoKeyOf(p) in api.secrets ==>
      Lookup(api.secrets[InfoKeyOf(p)].data, BucketInfo) == ""
        || Lookup(api.secrets[InfoKeyOf(p)].data, BucketInfo) == OwnKey(p)
  }

  ghost predicate ObjectFine(api: Api, p: Party) {
    p.key in api.accesses ==>
      api.accesses[p.key].claimName == p.claimName && api.accesses[p.key].secretName == p.secretName
  }

  // What was made, was made under the party's names, on a claim that shows its bucket.
  ghost predicate MadeFine(api: Api, p: Party, m: Made) {
    && Shows(api, ClaimKeyOf(p), m.claim, p.bucket) && TrimSpace(p.bucket) != ""
    && m.name == (if m.User? then OwnKey(p) else PolicyOn(p, Granted(p)))
  }

  // The thread works on the names under which the same object was granted on the same claim.
  ghost predicate Agrees(p: Party, t: A.Thread, m: Made) {
    Revoking(t.pc) && m.access == t.access.uid && m.claim == t.claim.uid && m.Policy? ==>
      m.name == PolicyOn(p, t.bucket)
  }

  ghost predicate PartyFine(api: Api, p: Party, t: A.Thread, made: set<Made>) {
    && ObjectFine(api, p) && InfoFine(api, p) && KeepsTo(p, t)
    && (Granting(t.pc) ==> Shows(api, ClaimKeyOf(p), t.claim.uid, p.bucket))
    && (forall m :: m in made ==> MadeFine(api, p, m) && Agrees(p, t, m))
  }

  lemma AgreedGrantBegins(cfg: Config, p: Party, t: A.Thread)
    requires UsesMinio(t.bc) && t.bucket == Granted(p)
    ensures var next := A.BeginGrant(cfg, p.key, t);
            next == t.(accessKey := OwnKey(p), pc := next.pc) && next.pc.Grant?
              && GrantsOwn(p, next.pc.call, next.pc.rest)
  {
    hide UsesMinio, M.AccessKeyForAccount, M.SecretForAccount, M.PolicyName, EqualFold, Joined, ToLower, TrimSpace;
  }

  lemma AgreedRevokeBegins(p: Party, t: A.Thread)
    requires t.accessKey == OwnKey(p) && OwnKey(p) != ""
    ensures var next := A.Withdraw(t, if UsesMinio(t.bc) then RevokeScript(t.bucket, Joined(p.key), t.accessKey)
                                      else Then(ForeignRevoke, End));
            next == t.(pc := next.pc) && next.pc.Revoke? && RevokesExactly(p, t.bucket, next.pc.call, next.pc.rest)
  {
    hide UsesMinio, M.AccessKeyForAccount, M.PolicyName, Joined;
  }

  // Nothing but MinIO, which is what the party's class uses when a grant begins.
  predicate OnMinioNow(t: A.Thread) { t.pc.Resolve? ==> UsesMinio(t.bc) }

  // What the replies tell: stored objects, and an entry BucketInfo with the party's own key.
  ghost predicate Tells(p: Party, t: A.Thread, r: Reply) {
    && ((t.pc.Fetch? || t.pc.AddFinalizer?) && r.AccessIs? ==>
          r.access.claimName == p.claimName && r.access.secretName == p.secretName)
    && (t.pc.RevokeInfo? ==> A.KnownKey(r) == "" || A.KnownKey(r) == OwnKey(p))
    && (t.pc.Grant? ==> !r.Granted?)
  }

  lemma KeepsFirst(cfg: Config, p: Party, t: A.Thread, r: Reply)
    requires t.pc.Fetch? || t.pc.AddFinalizer? || t.pc.ReadClaim? || t.pc.ReadClass? || t.pc.Resolve?
    requires KeepsTo(p, t) && Tells(p, t, r) && OnMinioNow(t)
    requires t.pc.ReadClaim? && r.ClaimIs? && TrimSpace(r.claim.status.bucketName) != "" ==>
               r.claim.status.bucketName == p.bucket
    ensures KeepsTo(p, A.Resume(cfg, p.key, t, r))
  {
    hide A.BeginGrant, TrimSpace, ToLower, GrantsOwn, RevokesExactly, OwnKey, UsesMinio;
    if t.pc.Resolve? { AgreedGrantBegins(cfg, p, t); }
  }

  lemma KeepsGranting(cfg: Config, p: Party, t: A.Thread, r: Reply)
    requires t.pc.Grant? || t.pc.ReadInfo? || t.pc.StoreInfo? || t.pc.StoreGranted?
    requires KeepsTo(p, t) && Tells(p, t, r)
    ensures KeepsTo(p, A.Resume(cfg, p.key, t, r))
  {
    hide TrimSpace, ToLower, OwnKey, PolicyOn, CallError, OperationOf, RevokesExactly, Granted;
  }

  lemma KeepsRevoking(cfg: Config, p: Party, t: A.Thread, r: Reply)
    requires t.pc.RevokeClaim? || Revoking(t.pc) || t.pc.DeleteInfo? || t.pc.DropFinalizer?
    requires KeepsTo(p, t) && Tells(p, t, r) && OwnKey(p) != ""
    ensures KeepsTo(p, A.Resume(cfg, p.key, t, r))
  {
    hide TrimSpace, M.AccessKeyForAccount, Joined, PolicyOn, GrantsOwn, A.RevokedName, A.KnownKey, A.GotRevokeProvider,
         A.GotRevocation, RevokesExactly;
    if t.pc.RevokeResolve? || t.pc.Revoke? { KeepsRevocation(cfg, p, t, r); }
  }

  lemma KeepsRevocation(cfg: Config, p: Party, t: A.Thread, r: Reply)
    requires t.pc.RevokeResolve? || t.pc.Revoke?
    requires KeepsTo(p, t) && OwnKey(p) != ""
    ensures t.pc.RevokeResolve? ==> KeepsTo(p, A.GotRevokeProvider(p.key, t, r))
    ensures t.pc.Revoke? ==> KeepsTo(p, A.GotRevocation(t, t.pc.call, t.pc.rest, r))
  {
    hide TrimSpace, OwnKey, PolicyOn, CallError, OperationOf, GrantsOwn, UsesMinio, RevokeScript, Joined;
    if t.pc.RevokeResolve? { AgreedRevokeBegins(p, t); }
  }

  lemma KeepsNext(cfg: Config, p: Party, t: A.Thread, r: Reply)
    requires !t.pc.Finished? && KeepsTo(p, t) && Tells(p, t, r) && OnMinioNow(t)
    requires t.pc.ReadClaim? && r.ClaimIs? && TrimSpace(r.claim.status.bucketName) != "" ==>
               r.claim.status.bucketName == p.bucket
    ensures KeepsTo(p, A.Resume(cfg, p.key, t, r))
  {
    assert OwnKey(p) != "" by { M.CredentialsAreTrimmed(cfg.digest, Joined(p.key)); }
    hide KeepsTo, Tells, A.Resume, OwnKey, TrimSpace;
    if t.pc.Grant? || t.pc.ReadInfo? || t.pc.StoreInfo? || t.pc.StoreGranted? { KeepsGranting(cfg, p, t, r); }
    else if t.pc.RevokeClaim? || Revoking(t.pc) || t.pc.DeleteInfo? || t.pc.DropFinalizer? {
      KeepsRevoking(cfg, p, t, r);
    }
    else { KeepsFirst(cfg, p, t, r); }
  }

  /* Which claim a thread works on */

  // A thread that begins to grant or to revoke has just read the claim; until it ends it sticks to it.
  lemma GrantOf(cfg: Config, k: Key, t: A.Thread, r: Reply)
    requires !t.pc.Finished?
    ensures var next := A.Resume(cfg, k, t, r);
            Granting(next.pc) ==>
              if t.pc.ReadClaim? then r == ClaimIs(next.claim) && TrimSpace(next.claim.status.bucketName) != ""
              else Granting(t.pc) && next.claim == t.claim && next.access == t.access
  {
    hide TrimSpace, A.GrantedName, A.GotRevokeClaim, A.GotRevokeProvider, A.GotRevocation, A.KnownKey, UsesMinio,
         GrantScript, Advance, KeyOr, M.AccessKeyForAccount, M.SecretForAccount, Joined;
    RevocationIsNoGrant(k, t, r);
  }

  lemma RevocationIsNoGrant(k: Key, t: A.Thread, r: Reply)
    ensures !Granting(A.GotRevokeClaim(k, t, r).pc) && !Granting(A.GotRevokeProvider(k, t, r).pc)
    ensures t.pc.Revoke? ==> !Granting(A.GotRevocation(t, t.pc.call, t.pc.rest, r).pc)
  {
    hide A.RevokedName, UsesMinio, RevokeScript, Advance, Joined;
  }

  lemma RevocationOf(cfg: Config, k: Key, t: A.Thread, r: Reply)
    requires !t.pc.Finished?
    ensures var next := A.Resume(cfg, k, t, r);
            Revoking(next.pc) ==>
              if t.pc.RevokeClaim? then
                r == ClaimIs(next.claim) && next.access == t.access
                  && next.bucket == A.RevokedName(A.ClaimKey(k, t.access), next.claim)
              else Revoking(t.pc) && next.claim == t.claim && next.access == t.access && next.bucket == t.bucket
  {
    hide TrimSpace, A.RevokedName, A.BeginGrant, A.GotGrant, A.KnownKey, UsesMinio, RevokeScript, Advance, KeyOr,
         Joined;
    GrantIsNoRevocation(cfg, k, t, r);
  }

  lemma GrantIsNoRevocation(cfg: Config, k: Key, t: A.Thread, r: Reply)
    ensures !Revoking(A.BeginGrant(cfg, k, t).pc)
    ensures t.pc.Grant? ==> !Revoking(A.GotGrant(t, t.pc.call, t.pc.rest, r).pc)
  {
    hide UsesMinio, GrantScript, Advance, M.AccessKeyForAccount, M.SecretForAccount, Joined;
  }

  /* One step of the system */

  lemma ObjectsServed(api: Api, call: Call, p: Party)
    requires OnAccesses(call) && ObjectFine(api, p)
    ensures var (after, r) := ServeAccesses(api, call);
            ObjectFine(after, p)
              && (r.AccessIs? && call.key == p.key ==>
                    r.access.claimName == p.claimName && r.access.secretName == p.secretName)
  {
  }

  lemma ObjectsOthers(api: Api, a: Action, p: Party)
    requires ObjectFine(api, p)
    requires a.CreateAccess? && a.key == p.key ==> a.claimName == p.claimName && a.secretName == p.secretName
    ensures ObjectFine(Others(api, a), p)
  {
    hide Born, Doomed, Edited;
    if a.EditClaim? { EditKeepsAccesses(api, a.key, a.spec, a.foreign); }
    if a.CreateClaim? || a.DeleteClaim? { ClaimsKeepAccesses(api, a); }
  }

  lemma EditKeepsAccesses(api: Api, k: Key, spec: ClaimSpec, foreign: set<string>)
    ensures Edited(api, k, spec, foreign).accesses == api.accesses
    ensures Edited(api, k, spec, foreign).secrets == api.secrets
  {
  }

  lemma ClaimsKeepAccesses(api: Api, a: Action)
    ensures a.CreateClaim? ==>
              Born(api, a.key, a.spec).accesses == api.accesses && Born(api, a.key, a.spec).secrets == api.secrets
    ensures a.DeleteClaim? ==> Doomed(api, a.key).accesses == api.accesses && Doomed(api, a.key).secrets == api.secrets
  {
  }

  // A call that does not write the party's Secret.
  predicate SparesSecret(call: Call, p: Party) { call.CreateSecret? || call.UpdateSecret? ==> call.key != InfoKeyOf(p) }

  predicate WritesOwnKey(call: Call, p: Party) {
    call.CreateSecret? || call.UpdateSecret? ==> Lookup(call.secret.data, BucketInfo) == OwnKey(p)
  }

  lemma SecretsServed(api: Api, call: Call, p: Party)
    requires OnSecrets(call) && InfoFine(api, p) && (SparesSecret(call, p) || WritesOwnKey(call, p))
    ensures InfoFine(ServeSecrets(api, call).0, p)
  {
    hide OwnKey;
  }

  lemma SecretsOthers(api: Api, a: Action, p: Party)
    requires InfoFine(api, p) && (a.PutSecret? ==> a.key != InfoKeyOf(p))
    ensures InfoFine(Others(api, a), p)
  {
    hide Born, Doomed, Edited, AccessBorn, AccessDoomed, OwnKey;
    if a.EditClaim? { EditKeepsAccesses(api, a.key, a.spec, a.foreign); }
    if a.CreateClaim? || a.DeleteClaim? { ClaimsKeepAccesses(api, a); }
    if a.CreateAccess? || a.DeleteAccess? { AccessesKeepSecrets(api, a); }
  }

  lemma AccessesKeepSecrets(api: Api, a: Action)
    ensures a.CreateAccess? ==> AccessBorn(api, a.key, a.claimName, a.secretName).secrets == api.secrets
    ensures a.DeleteAccess? ==> AccessDoomed(api, a.key).secrets == api.secrets
  {
  }

  lemma ServedFine(w: World, call: Call, c: Choice, p: Party)
    requires ObjectFine(w.api, p) && InfoFine(w.api, p) && (SparesSecret(call, p) || WritesOwnKey(call, p))
    ensures var (w', r) := Serve(w, call, c);
            && ObjectFine(w'.api, p) && InfoFine(w'.api, p)
            && (OnAccesses(call) && r.AccessIs? && call.key == p.key ==>
                  r.access.claimName == p.claimName && r.access.secretName == p.secretName)
  {
    hide Serve, Perform, ServeAccesses, ServeSecrets, OwnKey;
    Frame(w, call, c);
    ServeWorld(w, call, c);
    ServeReply(w, call, c);
    Performs(w, call, c);
    if OnAccesses(call) { ObjectsServed(w.api, call, p); }
    if OnSecrets(call) { SecretsServed(w.api, call, p); }
  }

  // The calls of the party's own thread.
  lemma PartyCalls(p: Party, t: A.Thread)
    requires !t.pc.Finished? && KeepsTo(p, t)
    ensures var call := A.Request(p.key, t);
            && WritesOwnKey(call, p) && (OnAccesses(call) ==> call.key == p.key)
            && (t.pc.Fetch? || t.pc.AddFinalizer? ==> OnAccesses(call))
            && (t.pc.RevokeInfo? ==> call == GetSecret(InfoKeyOf(p)))
            && (t.pc.ReadClaim? || t.pc.RevokeClaim? ==> call == GetClaim(ClaimKeyOf(p)))
            && (t.pc.Grant? ==> call == t.pc.call)
            && (OnClaims(call) ==> call == GetClaim(ClaimKeyOf(p)))
  {
    hide OwnKey, PolicyOn, Granted, TrimSpace;
  }

  lemma ShowsSame(a: Api, b: Api, k: Key, uid: nat, name: string)
    requires Shows(a, k, uid, name) && a.claims == b.claims && a.uids <= b.uids
    ensures Shows(b, k, uid, name)
  {
  }

  // Names asked for now are the party's.
  lemma MakesOwn(p: Party, api: Api, t: A.Thread, call: Call, m: Made)
    requires KeepsTo(p, t) && m in MadeBy(t, call) && (t.pc.Grant? ==> call == t.pc.call)
    requires t.pc.Revoke? ==> call == t.pc.call
    requires !t.pc.Grant? && !t.pc.Revoke? ==> MadeBy(t, call) == {}
    requires Granting(t.pc) ==> Shows(api, ClaimKeyOf(p), t.claim.uid, p.bucket)
    ensures t.pc.Grant? && MadeFine(api, p, m)
  {
    hide Shows, OwnKey, PolicyOn, Granted, TrimSpace;
  }

  lemma QuietMakesNothing(p: Party, t: A.Thread)
    requires !t.pc.Finished?
    ensures !t.pc.Grant? && !t.pc.Revoke? ==> MadeBy(t, A.Request(p.key, t)) == {}
    ensures t.pc.Grant? || t.pc.Revoke? ==> A.Request(p.key, t) == t.pc.call
  {
    hide A.InfoKey, A.ClaimKey, Joined;
  }

  // A claim read for revocation shows the name under which things were made on it.
  lemma RevokedIsGranted(p: Party, api: Api, claim: Claim, m: Made)
    requires MadeFine(api, p, m) && m.Policy? && m.claim == claim.uid
    requires ClaimKeyOf(p) in api.claims && api.claims[ClaimKeyOf(p)] == claim
    ensures m.name == PolicyOn(p, A.RevokedName(ClaimKeyOf(p), claim))
  {
    hide TrimSpace, PolicyOn;
  }

  lemma AgreesNext(cfg: Config, p: Party, api: Api, t: A.Thread, r: Reply, m: Made)
    requires !t.pc.Finished? && KeepsTo(p, t) && MadeFine(api, p, m) && Agrees(p, t, m)
    requires t.pc.RevokeClaim? && r.ClaimIs? ==> ClaimKeyOf(p) in api.claims && api.claims[ClaimKeyOf(p)] == r.claim
    ensures Agrees(p, A.Resume(cfg, p.key, t, r), m)
  {
    hide A.Resume, PolicyOn, MadeFine, Shows, A.RevokedName, GrantsOwn, RevokesExactly, Granted, TrimSpace, OwnKey;
    RevocationOf(cfg, p.key, t, r);
    var next := A.Resume(cfg, p.key, t, r);
    if t.pc.RevokeClaim? && Revoking(next.pc) && m.Policy? && m.claim == next.claim.uid {
      RevokedIsGranted(p, api, next.claim, m);
    }
  }

  lemma ShowsNext(cfg: Config, p: Party, api: Api, t: A.Thread, r: Reply)
    requires !t.pc.Finished? && OneName(api, ClaimKeyOf(p), p.bucket) && Sound(api, ClaimKeyOf(p))
    requires Granting(t.pc) ==> Shows(api, ClaimKeyOf(p), t.claim.uid, p.bucket)
    requires t.pc.ReadClaim? && r.ClaimIs? ==> ClaimKeyOf(p) in api.claims && api.claims[ClaimKeyOf(p)] == r.claim
    ensures var next := A.Resume(cfg, p.key, t, r);
            Granting(next.pc) ==> Shows(api, ClaimKeyOf(p), next.claim.uid, p.bucket)
  {
    hide A.Resume, TrimSpace;
    GrantOf(cfg, p.key, t, r);
    BlankIsBlank();
  }

  lemma BlankIsBlank()
    ensures TrimSpace("") == ""
  {
  }

  lemma PartyTurn(cfg: Config, p: Party, w: World, t: A.Thread, c: Choice, made: set<Made>)
    requires !t.pc.Finished? && PartyFine(w.api, p, t, made) && OnMinioNow(t)
    requires OneName(w.api, ClaimKeyOf(p), p.bucket) && Sound(w.api, ClaimKeyOf(p))
    ensures var (w', r) := Serve(w, A.Request(p.key, t), c);
            PartyFine(w'.api, p, A.Resume(cfg, p.key, t, r), made + MadeBy(t, A.Request(p.key, t)))
  {
    hide Serve, Perform, A.Request, A.Resume, KeepsTo, Tells, MadeFine, Agrees, Shows, OneName, ObjectFine, InfoFine,
         MadeBy, ServeClaims, Sound, OnMinioNow;
    var call := A.Request(p.key, t);
    var (w', r) := Serve(w, call, c);
    var next := A.Resume(cfg, p.key, t, r);
    var k := ClaimKeyOf(p);
    PartyCalls(p, t);
    QuietMakesNothing(p, t);
    ServedFine(w, call, c, p);
    PartyReplies(p, w, t, c);
    ShowsNext(cfg, p, w.api, t, r);
    KeepsNext(cfg, p, t, r);
    assert w'.api.claims == w.api.claims && w.api.uids <= w'.api.uids by { PartyKeepsClaims(p, w, t, c); }
    if Granting(next.pc) { ShowsSame(w.api, w'.api, k, next.claim.uid, p.bucket); }
    forall m | m in made + MadeBy(t, call) ensures MadeFine(w'.api, p, m) && Agrees(p, next, m) {
      if m in MadeBy(t, call) { MakesOwn(p, w.api, t, call, m); NotRevoking(p, t, m); }
      AgreesNext(cfg, p, w.api, t, r, m);
      MadeFineSame(w.api, w'.api, p, m);
    }
  }

  lemma NotRevoking(p: Party, t: A.Thread, m: Made)
    requires t.pc.Grant?
    ensures Agrees(p, t, m)
  {
  }

  lemma MadeFineSame(a: Api, b: Api, p: Party, m: Made)
    requires MadeFine(a, p, m) && a.claims == b.claims && a.uids <= b.uids
    ensures MadeFine(b, p, m)
  {
    hide OwnKey, PolicyOn, Granted, TrimSpace;
  }

  lemma PartyKeepsClaims(p: Party, w: World, t: A.Thread, c: Choice)
    requires !t.pc.Finished? && KeepsTo(p, t) && Sound(w.api, ClaimKeyOf(p))
    ensures var api := Serve(w, A.Request(p.key, t), c).0.api; api.claims == w.api.claims && w.api.uids <= api.uids
  {
    hide Serve, Perform, A.Request, KeepsTo, ServeClaims, Sound;
    PartyCalls(p, t);
    Frame(w, A.Request(p.key, t), c);
    ServeWorld(w, A.Request(p.key, t), c);
    Performs(w, A.Request(p.key, t), c);
    ReadsChangeNothing(w.api, A.Request(p.key, t));
    ServeEvolves(w, A.Request(p.key, t), c, ClaimKeyOf(p));
  }

  // The replies to the party's thread.
  lemma PartyReplies(p: Party, w: World, t: A.Thread, c: Choice)
    requires !t.pc.Finished? && KeepsTo(p, t) && ObjectFine(w.api, p) && InfoFine(w.api, p)
    ensures var r := Serve(w, A.Request(p.key, t), c).1;
            && Tells(p, t, r)
            && ((t.pc.ReadClaim? || t.pc.RevokeClaim?) && r.ClaimIs? ==>
                  ClaimKeyOf(p) in w.api.claims && w.api.claims[ClaimKeyOf(p)] == r.claim)
            && (t.pc.ReadClaim? && r.ClaimIs? && OneName(w.api, ClaimKeyOf(p), p.bucket)
                && TrimSpace(r.claim.status.bucketName) != "" ==>
                  r.claim.status.bucketName == p.bucket)
  {
    hide Serve, Perform, A.Request, KeepsTo, ServeClaims, ServeSecrets, ServeMinio, ObjectFine, TrimSpace;
    var call := A.Request(p.key, t);
    PartyCalls(p, t);
    ServedFine(w, call, c, p);
    ServeReply(w, call, c);
    Performs(w, call, c);
    ReadsChangeNothing(w.api, call);
    BlankIsBlank();
    OwnKeyTrimmed(p);
    if t.pc.Grant? { GrantReply(p, w.minio, t); }
  }

  lemma OwnKeyTrimmed(p: Party)
    ensures TrimSpace(OwnKey(p)) == OwnKey(p)
  {
    M.CredentialsAreTrimmed(_ => NO_DIGEST, Joined(p.key));
  }

  const NO_DIGEST: M.Digest := [0, 0, 0, 0, 0, 0, 0, 0, 0, 0, 0, 0, 0, 0, 0, 0, 0, 0, 0, 0]

  lemma GrantReply(p: Party, m: M.Server, t: A.Thread)
    requires t.pc.Grant? && KeepsTo(p, t)
    ensures OnMinio(t.pc.call) && !ServeMinio(m, t.pc.call).1.Granted?
  {
    hide OwnKey, PolicyOn, Granted, TrimSpace, Effect;
  }

  /* Runs */

  // The hypothesis about a step: the claim's effective name is fixed, its class is served by MinIO when a grant
  // begins, nobody else writes the Secret of the BucketAccess, and a BucketAccess recreated under the same key
  // has the same references.
  ghost predicate Settled(s: System, a: Action, p: Party) {
    && EffectiveNameIs(ClaimKeyOf(p), p.bucket, ClaimThread(s, ClaimKeyOf(p)))
    && OnMinioNow(AccessThread(s, p.key))
    && (Issued(s, a).Some? && !(a.StepAccess? && a.key == p.key) ==> SparesSecret(Issued(s, a).value, p))
    && (a.PutSecret? ==> a.key != InfoKeyOf(p))
    && (a.CreateAccess? && a.key == p.key ==> a.claimName == p.claimName && a.secretName == p.secretName)
  }

  ghost function NextMade(s: System, a: Action, p: Party, made: set<Made>): set<Made> {
    if a.StepAccess? && a.key == p.key && Issued(s, a).Some? then
      made + MadeBy(AccessThread(s, p.key), Issued(s, a).value)
    else made
  }

  // Everything asked for on behalf of the BucketAccess in a run.
  ghost function MadeIn(cfg: Config, s: System, actions: seq<Action>, p: Party, made: set<Made>): set<Made>
    decreases |actions|
  {
    if actions == [] then made
    else MadeIn(cfg, Apply(cfg, s, actions[0]), actions[1..], p, NextMade(s, actions[0], p, made))
  }

  ghost predicate AgreementInv(s: System, p: Party, made: set<Made>) {
    && ClaimFine(s, ClaimKeyOf(p))
    && NameFine(s.world.api, ClaimKeyOf(p), ClaimThread(s, ClaimKeyOf(p)), p.bucket)
    && PartyFine(s.world.api, p, AccessThread(s, p.key), made)
  }

  lemma AccessThreadOf(cfg: Config, s: System, a: Action, k: Key)
    ensures var next := AccessThread(Apply(cfg, s, a), k);
            if a.StepAccess? && a.key == k && Issued(s, a).Some? then
              next == A.Resume(cfg, k, AccessThread(s, k), ReplyTo(s, a))
            else next == AccessThread(s, k) || next.pc.Finished? || next.pc.Fetch?
  {
    hide A.Resume, NextWorld, NextClaims, NextDriver, Issued, ReplyTo;
  }

  lemma PartyStable(a: Api, b: Api, p: Party, t: A.Thread, next: A.Thread, made: set<Made>)
    requires PartyFine(a, p, t, made) && ObjectFine(b, p) && InfoFine(b, p)
    requires next == t || next.pc.Finished? || next.pc.Fetch?
    requires var k := ClaimKeyOf(p); Evolves(a, b, k) && Latched(a, b, k) && OneName(b, k, p.bucket)
    ensures PartyFine(b, p, next, made)
  {
    hide Evolves, Latched, OneName, Shows, ObjectFine, InfoFine, OwnKey, PolicyOn, Granted, GrantsOwn, RevokesExactly;
    BlankIsBlank();
    if Granting(next.pc) { ShowsStable(a, b, ClaimKeyOf(p), t.claim.uid, p.bucket); }
    forall m | m in made ensures MadeFine(b, p, m) && Agrees(p, next, m) {
      assert MadeFine(a, p, m) && Agrees(p, t, m);
      ShowsStable(a, b, ClaimKeyOf(p), m.claim, p.bucket);
    }
  }

  lemma ElsewhereFine(s: System, a: Action, p: Party)
    requires ObjectFine(s.world.api, p) && InfoFine(s.world.api, p) && Settled(s, a, p)
    requires !(a.StepAccess? && a.key == p.key && Issued(s, a).Some?)
    ensures ObjectFine(NextWorld(s, a).api, p) && InfoFine(NextWorld(s, a).api, p)
  {
    hide ObjectFine, InfoFine, Issued, Serve, Others, SparesSecret, EffectiveNameIs, OnMinioNow;
    if Issued(s, a).Some? { ServedFine(s.world, Issued(s, a).value, a.choice, p); }
    else if !a.FillBucket? { ObjectsOthers(s.world.api, a, p); SecretsOthers(s.world.api, a, p); }
  }

  lemma AccessTurnIs(s: System, a: Action)
    requires a.StepAccess? && Issued(s, a).Some?
    ensures var t := AccessThread(s, a.key);
            && !t.pc.Finished? && Issued(s, a).value == A.Request(a.key, t)
            && NextWorld(s, a) == Serve(s.world, A.Request(a.key, t), a.choice).0
            && ReplyTo(s, a) == Serve(s.world, A.Request(a.key, t), a.choice).1
  {
    hide A.Request, Serve;
  }

  lemma AgreementStep(cfg: Config, s: System, a: Action, p: Party, made: set<Made>)
    requires AgreementInv(s, p, made) && Settled(s, a, p)
    ensures AgreementInv(Apply(cfg, s, a), p, NextMade(s, a, p, made))
  {
    hide Apply, ClaimFine, ClaimThread, AccessThread, Issued, NextWorld, ServesName, Evolves, Latched, OneName,
         PartyFine, Sound, EffectiveNameIs, OnMinioNow, SparesSecret, Serve, A.Request, A.Resume, MadeBy;
    var k := ClaimKeyOf(p);
    FineStep(cfg, s, a, k);
    NameStep(cfg, s, a, k, p.bucket);
    WorldOf(cfg, s, a);
    AccessThreadOf(cfg, s, a, p.key);
    FineIsSound(s, k);
    if a.StepAccess? && a.key == p.key && Issued(s, a).Some? {
      AccessTurnIs(s, a);
      PartyTurn(cfg, p, s.world, AccessThread(s, p.key), a.choice, made);
    } else {
      PartyParts(s.world.api, p, AccessThread(s, p.key), made);
      ElsewhereFine(s, a, p);
      PartyStable(s.world.api, NextWorld(s, a).api, p, AccessThread(s, p.key), AccessThread(Apply(cfg, s, a), p.key),
                  made);
    }
  }

  lemma FineIsSound(s: System, k: Key)
    requires ClaimFine(s, k)
    ensures Sound(s.world.api, k)
  {
    hide Sound, Knows, Sane, Truthful;
  }

  lemma PartyParts(api: Api, p: Party, t: A.Thread, made: set<Made>)
    requires PartyFine(api, p, t, made)
    ensures ObjectFine(api, p) && InfoFine(api, p)
  {
    hide ObjectFine, InfoFine, KeepsTo, MadeFine, Agrees;
  }

  ghost predicate SettledRun(cfg: Config, s: System, actions: seq<Action>, p: Party) {
    forall i :: 0 <= i < |actions| ==> Settled(Run(cfg, s, actions[..i]), actions[i], p)
  }

  lemma SettledTail(cfg: Config, s: System, actions: seq<Action>, p: Party)
    requires actions != [] && SettledRun(cfg, s, actions, p)
    ensures Settled(s, actions[0], p) && SettledRun(cfg, Apply(cfg, s, actions[0]), actions[1..], p)
  {
    hide Settled, Apply;
    assert actions[..0] == [] && Run(cfg, s, actions[..0]) == s;
    forall i | 0 <= i < |actions[1..]|
      ensures Settled(Run(cfg, Apply(cfg, s, actions[0]), actions[1..][..i]), actions[1..][i], p)
    {
      assert actions[..i + 1][0] == actions[0] && actions[..i + 1][1..] == actions[1..][..i];
      assert Run(cfg, s, actions[..i + 1]) == Run(cfg, Apply(cfg, s, actions[0]), actions[1..][..i]);
      assert Settled(Run(cfg, s, actions[..i + 1]), actions[i + 1], p);
    }
  }

  lemma {:induction false} AgreementRun(cfg: Config, s: System, actions: seq<Action>, p: Party, made: set<Made>)
    requires AgreementInv(s, p, made) && SettledRun(cfg, s, actions, p)
    ensures AgreementInv(Run(cfg, s, actions), p, MadeIn(cfg, s, actions, p, made))
    decreases |actions|
  {
    hide Apply, AgreementInv, SettledRun, Settled, NextMade;
    if actions != [] {
      SettledTail(cfg, s, actions, p);
      AgreementStep(cfg, s, actions[0], p, made);
      AgreementRun(cfg, Apply(cfg, s, actions[0]), actions[1..], p, NextMade(s, actions[0], p, made));
    }
  }

  lemma AgreementStart(s: System, p: Party)
    requires Initial(s) && InfoKeyOf(p) !in s.world.api.secrets
    ensures AgreementInv(s, p, {})
  {
    InitialInv(s);
    assert ClaimFine(s, ClaimKeyOf(p));
    hide ClaimFine, OwnKey, PolicyOn, Granted, TrimSpace;
  }

  /** Two-controller agreement, in every reachable state: when a thread revokes for a BucketAccess, the user and the
      policy it removes are exactly the user and the policy that were asked for on behalf of this object on this
      claim - although one name was read from the claim's status when it was granted and the other one later. */
  lemma RevokedIsWhatWasGranted(cfg: Config, s: System, actions: seq<Action>, p: Party, m: Made)
    requires Initial(s) && InfoKeyOf(p) !in s.world.api.secrets && SettledRun(cfg, s, actions, p)
    requires m in MadeIn(cfg, s, actions, p, {})
    requires var t := AccessThread(Run(cfg, s, actions), p.key);
             t.pc.Revoke? && !t.pc.call.ForeignRevoke? && m.access == t.access.uid && m.claim == t.claim.uid
    ensures var t := AccessThread(Run(cfg, s, actions), p.key);
            && (m.User? && t.pc.call.RemoveUser? ==> t.pc.call.accessKey == m.name)
            && (m.Policy? ==> (if t.pc.rest.Then? then t.pc.rest.call else t.pc.call) == RemovePolicy(m.name))
  {
    AgreementStart(s, p);
    hide SettledRun, AgreementInv, Initial;
    AgreementRun(cfg, s, actions, p, {});
    RevokesWhatWasMade(Run(cfg, s, actions), p, MadeIn(cfg, s, actions, p, {}), m);
  }

  lemma RevokesWhatWasMade(s: System, p: Party, made: set<Made>, m: Made)
    requires AgreementInv(s, p, made) && m in made
    requires var t := AccessThread(s, p.key);
             t.pc.Revoke? && !t.pc.call.ForeignRevoke? && m.access == t.access.uid && m.claim == t.claim.uid
    ensures var t := AccessThread(s, p.key);
            && (m.User? && t.pc.call.RemoveUser? ==> t.pc.call.accessKey == m.name)
            && (m.Policy? ==> (if t.pc.rest.Then? then t.pc.rest.call else t.pc.call) == RemovePolicy(m.name))
  {
    hide ClaimFine, AccessThread, OwnKey, PolicyOn, Granted, TrimSpace, Shows, GrantsOwn;
    assert MadeFine(s.world.api, p, m) && Agrees(p, AccessThread(s, p.key), m);
  }
}
