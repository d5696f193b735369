/** What it means that a claim is bound at its current generation: the backend was configured from the spec of
    that generation - unless an edit slipped in between the two reads of the claim. */
module Generations {
  import opened Text
  import opened Lifecycle
  import opened Kube
  import opened Cluster
  import opened Frames
  import opened Provisioning
  import opened ClaimFlow
  import opened ClaimInvariant
  import opened ClaimRuns
  import opened System
  import opened Credentials
  import M = Minio
  import C = ClaimMachine

  /* A backend configured as a spec asks */

  function PolicyOf(b: string, spec: ClaimSpec): M.Policy { M.Policy(b, EqualFold(spec.accessType, "ReadOnly")) }

  predicate WantsQuota(spec: ClaimSpec) { spec.quotaBytes.Some? && spec.quotaBytes.value > 0 }

  ghost predicate QuotaSet(m: M.Server, b: string, spec: ClaimSpec) {
    b in m.buckets && m.buckets[b].quota == spec.quotaBytes
  }

  ghost predicate LifecycleSet(m: M.Server, b: string, spec: ClaimSpec) {
    b in m.buckets && m.buckets[b].lifecycle == Rules(spec.lifecycleRules)
  }

  ghost predicate PolicySet(m: M.Server, n: Tenant, spec: ClaimSpec) {
    n.policy in m.policies && m.policies[n.policy] == PolicyOf(n.bucket, spec)
  }

  /** The bucket exists with the quota and the lifecycle that the spec asks for, and the policy has its scope. */
  ghost predicate Configured(m: M.Server, n: Tenant, spec: ClaimSpec) {
    && n.bucket in m.buckets
    && (WantsQuota(spec) ==> QuotaSet(m, n.bucket, spec))
    && (|spec.lifecycleRules| > 0 ==> LifecycleSet(m, n.bucket, spec))
    && PolicySet(m, n, spec)
  }

  /* Scripts that ask for the right things */

  // A call of the provisioning script of `spec`, with the right arguments.
  predicate Asks(n: Tenant, spec: ClaimSpec, call: Call) {
    match call
    case BucketExists(b) => b == n.bucket
    case MakeBucket(b, _, _) => b == n.bucket
    case SetQuota(b, q) => b == n.bucket && spec.quotaBytes == Some(q)
    case SetLifecycle(b, rules) => b == n.bucket && rules == Rules(spec.lifecycleRules)
    case SetReplication(b, _) => true
    case AddPolicy(policy, p) => policy == n.policy && p == PolicyOf(n.bucket, spec)
    case AddUser(_, _) => true
    case AttachPolicy(_, _) => true
    case _ => false
  }

  predicate AllAsk(n: Tenant, spec: ClaimSpec, todo: Script) {
    todo.Then? ==> Asks(n, spec, todo.call) && AllAsk(n, spec, todo.rest)
  }

  predicate Makes(todo: Script) { todo.Then? && (todo.call.MakeBucket? || Makes(todo.rest)) }

  predicate SetsQuota(todo: Script) { todo.Then? && (todo.call.SetQuota? || SetsQuota(todo.rest)) }

  predicate SetsLifecycle(todo: Script) { todo.Then? && (todo.call.SetLifecycle? || SetsLifecycle(todo.rest)) }

  predicate SetsPolicy(todo: Script) { todo.Then? && (todo.call.AddPolicy? || SetsPolicy(todo.rest)) }

  // Whatever the script does not do any more is done.
  ghost predicate DoneOrToDo(m: M.Server, n: Tenant, spec: ClaimSpec, todo: Script) {
    && (Makes(todo) || n.bucket in m.buckets)
    && (WantsQuota(spec) ==> SetsQuota(todo) || QuotaSet(m, n.bucket, spec))
    && (|spec.lifecycleRules| > 0 ==> SetsLifecycle(todo) || LifecycleSet(m, n.bucket, spec))
    && (SetsPolicy(todo) || PolicySet(m, n, spec))
  }

  // What a right call leaves as it was, or sets right.
  lemma AskedEffect(m: M.Server, n: Tenant, spec: ClaimSpec, call: Call)
    requires Asks(n, spec, call)
    ensures OnMinio(call)
    ensures var (m', r) := ServeMinio(m, call);
            && (n.bucket in m.buckets ==> n.bucket in m'.buckets)
            && (QuotaSet(m, n.bucket, spec) ==> QuotaSet(m', n.bucket, spec))
            && (LifecycleSet(m, n.bucket, spec) ==> LifecycleSet(m', n.bucket, spec))
            && (PolicySet(m, n, spec) ==> PolicySet(m', n, spec))
            && (!r.Refused? ==>
                  && (call.MakeBucket? ==> n.bucket in m'.buckets)
                  && (call.SetQuota? ==> QuotaSet(m', n.bucket, spec))
                  && (call.SetLifecycle? ==> LifecycleSet(m', n.bucket, spec))
                  && (call.AddPolicy? ==> PolicySet(m', n, spec)))
            && (call.BucketExists? ==> r == Exists(n.bucket in m.buckets))
            && (r.Exists? ==> call.BucketExists?)
  {
    hide Rules, PolicyOf;
  }

  lemma AskedStep(w: World, n: Tenant, spec: ClaimSpec, call: BackendCall, rest: Script, c: Choice)
    requires AllAsk(n, spec, Then(call, rest)) && DoneOrToDo(w.minio, n, spec, Then(call, rest))
    ensures var (w', r) := Serve(w, call, c);
            Advance(call, rest, r).Goes? ==>
              var todo := Advance(call, rest, r).todo; AllAsk(n, spec, todo) && DoneOrToDo(w'.minio, n, spec, todo)
  {
    hide Serve, Perform, ServeMinio, QuotaSet, LifecycleSet, PolicySet, Asks, CallError, OperationOf;
    AskedEffect(w.minio, n, spec, call);
    ServeReply(w, call, c);
    ServeWorld(w, call, c);
    Performs(w, call, c);
    if rest.Then? { SkippedMakes(n, spec, rest); }
  }

  lemma SkippedMakes(n: Tenant, spec: ClaimSpec, s: Script)
    requires s.Then? && AllAsk(n, spec, s)
    ensures !s.call.RemoveBucket? && AllAsk(n, spec, s.rest)
    ensures s.call.MakeBucket? ==>
              SetsQuota(s) == SetsQuota(s.rest) && SetsLifecycle(s) == SetsLifecycle(s.rest)
                && SetsPolicy(s) == SetsPolicy(s.rest)
  {
  }

  // Conditions that calls in front of a script keep.
  predicate Right(n: Tenant, spec: ClaimSpec, s: Script) {
    AllAsk(n, spec, s) && SetsPolicy(s) && (|spec.lifecycleRules| > 0 ==> SetsLifecycle(s))
      && (WantsQuota(spec) ==> SetsQuota(s))
  }

  lemma GrantAsks(cfg: Config, k: Key, b: string, spec: ClaimSpec, ak: string, sk: string)
    ensures var s := GrantScript(b, Joined(k), spec.accessType, ak, sk);
            AllAsk(TenantOf(cfg, k, b), spec, s) && SetsPolicy(s)
  {
    hide M.AccessKeyForAccount, M.SecretForAccount, M.PolicyName, EqualFold, Joined, TrimSpace, CredentialsKey;
    var n, s := TenantOf(cfg, k, b), GrantScript(b, Joined(k), spec.accessType, ak, sk);
    assert AllAsk(n, spec, s.rest.rest);
    assert AllAsk(n, spec, s.rest) && SetsPolicy(s.rest);
  }

  lemma LifecycleAsks(n: Tenant, spec: ClaimSpec, rest: Script)
    requires AllAsk(n, spec, rest) && SetsPolicy(rest)
    ensures var s := LifecycleScript(n.bucket, spec, rest);
            AllAsk(n, spec, s) && SetsPolicy(s) && (|spec.lifecycleRules| > 0 ==> SetsLifecycle(s))
  {
    hide Rules, PolicyOf;
    var s := ReplicationScript(n.bucket, spec, rest);
    assert AllAsk(n, spec, s) && SetsPolicy(s);
  }

  lemma QuotaAsks(n: Tenant, spec: ClaimSpec, rest: Script)
    requires AllAsk(n, spec, rest) && SetsPolicy(rest)
    ensures Right(n, spec, QuotaScript(n.bucket, spec, rest))
  {
    hide Rules, PolicyOf, LifecycleScript;
    LifecycleAsks(n, spec, rest);
    var s := LifecycleScript(n.bucket, spec, rest);
    assert Right(n, spec, QuotaScript(n.bucket, spec, rest)) by {
      if !WantsQuota(spec) { assert QuotaScript(n.bucket, spec, rest) == s; }
    }
  }

  lemma BucketAsks(n: Tenant, spec: ClaimSpec, bc: BucketClass, rest: Script)
    requires AllAsk(n, spec, rest) && SetsPolicy(rest)
    ensures var s := BucketScript(n.bucket, spec, bc, rest); s.Then? && Right(n, spec, s) && Makes(s)
  {
    hide Region, Rules, PolicyOf, QuotaScript, WantsQuota;
    QuotaAsks(n, spec, rest);
    var s := BucketScript(n.bucket, spec, bc, rest);
    assert Right(n, spec, s.rest) && Makes(s.rest);
  }

  lemma ScriptAsks(cfg: Config, k: Key, m: M.Server, c: Claim, bc: BucketClass, creds: Creds)
    requires UsesMinio(bc)
    ensures var n, todo := TenantOf(cfg, k, creds.bucket), C.ProvisionScript(k, c, bc, creds);
            todo.Then? && AllAsk(n, c.spec, todo) && DoneOrToDo(m, n, c.spec, todo)
  {
    hide UsesMinio, GrantScript, BucketScript, Joined, AllAsk, Makes, SetsQuota, SetsLifecycle, SetsPolicy, QuotaSet,
         LifecycleSet, PolicySet, M.AccessKeyForAccount, M.SecretForAccount, M.PolicyName;
    GrantAsks(cfg, k, creds.bucket, c.spec, creds.accessKey, creds.secretKey);
    BucketAsks(TenantOf(cfg, k, creds.bucket), c.spec, bc,
               GrantScript(creds.bucket, Joined(k), c.spec.accessType, creds.accessKey, creds.secretKey));
  }

  /* What the last successful status write was based on */

  datatype Use = Use(uid: nat, generation: nat, spec: ClaimSpec)

  ghost predicate PublishesStatus(s: System, a: Action, k: Key) {
    && a.StepClaim? && a.key == k && ClaimThread(s, k).pc.StoreStatus?
    && k in s.world.api.claims && k in NextWorld(s, a).api.claims
    && s.world.api.claims[k].resourceVersion != NextWorld(s, a).api.claims[k].resourceVersion
  }

  function UseOf(t: C.Thread): Use { Use(t.claim.uid, t.claim.generation, t.claim.spec) }

  ghost function NextUse(s: System, a: Action, k: Key, u: Option<Use>): Option<Use> {
    if PublishesStatus(s, a, k) then Some(UseOf(ClaimThread(s, k))) else u
  }

  // The reading of the claim that the present status rests on, after a run.
  ghost function UseAfter(cfg: Config, s: System, actions: seq<Action>, k: Key, u: Option<Use>): Option<Use>
    decreases |actions|
  {
    if actions == [] then u else UseAfter(cfg, Apply(cfg, s, actions[0]), actions[1..], k, NextUse(s, actions[0], k, u))
  }

  predicate Unfinished(pc: C.Pc) { Working(pc) && !pc.FetchCosi? && !pc.StoreCosi? }

  // A bound status rests on a reading of the same claim that is no newer than the generation it shows.
  ghost predicate RestsOn(api: Api, k: Key, u: Option<Use>) {
    k in api.claims && IsBound(api.claims[k].status) ==>
      var c := api.claims[k];
      && u.Some? && u.value.uid == c.uid && u.value.generation <= c.status.ready.value.observedGeneration
      && (u.value.generation == c.generation ==> u.value.spec == c.spec)
  }

  /** The property: a claim that is up to date, on a reading of its current generation, has its backend
      configured as its current spec asks. */
  ghost predicate ServedAsAsked(w: World, k: Key, n: Tenant, u: Option<Use>) {
    BoundAndStaying(w.api, k) && C.UpToDate(w.api.claims[k]) && u.Some?
      && u.value.generation == w.api.claims[k].generation ==>
      Configured(w.minio, n, w.api.claims[k].spec)
  }

  ghost predicate Provides(m: M.Server, n: Tenant, t: C.Thread) {
    && (t.pc.Provision? ==>
          AllAsk(n, t.claim.spec, Then(t.pc.call, t.pc.rest))
            && DoneOrToDo(m, n, t.claim.spec, Then(t.pc.call, t.pc.rest)))
    && (Publishing(t.pc) ==> Configured(m, n, t.claim.spec))
  }

  ghost predicate Behind(api: Api, k: Key, t: C.Thread) {
    Unfinished(t.pc) && k in api.claims ==> !C.UpToDate(api.claims[k])
  }

  ghost predicate GenerationFine(w: World, k: Key, n: Tenant, t: C.Thread, u: Option<Use>) {
    RestsOn(w.api, k, u) && ServedAsAsked(w, k, n, u) && Provides(w.minio, n, t) && Behind(w.api, k, t)
  }

  /* Everybody else */

  // A call that does not reconfigure the bucket or the policy of a tenant.
  predicate LeavesConfig(call: Call, n: Tenant) {
    match call
    case SetQuota(b, _) => b != n.bucket
    case SetLifecycle(b, _) => b != n.bucket
    case RemoveBucket(b) => b != n.bucket
    case AddPolicy(policy, _) => policy != n.policy
    case RemovePolicy(policy) => policy != n.policy
    case _ => true
  }

  ghost predicate SameConfig(a: M.Server, b: M.Server, n: Tenant) {
    && (n.bucket in a.buckets ==>
          n.bucket in b.buckets
          && a.buckets[n.bucket].quota == b.buckets[n.bucket].quota
             && a.buckets[n.bucket].lifecycle == b.buckets[n.bucket].lifecycle)
    && (n.policy in a.policies ==> n.policy in b.policies && a.policies[n.policy] == b.policies[n.policy])
  }

  lemma LeftConfig(m: M.Server, call: Call, n: Tenant)
    requires OnMinio(call) && LeavesConfig(call, n)
    ensures SameConfig(m, ServeMinio(m, call).0, n)
  {
  }

  lemma ServedConfig(w: World, call: Call, c: Choice, n: Tenant)
    requires LeavesConfig(call, n)
    ensures SameConfig(w.minio, Serve(w, call, c).0.minio, n)
  {
    hide Serve, Perform, LeavesConfig, ServeMinio;
    Frame(w, call, c);
    ServeWorld(w, call, c);
    Performs(w, call, c);
    if OnMinio(call) { LeftConfig(w.minio, call, n); }
  }

  lemma SameConfigured(a: M.Server, b: M.Server, n: Tenant, spec: ClaimSpec, todo: Script)
    requires SameConfig(a, b, n)
    ensures Configured(a, n, spec) ==> Configured(b, n, spec)
    ensures DoneOrToDo(a, n, spec, todo) ==> DoneOrToDo(b, n, spec, todo)
  {
    hide Makes, SetsQuota, SetsLifecycle, SetsPolicy, PolicyOf, Rules;
  }

  lemma GenerationOthers(w: World, w': World, k: Key, n: Tenant, t: C.Thread, u: Option<Use>)
    requires GenerationFine(w, k, n, t, u) && SameConfig(w.minio, w'.minio, n)
    requires Evolves(w.api, w'.api, k) && Undisturbed(w.api, w'.api, k) && Truthful(w.api, k) && Knows(w.api, k, t)
    ensures GenerationFine(w', k, n, t, u)
  {
    hide Configured, DoneOrToDo, AllAsk, SameConfig, Snapshot;
    if t.pc.Provision? { SameConfigured(w.minio, w'.minio, n, t.claim.spec, Then(t.pc.call, t.pc.rest)); }
    else { SameConfigured(w.minio, w'.minio, n, t.claim.spec, End); }
    if k in w.api.claims { SameConfigured(w.minio, w'.minio, n, w.api.claims[k].spec, End); }
  }

  /* A tenant's own thread */

  lemma GenerationProvision(cfg: Config, k: Key, n: Tenant, w: World, t: C.Thread, c: Choice, u: Option<Use>,
                            next: C.Thread)
    requires t.pc.Provision? && GenerationFine(w, k, n, t, u) && Knows(w.api, k, t)
    requires Arrival(cfg, k, t, Serve(w, t.pc.call, c).1, next)
    ensures GenerationFine(Serve(w, t.pc.call, c).0, k, n, next, u)
  {
    hide Serve, Configured, DoneOrToDo, AllAsk, Advance, StartingCreds, C.ProvisionScript, TrimmedCreds, Begins,
         C.Destruction, Complete, IsBound, Handled, GivenCreds, Snapshot;
    var (w', r) := Serve(w, t.pc.call, c);
    AskedStep(w, n, t.claim.spec, t.pc.call, t.pc.rest, c);
    ProvisionKeepsApi(w, n, t.claim.spec, t.pc.call, t.pc.rest, c);
    if next.pc.FetchSecret? { NothingLeft(w'.minio, n, t.claim.spec); }
  }

  lemma ProvisionKeepsApi(w: World, n: Tenant, spec: ClaimSpec, call: BackendCall, rest: Script, c: Choice)
    requires AllAsk(n, spec, Then(call, rest))
    ensures Serve(w, call, c).0.api == w.api
  {
    hide Serve, Perform, ServeMinio, Asks;
    AskedEffect(w.minio, n, spec, call);
    ServeWorld(w, call, c);
    Performs(w, call, c);
  }

  lemma NothingLeft(m: M.Server, n: Tenant, spec: ClaimSpec)
    requires DoneOrToDo(m, n, spec, End)
    ensures Configured(m, n, spec)
  {
    hide QuotaSet, LifecycleSet, PolicySet;
  }

  // What the calls that write the claim leave behind.
  ghost predicate OnlyFinalizers(a: Api, b: Api, k: Key) {
    k in b.claims ==>
      && k in a.claims && b.claims[k].uid == a.claims[k].uid && b.claims[k].status == a.claims[k].status
      && b.claims[k].generation == a.claims[k].generation && b.claims[k].spec == a.claims[k].spec
      && b.claims[k].deleting == a.claims[k].deleting
  }

  lemma FinalizersWritten(api: Api, k: Key, x: Claim, c: Claim)
    requires Snapshot(api, k, x) && c.uid == x.uid && c.resourceVersion == x.resourceVersion && c.spec == x.spec
    ensures OnlyFinalizers(api, WriteClaim(api, k, c).0, k)
  {
  }

  lemma UpdateLeaves(api: Api, k: Key, t: C.Thread)
    requires (t.pc.AddFinalizer? || t.pc.DropFinalizer?) && Knows(api, k, t)
    ensures OnlyFinalizers(api, ServeClaims(api, C.Request(k, t)).0, k)
  {
    hide OnlyFinalizers, WriteClaim, Snapshot, Held;
    FinalizersWritten(api, k, t.claim, C.Request(k, t).claim);
  }

  lemma NoteLeaves(api: Api, k: Key, t: C.Thread)
    requires t.pc.NoteWrite? && Knows(api, k, t) && Sane(t)
    ensures var after := ServeClaims(api, C.Request(k, t)).0;
            k in after.claims ==>
              (k in api.claims && after.claims[k] == api.claims[k]) || !IsBound(after.claims[k].status)
  {
    hide Snapshot;
  }

  lemma StatusLeaves(api: Api, k: Key, t: C.Thread)
    requires t.pc.StoreStatus? && Knows(api, k, t)
    ensures var after := ServeClaims(api, C.Request(k, t)).0;
            k in after.claims ==>
              && k in api.claims
              && (|| after.claims[k] == api.claims[k]
                  || (&& api.claims[k].resourceVersion != after.claims[k].resourceVersion
                      && after.claims[k].uid == t.claim.uid
                      && after.claims[k].generation == api.claims[k].generation
                         && after.claims[k].spec == api.claims[k].spec
                      && C.UpToDate(after.claims[k])))
  {
    hide CredentialsKey;
  }

  lemma QuietLeaves(k: Key, w: World, t: C.Thread, c: Choice)
    requires !t.pc.Finished? && !t.pc.Provision? && !C.Finalizing(t.pc)
    ensures var w' := Serve(w, C.Request(k, t), c).0;
            w'.minio == w.minio && (!WritesClaim(C.Request(k, t)) ==> w'.api.claims == w.api.claims)
  {
    hide Serve, Perform, C.Request, ServeClaims;
    var call := C.Request(k, t);
    assert !OnMinio(call) by { QuietCalls(k, t); }
    Frame(w, call, c);
    ServeWorld(w, call, c);
    Performs(w, call, c);
    ReadsChangeNothing(w.api, call);
  }

  lemma QuietCalls(k: Key, t: C.Thread)
    requires !t.pc.Finished? && !t.pc.Provision? && !C.Finalizing(t.pc)
    ensures !OnMinio(C.Request(k, t))
    ensures WritesClaim(C.Request(k, t)) <==> t.pc.AddFinalizer? || t.pc.NoteWrite? || t.pc.StoreStatus?
  {
    hide CredentialsKey, C.BoundTo, C.Noted, TrimSpace;
  }

  // The claims in the world after a write of the claim.
  lemma ServedWrite(k: Key, w: World, t: C.Thread, c: Choice)
    requires !t.pc.Finished? && WritesClaim(C.Request(k, t))
    ensures var api := Serve(w, C.Request(k, t), c).0.api; api == w.api || api == ServeClaims(w.api, C.Request(k, t)).0
  {
    hide Serve, Perform, C.Request, ServeClaims;
    ServeWorld(w, C.Request(k, t), c);
    Performs(w, C.Request(k, t), c);
  }

  // Provides, for the next call of a thread that does not provision now.
  lemma ProvidesNext(cfg: Config, k: Key, bucket: string, m: M.Server, t: C.Thread, r: Reply, next: C.Thread)
    requires !t.pc.Provision? && Provides(m, TenantOf(cfg, k, bucket), t) && Arrival(cfg, k, t, r, next)
    requires NameFixed(k, bucket, t)
    ensures Provides(m, TenantOf(cfg, k, bucket), next)
  {
    hide TenantOf, Configured, DoneOrToDo, AllAsk, C.ProvisionScript, Advance, TrimmedCreds, Begins, C.Destruction,
         Complete, IsBound, Handled, GivenCreds, C.CredentialData, TrimSpace, UsesMinio, EffectiveBucketName, KeyOr,
         SecretOr, Lookup, Joined;
    if next.pc.Provision? { ScriptAsks(cfg, k, m, t.claim, t.bc, next.creds); }
  }

  lemma RestsStable(a: Api, b: Api, k: Key, u: Option<Use>)
    requires RestsOn(a, k, u) && Evolves(a, b, k) && Truthful(a, k)
    requires k in a.claims && k in b.claims && a.claims[k].uid == b.claims[k].uid ==>
               a.claims[k].status == b.claims[k].status
    ensures RestsOn(b, k, u)
  {
  }

  // Finalization: the claim is going.
  lemma GenerationFinal(cfg: Config, k: Key, n: Tenant, w: World, t: C.Thread, c: Choice, u: Option<Use>,
                        next: C.Thread)
    requires C.Finalizing(t.pc) && GenerationFine(w, k, n, t, u) && Knows(w.api, k, t) && Sane(t)
    requires Sound(w.api, k) && Truthful(w.api, k)
    requires Arrival(cfg, k, t, Serve(w, C.Request(k, t), c).1, next)
    ensures GenerationFine(Serve(w, C.Request(k, t), c).0, k, n, next, u)
  {
    hide Serve, C.Request, Configured, DoneOrToDo, AllAsk, Advance, StartingCreds, C.ProvisionScript, TrimmedCreds,
         Begins, C.Destruction, Complete, Handled, RestsOn, Truthful, ServeClaims;
    var (w', r) := Serve(w, C.Request(k, t), c);
    ServeEvolves(w, C.Request(k, t), c, k);
    if WritesClaim(C.Request(k, t)) {
      assert t.pc.DropFinalizer? by { FinalWrites(k, t); }
      UpdateLeaves(w.api, k, t);
      ServedWrite(k, w, t, c);
    }
    RestsStable(w.api, w'.api, k, u);
  }

  lemma FinalWrites(k: Key, t: C.Thread)
    requires C.Finalizing(t.pc) && WritesClaim(C.Request(k, t))
    ensures t.pc.DropFinalizer?
  {
  }

  // What the present status rests on after the thread's own step.
  function UseNext(a: Api, b: Api, k: Key, t: C.Thread, u: Option<Use>): Option<Use> {
    if t.pc.StoreStatus? && k in a.claims && k in b.claims && a.claims[k].resourceVersion != b.claims[k].resourceVersion
    then Some(UseOf(t)) else u
  }

  lemma StatusTurn(k: Key, n: Tenant, w: World, t: C.Thread, api: Api, u: Option<Use>)
    requires t.pc.StoreStatus? && GenerationFine(w, k, n, t, u) && Knows(w.api, k, t) && Sane(t)
    requires api == w.api || api == ServeClaims(w.api, C.Request(k, t)).0
    ensures RestsOn(api, k, UseNext(w.api, api, k, t, u))
    ensures ServedAsAsked(World(api, w.minio), k, n, UseNext(w.api, api, k, t, u))
  {
    hide C.Request, ServeClaims, Configured, DoneOrToDo, AllAsk;
    StatusLeaves(w.api, k, t);
  }

  lemma NoteTurn(k: Key, n: Tenant, w: World, t: C.Thread, api: Api, u: Option<Use>)
    requires t.pc.NoteWrite? && GenerationFine(w, k, n, t, u) && Knows(w.api, k, t) && Sane(t)
    requires api == w.api || api == ServeClaims(w.api, C.Request(k, t)).0
    ensures RestsOn(api, k, u) && ServedAsAsked(World(api, w.minio), k, n, u)
    ensures k in api.claims ==> !C.UpToDate(api.claims[k])
  {
    hide C.Request, ServeClaims, Configured, DoneOrToDo, AllAsk;
    NoteLeaves(w.api, k, t);
  }

  lemma FinalizerTurn(k: Key, n: Tenant, w: World, t: C.Thread, api: Api, u: Option<Use>)
    requires t.pc.AddFinalizer? && GenerationFine(w, k, n, t, u) && Knows(w.api, k, t)
    requires api == w.api || api == ServeClaims(w.api, C.Request(k, t)).0
    ensures RestsOn(api, k, u) && ServedAsAsked(World(api, w.minio), k, n, u)
  {
    hide C.Request, ServeClaims, Configured, DoneOrToDo, AllAsk;
    UpdateLeaves(w.api, k, t);
  }

  // Whoever goes on to work on a claim has found it not up to date.
  lemma StillBehind(cfg: Config, k: Key, a: Api, b: Api, t: C.Thread, r: Reply, next: C.Thread)
    requires Arrival(cfg, k, t, r, next) && Behind(a, k, t) && !t.pc.StoreStatus? && Faithful(b, k, t, r)
    requires !t.pc.AddFinalizer? && !t.pc.NoteWrite? ==> b.claims == a.claims
    requires t.pc.NoteWrite? && k in b.claims ==> !C.UpToDate(b.claims[k])
    ensures Behind(b, k, next)
  {
    hide Advance, C.ProvisionScript, TrimmedCreds, Begins, C.Destruction, Complete, IsBound, Handled, GivenCreds,
         StartingCreds, C.CredentialData, TrimSpace, C.UpToDate, Lookup;
  }

  lemma BehindAfterStatus(cfg: Config, k: Key, t: C.Thread, r: Reply, next: C.Thread)
    requires t.pc.StoreStatus? && Arrival(cfg, k, t, r, next)
    ensures !Unfinished(next.pc)
  {
    hide Advance, C.ProvisionScript, TrimmedCreds, Begins, C.Destruction, Complete, IsBound, Handled, GivenCreds,
         StartingCreds, C.CredentialData, TrimSpace, C.UpToDate, Lookup;
  }

  // Every other step of the thread.
  lemma GenerationWork(cfg: Config, k: Key, bucket: string, w: World, t: C.Thread, c: Choice, u: Option<Use>,
                       next: C.Thread)
    requires !t.pc.Finished? && !t.pc.Provision? && !C.Finalizing(t.pc) && NameFixed(k, bucket, t)
    requires GenerationFine(w, k, TenantOf(cfg, k, bucket), t, u) && Knows(w.api, k, t) && Sane(t) && Sound(w.api, k)
    requires var (w', r) := Serve(w, C.Request(k, t), c); Arrival(cfg, k, t, r, next) && Faithful(w'.api, k, t, r)
    ensures var w' := Serve(w, C.Request(k, t), c).0;
            GenerationFine(w', k, TenantOf(cfg, k, bucket), next, UseNext(w.api, w'.api, k, t, u))
  {
    hide Serve, C.Request, TenantOf, Arrival, RestsOn, ServedAsAsked, Provides, Behind, Knows, Sane, Sound, ServeClaims,
         NameFixed;
    var (w', r) := Serve(w, C.Request(k, t), c);
    var n := TenantOf(cfg, k, bucket);
    QuietLeaves(k, w, t, c);
    QuietCalls(k, t);
    ProvidesNext(cfg, k, bucket, w.minio, t, r, next);
    if WritesClaim(C.Request(k, t)) { ServedWrite(k, w, t, c); }
    assert w' == World(w'.api, w.minio);
    if t.pc.StoreStatus? {
      StatusTurn(k, n, w, t, w'.api, u);
      BehindAfterStatus(cfg, k, t, r, next);
      NotUnfinished(w'.api, k, next);
    } else if t.pc.NoteWrite? {
      NoteTurn(k, n, w, t, w'.api, u);
      StillBehind(cfg, k, w.api, w'.api, t, r, next);
    } else if t.pc.AddFinalizer? {
      FinalizerTurn(k, n, w, t, w'.api, u);
      StillBehind(cfg, k, w.api, w'.api, t, r, next);
    } else {
      SameClaims(w, w', k, n, u);
      StillBehind(cfg, k, w.api, w'.api, t, r, next);
    }
  }

  lemma NotUnfinished(api: Api, k: Key, t: C.Thread)
    requires !Unfinished(t.pc)
    ensures Behind(api, k, t)
  {
  }

  lemma SameClaims(a: World, b: World, k: Key, n: Tenant, u: Option<Use>)
    requires b.api.claims == a.api.claims && b.minio == a.minio && RestsOn(a.api, k, u) && ServedAsAsked(a, k, n, u)
    ensures RestsOn(b.api, k, u) && ServedAsAsked(b, k, n, u)
  {
  }

  /* Runs */

  // The hypothesis about one claim in one step: its name is fixed, MinIO serves it, and nobody else
  // reconfigures or removes its bucket or rewrites its policy.
  ghost predicate Unmeddled(cfg: Config, s: System, a: Action, k: Key, bucket: string) {
    && NameFixed(k, bucket, ClaimThread(s, k))
    && (Issued(s, a).Some? && !(a.StepClaim? && a.key == k) ==>
          LeavesConfig(Issued(s, a).value, TenantOf(cfg, k, bucket)))
  }

  ghost predicate GenerationInv(cfg: Config, s: System, k: Key, bucket: string, u: Option<Use>) {
    GenerationFine(s.world, k, TenantOf(cfg, k, bucket), ClaimThread(s, k), u)
  }

  lemma OwnGenerationTurn(cfg: Config, s: System, a: Action, bucket: string, u: Option<Use>)
    requires a.StepClaim? && Issued(s, a).Some? && ClaimFine(s, a.key)
    requires GenerationInv(cfg, s, a.key, bucket, u) && NameFixed(a.key, bucket, ClaimThread(s, a.key))
    ensures GenerationInv(cfg, Apply(cfg, s, a), a.key, bucket, NextUse(s, a, a.key, u))
  {
    hide Apply, ClaimThread, Serve, C.Resume, C.Request, TenantOf, Arrival, GenerationFine, Knows, Sane, Sound,
         Truthful, NameFixed, Faithful;
    var k, t, c, n := a.key, ClaimThread(s, a.key), a.choice, TenantOf(cfg, a.key, bucket);
    assert Issued(s, a).value == C.Request(k, t);
    var (w', r) := Serve(s.world, C.Request(k, t), c);
    var next := C.Resume(cfg, k, t, r);
    Arrives(cfg, k, t, r);
    if t.pc.Provision? { ProvisionCall(k, t); GenerationProvision(cfg, k, n, s.world, t, c, u, next); }
    else if C.Finalizing(t.pc) { GenerationFinal(cfg, k, n, s.world, t, c, u, next); }
    else {
      OwnFaithful(k, s.world, t, c);
      GenerationWork(cfg, k, bucket, s.world, t, c, u, next);
    }
    ThreadOf(cfg, s, a, k);
    WorldOf(cfg, s, a);
  }

  lemma OwnFaithful(k: Key, w: World, t: C.Thread, c: Choice)
    requires !t.pc.Finished? && !t.pc.DropFinalizer? && Sound(w.api, k) && Knows(w.api, k, t) && Sane(t)
    ensures var (w', r) := Serve(w, C.Request(k, t), c); Faithful(w'.api, k, t, r)
  {
    hide Perform, C.Request, Faithful, ServeClaims;
    if t.pc.AddFinalizer? || t.pc.NoteWrite? || t.pc.StoreStatus? {
      OwnWrite(k, w.api, t);
      WritingCall(k, t);
      Performs(w, C.Request(k, t), c);
      RefusalIsFaithful(w.api, k, t, Serve(w, C.Request(k, t), c).1);
      RefusalIsFaithful(ServeClaims(w.api, C.Request(k, t)).0, k, t, Serve(w, C.Request(k, t), c).1);
    } else {
      ReadingCall(k, t);
      OwnRead(k, w, t, c);
      RefusalIsFaithful(w.api, k, t, Serve(w, C.Request(k, t), c).1);
      RefusalIsFaithful(Perform(w, C.Request(k, t), c).0.api, k, t, Serve(w, C.Request(k, t), c).1);
    }
  }

  lemma WritingCall(k: Key, t: C.Thread)
    requires t.pc.AddFinalizer? || t.pc.NoteWrite? || t.pc.StoreStatus?
    ensures OnClaims(C.Request(k, t))
  {
  }

  lemma ReadingCall(k: Key, t: C.Thread)
    requires !t.pc.Finished? && !t.pc.DropFinalizer? && !t.pc.AddFinalizer? && !t.pc.NoteWrite? && !t.pc.StoreStatus?
    ensures !WritesClaim(C.Request(k, t))
  {
    hide CredentialsKey, TrimSpace;
  }

  lemma RefusalIsFaithful(api: Api, k: Key, t: C.Thread, r: Reply)
    ensures !r.ClaimIs? ==> Faithful(api, k, t, r)
  {
  }

  lemma IdleGeneration(w: World, k: Key, n: Tenant, t: C.Thread, u: Option<Use>, next: C.Thread)
    requires GenerationFine(w, k, n, t, u) && (next.pc.Finished? || next.pc.Fetch?)
    ensures GenerationFine(w, k, n, next, u)
  {
    hide RestsOn, ServedAsAsked;
  }

  lemma ElsewhereConfig(cfg: Config, s: System, a: Action, k: Key, bucket: string)
    requires Unmeddled(cfg, s, a, k, bucket) && !(a.StepClaim? && a.key == k && Issued(s, a).Some?)
    ensures SameConfig(s.world.minio, NextWorld(s, a).minio, TenantOf(cfg, k, bucket))
  {
    hide TenantOf, Issued, Serve, Others, LeavesConfig, NameFixed;
    if Issued(s, a).Some? { ServedConfig(s.world, Issued(s, a).value, a.choice, TenantOf(cfg, k, bucket)); }
  }

  lemma NoUseElsewhere(s: System, a: Action, k: Key, u: Option<Use>)
    requires !(a.StepClaim? && a.key == k && Issued(s, a).Some?)
    ensures NextUse(s, a, k, u) == u
  {
    hide NextWorld;
  }

  lemma GenerationStep(cfg: Config, s: System, a: Action, k: Key, bucket: string, u: Option<Use>)
    requires ClaimFine(s, k) && GenerationInv(cfg, s, k, bucket, u) && Unmeddled(cfg, s, a, k, bucket)
    ensures GenerationInv(cfg, Apply(cfg, s, a), k, bucket, NextUse(s, a, k, u))
  {
    hide Apply, ClaimThread, TenantOf, Issued, NextWorld, GenerationFine, Knows, Sane, Evolves, Undisturbed, SameConfig,
         NameFixed, LeavesConfig, NextUse;
    var n, t, next := TenantOf(cfg, k, bucket), ClaimThread(s, k), ClaimThread(Apply(cfg, s, a), k);
    if a.StepClaim? && a.key == k && Issued(s, a).Some? {
      OwnGenerationTurn(cfg, s, a, bucket, u);
    } else {
      WorldOf(cfg, s, a);
      ThreadOf(cfg, s, a, k);
      ElsewhereConfig(cfg, s, a, k, bucket);
      StepDisturbs(s, a, k);
      NoTurn(s, a, k);
      NoUseElsewhere(s, a, k, u);
      GenerationOthers(s.world, NextWorld(s, a), k, n, t, u);
      if next != t { IdleGeneration(NextWorld(s, a), k, n, t, u, next); }
    }
  }

  ghost predicate UnmeddledRun(cfg: Config, s: System, actions: seq<Action>, k: Key, bucket: string) {
    forall i :: 0 <= i < |actions| ==> Unmeddled(cfg, Run(cfg, s, actions[..i]), actions[i], k, bucket)
  }

  lemma UnmeddledTail(cfg: Config, s: System, actions: seq<Action>, k: Key, bucket: string)
    requires actions != [] && UnmeddledRun(cfg, s, actions, k, bucket)
    ensures Unmeddled(cfg, s, actions[0], k, bucket)
    ensures UnmeddledRun(cfg, Apply(cfg, s, actions[0]), actions[1..], k, bucket)
  {
    hide Unmeddled, Apply;
    assert actions[..0] == [] && Run(cfg, s, actions[..0]) == s;
    forall i | 0 <= i < |actions[1..]|
      ensures Unmeddled(cfg, Run(cfg, Apply(cfg, s, actions[0]), actions[1..][..i]), actions[1..][i], k, bucket)
    {
      assert actions[..i + 1][0] == actions[0] && actions[..i + 1][1..] == actions[1..][..i];
      assert Run(cfg, s, actions[..i + 1]) == Run(cfg, Apply(cfg, s, actions[0]), actions[1..][..i]);
      assert Unmeddled(cfg, Run(cfg, s, actions[..i + 1]), actions[i + 1], k, bucket);
    }
  }

  lemma {:induction false} GenerationRun(cfg: Config, s: System, actions: seq<Action>, k: Key, bucket: string,
                                         u: Option<Use>)
    requires ClaimFine(s, k) && GenerationInv(cfg, s, k, bucket, u) && UnmeddledRun(cfg, s, actions, k, bucket)
    ensures GenerationInv(cfg, Run(cfg, s, actions), k, bucket, UseAfter(cfg, s, actions, k, u))
    decreases |actions|
  {
    hide Apply, ClaimFine, GenerationInv, UnmeddledRun, Unmeddled, NextUse;
    if actions != [] {
      UnmeddledTail(cfg, s, actions, k, bucket);
      GenerationStep(cfg, s, actions[0], k, bucket, u);
      FineStep(cfg, s, actions[0], k);
      GenerationRun(cfg, Apply(cfg, s, actions[0]), actions[1..], k, bucket, NextUse(s, actions[0], k, u));
    }
  }

  lemma GenerationStart(cfg: Config, s: System, k: Key, bucket: string)
    requires Initial(s)
    ensures GenerationInv(cfg, s, k, bucket, None)
  {
    hide TenantOf;
  }

  /** Generation tracking, in every reachable state: a bound status rests on a reading of this very claim that is
      no newer than the generation it shows; and if the claim is up to date on a reading of its current generation
      - no edit having landed between the two reads - its bucket, quota, lifecycle and policy are those of its spec. */
  lemma UpToDateMeansConfigured(cfg: Config, s: System, actions: seq<Action>, k: Key, bucket: string)
    requires Initial(s) && UnmeddledRun(cfg, s, actions, k, bucket)
    ensures var w, u := Run(cfg, s, actions).world, UseAfter(cfg, s, actions, k, None);
            RestsOn(w.api, k, u) && ServedAsAsked(w, k, TenantOf(cfg, k, bucket), u)
  {
    GenerationStart(cfg, s, k, bucket);
    InitialInv(s);
    assert ClaimFine(s, k);
    hide ClaimFine, UnmeddledRun, Initial, RestsOn, ServedAsAsked, Provides, Behind, TenantOf, Apply, NextUse;
    GenerationRun(cfg, s, actions, k, bucket, None);
  }

  /** From then on nothing happens: an activation for a claim that is up to date issues one call and writes nothing. */
  lemma UpToDateIsLeftAlone(cfg: Config, k: Key, w: World, plan: nat -> Choice, n: nat)
    requires k in w.api.claims && C.UpToDate(w.api.claims[k])
    requires !w.api.claims[k].deleting && ClaimFinalizer in w.api.claims[k].finalizers
    ensures var o := C.RunAlone(cfg, k, w, C.START, plan, n); o.world == w && o.calls == n + 1
  {
    hide C.ResumeProvision, C.ResumeFinal, ServeSecrets, ServeAccesses, ServeCosi, ServeMinio, ReplyOnly;
    var (w', r) := Serve(w, GetClaim(k), plan(n));
    assert w' == w && (r == ClaimIs(w.api.claims[k]) || r.Refused?);
    var next := C.Resume(cfg, k, C.START, r);
    assert next.pc.Finished?;
  }

  // Whoever publishes writes the generation of its second read, whatever was read first, so that the claim is up to
  // date afterwards (SlippedEdits says on what).
  lemma PublishesSecondRead(cfg: Config, k: Key, w: World, t: C.Thread, c: Choice, d: Choice)
    requires t.pc.Refetch? && Knows(w.api, k, t) && c.fate.Works? && d.fate.Works?
    ensures var (w1, t1) := C.Step(cfg, k, w, t, c);
            && t1.pc.StoreStatus?
            && var w2 := C.Step(cfg, k, w1, t1, d).0;
               && k in w2.api.claims && C.UpToDate(w2.api.claims[k]) && w2.api.claims[k].spec == w.api.claims[k].spec
               && w2.minio == w.minio
               && (UseOf(t1).generation == w2.api.claims[k].generation
                   <==> t.claim.generation == w.api.claims[k].generation)
  {
    hide C.ResumeAdmission, C.ResumeFinal, ServeSecrets, ServeAccesses, ServeCosi, ServeMinio, ReplyOnly, C.GotCosi,
         C.Provisioned, C.GotSecret, C.StoredSecret, Snapshot, TrimSpace, CredentialsKey;
    var (w1, t1) := C.Step(cfg, k, w, t, c);
    assert w1 == w && t1 == t.(pc := C.StoreStatus(w.api.claims[k]));
  }
}
