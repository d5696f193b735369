/** Every interleaving of ProviderForClass calls with object updates: the cache is invisible. */
module ResolverRuns {
  import opened Text
  import opened Resolver

  // How far a call has come. Objects are read outside the lock, so the store may move on in between.
  datatype Stage =
    | Begin
    | WithSecret(read: Object)
    | Ready(secret: Object, policy: Option<Object>)
    | Returned(usedSecret: Option<Object>, usedPolicy: Option<Object>, outcome: Outcome)

  datatype Call = Call(bc: Class, stage: Stage)

  // What a cache entry was built from (history only; no step looks at it).
  datatype Origin = Origin(bc: Class, secret: Object, policy: Option<Object>)

  datatype Version = Version(key: ObjectKey, resourceVersion: string)

  datatype System = System(
    objects: map<ObjectKey, Object>,
    versions: map<Version, Data>,       // every version that ever existed
    cache: Cache,
    awsCache: Cache,
    origins: map<string, Origin>,
    awsOrigins: map<string, Origin>,
    calls: map<nat, Call>)

  const START := System(map[], map[], map[], map[], map[], map[], map[])

  datatype Action =
    | PutObject(key: ObjectKey, obj: Object)
    | DeleteObject(key: ObjectKey)
    | Invoke(id: nat, bc: Class)
    | Step(id: nat)

  // What the API server lets in: legal names, and a resourceVersion this object never had before.
  predicate Acceptable(sys: System, key: ObjectKey, obj: Object) {
    && LegalName(key.namespace) && LegalName(key.name) && LegalVersion(obj.resourceVersion)
    && (forall k | k in obj.data :: LegalDataKey(k))
    && Version(key, obj.resourceVersion) !in sys.versions
  }

  function Apply(env: Env, sys: System, a: Action): System {
    match a
    case PutObject(key, obj) =>
      if !Acceptable(sys, key, obj) then sys
      else sys.(objects := sys.objects[key := obj],
                versions := sys.versions[Version(key, obj.resourceVersion) := obj.data])
    case DeleteObject(key) => sys.(objects := sys.objects - {key})
    case Invoke(id, bc) => if id in sys.calls then sys else sys.(calls := sys.calls[id := Call(bc, Begin)])
    case Step(id) => if id in sys.calls then StepCall(env, sys, id) else sys
  }

  function Get(sys: System, key: ObjectKey): Option<Object> {
    if key in sys.objects then Some(sys.objects[key]) else None
  }

  function StepCall(env: Env, sys: System, id: nat): System
    requires id in sys.calls
  {
    var bc := sys.calls[id].bc;
    match sys.calls[id].stage
    case Begin => sys.(calls := sys.calls[id := Call(bc, AfterFirstRead(env, sys, bc))])
    case WithSecret(secret) =>
      if !WantsPolicy(bc) then sys else
      var policy := Get(sys, PolicyObjectKey(bc));
      var v := PolicyVerdict(env, bc, policy);
      var next := if v.Some? then Returned(Some(secret), policy, Fails(v.value)) else Ready(secret, policy);
      sys.(calls := sys.calls[id := Call(bc, next)])
    case Ready(secret, policy) => Locked(env, sys, id, bc, secret, policy)
    case Returned(_, _, _) => sys
  }

  function AfterFirstRead(env: Env, sys: System, bc: Class): Stage {
    var first := ClassVerdict(env, bc);
    if first.Some? then Returned(None, None, first.value)
    else if UsesMinio(bc) then
      var secret := Get(sys, MinioSecretKey(bc));
      var v := MinioSecretVerdict(env, secret);
      if v.Some? then Returned(secret, None, Fails(v.value)) else Ready(secret.value, None)
    else
      var secret := Get(sys, AwsSecretKey(bc));
      var v := AwsSecretVerdict(bc, secret);
      if v.Some? then Returned(secret, None, Fails(v.value))
      else if WantsPolicy(bc) then WithSecret(secret.value) else Ready(secret.value, None)
  }

  // The critical section: one atomic step, since the caches sit behind mutexes.
  function Locked(env: Env, sys: System, id: nat, bc: Class, secret: Object, policy: Option<Object>): System {
    var built := Build(env, bc, Some(secret), policy);
    var origin := Origin(bc, secret, policy);
    if UsesMinio(bc) && Named(bc.minioRef) then
      var key := MinioCacheKey(bc);
      var (cache, r) := LookUp(sys.cache, key, secret.resourceVersion, built);
      sys.(cache := cache, origins := if cache == sys.cache then sys.origins else sys.origins[key := origin],
           calls := sys.calls[id := Call(bc, Returned(Some(secret), policy, r))])
    else if !UsesMinio(bc) && Named(bc.awsRef) then
      var key := AwsCacheKey(bc);
      var (cache, r) := LookUp(sys.awsCache, key, CombinedVersion(secret, policy), built);
      sys.(awsCache := cache,
           awsOrigins := if cache == sys.awsCache then sys.awsOrigins else sys.awsOrigins[key := origin],
           calls := sys.calls[id := Call(bc, Returned(Some(secret), policy, r))])
    else sys
  }

  function Run(env: Env, sys: System, actions: seq<Action>): System
    decreases |actions|
  {
    if actions == [] then sys
    else Apply(env, Run(env, sys, actions[..|actions| - 1]), actions[|actions| - 1])
  }

  /* The invariant */

  type Versions = map<Version, Data>

  predicate Existed(versions: Versions, key: ObjectKey, obj: Object) {
    && LegalName(key.namespace) && LegalName(key.name) && LegalVersion(obj.resourceVersion)
    && (forall k | k in obj.data :: LegalDataKey(k))
    && Version(key, obj.resourceVersion) in versions
    && versions[Version(key, obj.resourceVersion)] == obj.data
  }

  // A MinIO class together with a version of its Secret that existed and parses.
  predicate MinioInput(env: Env, versions: Versions, bc: Class, secret: Object) {
    && UsesMinio(bc) && ClassVerdict(env, bc).None?
    && Existed(versions, MinioSecretKey(bc), secret)
    && MinioSecretVerdict(env, Some(secret)).None?
  }

  predicate AwsInput(env: Env, versions: Versions, bc: Class, secret: Object) {
    && !UsesMinio(bc) && ClassVerdict(env, bc).None?
    && Existed(versions, AwsSecretKey(bc), secret)
    && AwsSecretVerdict(bc, Some(secret)).None?
  }

  predicate PolicyInput(env: Env, versions: Versions, bc: Class, policy: Option<Object>) {
    if WantsPolicy(bc) then
      policy.Some? && Existed(versions, PolicyObjectKey(bc), policy.value) && PolicyVerdict(env, bc, policy).None?
    else policy.None?
  }

  predicate StageOk(env: Env, versions: Versions, bc: Class, stage: Stage) {
    match stage
    case Begin => true
    case WithSecret(secret) => AwsInput(env, versions, bc, secret) && WantsPolicy(bc)
    case Ready(secret, policy) =>
      || (MinioInput(env, versions, bc, secret) && policy.None?)
      || (AwsInput(env, versions, bc, secret) && PolicyInput(env, versions, bc, policy))
    case Returned(secret, policy, outcome) =>
      outcome == Build(env, bc, secret, policy) && WereRead(versions, bc, secret, policy)
  }

  // The objects a call used are versions that its class's references did have.
  predicate WereRead(versions: Versions, bc: Class, secret: Option<Object>, policy: Option<Object>) {
    && (secret.Some? ==>
          if UsesMinio(bc) then Named(bc.minioRef) && Existed(versions, MinioSecretKey(bc), secret.value)
          else Named(bc.awsRef) && Existed(versions, AwsSecretKey(bc), secret.value))
    && (policy.Some? ==> WantsPolicy(bc) && Existed(versions, PolicyObjectKey(bc), policy.value))
  }

  predicate MinioEntryOk(env: Env, versions: Versions, key: string, entry: Entry, o: Origin) {
    && MinioInput(env, versions, o.bc, o.secret) && key == MinioCacheKey(o.bc)
    && entry.resourceVersion == o.secret.resourceVersion
    && Provides(entry.provider) == Build(env, o.bc, Some(o.secret), None)
  }

  predicate AwsEntryOk(env: Env, versions: Versions, key: string, entry: Entry, o: Origin) {
    && AwsInput(env, versions, o.bc, o.secret) && PolicyInput(env, versions, o.bc, o.policy) && key == AwsCacheKey(o.bc)
    && entry.resourceVersion == CombinedVersion(o.secret, o.policy)
    && Provides(entry.provider) == Build(env, o.bc, Some(o.secret), o.policy)
  }

  predicate ObjectsExisted(versions: Versions, objects: map<ObjectKey, Object>) {
    forall key | key in objects :: Existed(versions, key, objects[key])
  }

  predicate CallsOk(env: Env, versions: Versions, calls: map<nat, Call>) {
    forall id | id in calls :: StageOk(env, versions, calls[id].bc, calls[id].stage)
  }

  predicate MinioCacheOk(env: Env, versions: Versions, cache: Cache, origins: map<string, Origin>) {
    forall key | key in cache :: key in origins && MinioEntryOk(env, versions, key, cache[key], origins[key])
  }

  predicate AwsCacheOk(env: Env, versions: Versions, cache: Cache, origins: map<string, Origin>) {
    forall key | key in cache :: key in origins && AwsEntryOk(env, versions, key, cache[key], origins[key])
  }

  predicate Inv(env: Env, sys: System) {
    && ObjectsExisted(sys.versions, sys.objects)
    && CallsOk(env, sys.versions, sys.calls)
    && MinioCacheOk(env, sys.versions, sys.cache, sys.origins)
    && AwsCacheOk(env, sys.versions, sys.awsCache, sys.awsOrigins)
  }

  // A hit serves what a build from this call's own reads would give.
  lemma MinioHit(env: Env, versions: Versions, bc: Class, secret: Object, entry: Entry, o: Origin)
    requires MinioInput(env, versions, bc, secret)
    requires MinioEntryOk(env, versions, MinioCacheKey(bc), entry, o)
    requires entry.resourceVersion == secret.resourceVersion
    ensures Provides(entry.provider) == Build(env, bc, Some(secret), None)
  {
    MinioCacheKeyInjective(bc, o.bc);
    assert MinioSecretKey(bc) == MinioSecretKey(o.bc);
  }

  lemma AwsHit(env: Env, versions: Versions, bc: Class, secret: Object, policy: Option<Object>, entry: Entry, o: Origin)
    requires AwsInput(env, versions, bc, secret) && PolicyInput(env, versions, bc, policy)
    requires AwsEntryOk(env, versions, AwsCacheKey(bc), entry, o)
    requires entry.resourceVersion == CombinedVersion(secret, policy)
    ensures Provides(entry.provider) == Build(env, bc, Some(secret), policy)
  {
    AwsInputIsLegal(env, versions, bc, secret, policy);
    AwsInputIsLegal(env, versions, o.bc, o.secret, o.policy);
    AwsCacheKeyInjective(bc, o.bc);
    CombinedVersionInjective(secret, policy, o.secret, o.policy);
    assert AwsSecretKey(bc) == AwsSecretKey(o.bc);
    assert secret == o.secret && policy == o.policy;
  }

  lemma AwsInputIsLegal(env: Env, versions: Versions, bc: Class, secret: Object, policy: Option<Object>)
    requires AwsInput(env, versions, bc, secret) && PolicyInput(env, versions, bc, policy)
    ensures LegalRef(bc.awsRef.value)
    ensures WantsPolicy(bc) ==> LegalPolicyRef(bc.policyRef.value)
  {
  }

  // The critical section returns what a build from this call's reads gives, and leaves its cache sound.
  lemma MinioSectionOk(env: Env, versions: Versions, cache: Cache, origins: map<string, Origin>, bc: Class,
                       secret: Object)
    requires MinioInput(env, versions, bc, secret) && MinioCacheOk(env, versions, cache, origins)
    ensures var built, key := Build(env, bc, Some(secret), None), MinioCacheKey(bc);
            var (cache', r) := LookUp(cache, key, secret.resourceVersion, built);
            && r == built
            && MinioCacheOk(env, versions, cache', if cache' == cache then origins
                                                   else origins[key := Origin(bc, secret, None)])
  {
    hide MinioConfigFrom, AwsConfigFrom, FirstSecretString, TrimSpace, PolicyText, PolicyKind;
    var key := MinioCacheKey(bc);
    if key in cache && cache[key].resourceVersion == secret.resourceVersion {
      MinioHit(env, versions, bc, secret, cache[key], origins[key]);
    }
  }

  lemma AwsSectionOk(env: Env, versions: Versions, cache: Cache, origins: map<string, Origin>,
                     bc: Class, secret: Object, policy: Option<Object>)
    requires AwsInput(env, versions, bc, secret) && PolicyInput(env, versions, bc, policy)
    requires AwsCacheOk(env, versions, cache, origins)
    ensures var built, key := Build(env, bc, Some(secret), policy), AwsCacheKey(bc);
            var (cache', r) := LookUp(cache, key, CombinedVersion(secret, policy), built);
            && r == built
            && AwsCacheOk(env, versions, cache', if cache' == cache then origins
                                                 else origins[key := Origin(bc, secret, policy)])
  {
    hide MinioConfigFrom, AwsConfigFrom, FirstSecretString, TrimSpace, PolicyText, PolicyKind;
    var key := AwsCacheKey(bc);
    if key in cache && cache[key].resourceVersion == CombinedVersion(secret, policy) {
      AwsHit(env, versions, bc, secret, policy, cache[key], origins[key]);
    }
  }

  // A call that returns what its own reads build fits in with all the others.
  lemma CallReturns(env: Env, sys: System, id: nat, bc: Class, secret: Object, policy: Option<Object>)
    requires CallsOk(env, sys.versions, sys.calls) && WereRead(sys.versions, bc, Some(secret), policy)
    ensures CallsOk(env, sys.versions,
                    sys.calls[id := Call(bc, Returned(Some(secret), policy, Build(env, bc, Some(secret), policy)))])
  {
  }

  lemma LockedMinioKeepsInv(env: Env, sys: System, id: nat, bc: Class, secret: Object)
    requires Inv(env, sys) && MinioInput(env, sys.versions, bc, secret)
    ensures Inv(env, Locked(env, sys, id, bc, secret, None))
  {
    MinioSectionOk(env, sys.versions, sys.cache, sys.origins, bc, secret);
    CallReturns(env, sys, id, bc, secret, None);
  }

  lemma LockedAwsKeepsInv(env: Env, sys: System, id: nat, bc: Class, secret: Object, policy: Option<Object>)
    requires Inv(env, sys) && AwsInput(env, sys.versions, bc, secret) && PolicyInput(env, sys.versions, bc, policy)
    ensures Inv(env, Locked(env, sys, id, bc, secret, policy))
  {
    AwsSectionOk(env, sys.versions, sys.awsCache, sys.awsOrigins, bc, secret, policy);
    CallReturns(env, sys, id, bc, secret, policy);
  }

  lemma LockedKeepsInv(env: Env, sys: System, id: nat)
    requires Inv(env, sys) && id in sys.calls && sys.calls[id].stage.Ready?
    ensures Inv(env, StepCall(env, sys, id))
  {
    var bc, secret, policy := sys.calls[id].bc, sys.calls[id].stage.secret, sys.calls[id].stage.policy;
    assert StageOk(env, sys.versions, bc, sys.calls[id].stage);
    if MinioInput(env, sys.versions, bc, secret) {
      LockedMinioKeepsInv(env, sys, id, bc, secret);
    } else {
      LockedAwsKeepsInv(env, sys, id, bc, secret, policy);
    }
  }

  lemma FirstReadOk(env: Env, sys: System, bc: Class)
    requires ObjectsExisted(sys.versions, sys.objects)
    ensures StageOk(env, sys.versions, bc, AfterFirstRead(env, sys, bc))
  {
  }

  lemma SecondReadOk(env: Env, sys: System, id: nat)
    requires Inv(env, sys) && id in sys.calls && sys.calls[id].stage.WithSecret?
    ensures Inv(env, StepCall(env, sys, id))
  {
    var bc := sys.calls[id].bc;
    assert StageOk(env, sys.versions, bc, sys.calls[id].stage);
    assert StageOk(env, sys.versions, bc, StepCall(env, sys, id).calls[id].stage);
  }

  lemma StepKeepsInv(env: Env, sys: System, id: nat)
    requires Inv(env, sys) && id in sys.calls
    ensures Inv(env, StepCall(env, sys, id))
  {
    match sys.calls[id].stage
    case Begin => FirstReadOk(env, sys, sys.calls[id].bc);
    case WithSecret(_) => SecondReadOk(env, sys, id);
    case Ready(_, _) => LockedKeepsInv(env, sys, id);
    case Returned(_, _, _) =>
  }

  // Recording a version that never existed before takes nothing away from what is known.
  lemma MoreVersionsStage(env: Env, versions: Versions, v: Version, data: Data, bc: Class, stage: Stage)
    requires v !in versions && StageOk(env, versions, bc, stage)
    ensures StageOk(env, versions[v := data], bc, stage)
  {
    hide MinioConfigFrom, AwsConfigFrom, FirstSecretString, TrimSpace, PolicyText, PolicyKind;
  }

  lemma MoreVersionsMinio(env: Env, versions: Versions, v: Version, data: Data, key: string, entry: Entry, o: Origin)
    requires v !in versions && MinioEntryOk(env, versions, key, entry, o)
    ensures MinioEntryOk(env, versions[v := data], key, entry, o)
  {
  }

  lemma MoreVersionsAws(env: Env, versions: Versions, v: Version, data: Data, key: string, entry: Entry, o: Origin)
    requires v !in versions && AwsEntryOk(env, versions, key, entry, o)
    ensures AwsEntryOk(env, versions[v := data], key, entry, o)
  {
  }

  lemma PutKeepsInv(env: Env, sys: System, key: ObjectKey, obj: Object)
    requires Inv(env, sys)
    ensures Inv(env, Apply(env, sys, PutObject(key, obj)))
  {
    hide StageOk, MinioEntryOk, AwsEntryOk;
    if Acceptable(sys, key, obj) {
      var v := Version(key, obj.resourceVersion);
      forall id | id in sys.calls
        ensures StageOk(env, sys.versions[v := obj.data], sys.calls[id].bc, sys.calls[id].stage)
      {
        MoreVersionsStage(env, sys.versions, v, obj.data, sys.calls[id].bc, sys.calls[id].stage);
      }
      forall k | k in sys.cache
        ensures MinioEntryOk(env, sys.versions[v := obj.data], k, sys.cache[k], sys.origins[k])
      {
        MoreVersionsMinio(env, sys.versions, v, obj.data, k, sys.cache[k], sys.origins[k]);
      }
      forall k | k in sys.awsCache
        ensures AwsEntryOk(env, sys.versions[v := obj.data], k, sys.awsCache[k], sys.awsOrigins[k])
      {
        MoreVersionsAws(env, sys.versions, v, obj.data, k, sys.awsCache[k], sys.awsOrigins[k]);
      }
    }
  }

  lemma ApplyKeepsInv(env: Env, sys: System, a: Action)
    requires Inv(env, sys)
    ensures Inv(env, Apply(env, sys, a))
  {
    match a
    case PutObject(key, obj) => PutKeepsInv(env, sys, key, obj);
    case DeleteObject(_) =>
    case Invoke(_, _) =>
    case Step(id) => if id in sys.calls { StepKeepsInv(env, sys, id); }
  }

  lemma {:induction false} RunKeepsInv(env: Env, actions: seq<Action>)
    ensures Inv(env, Run(env, START, actions))
    decreases |actions|
  {
    if actions != [] {
      RunKeepsInv(env, actions[..|actions| - 1]);
      ApplyKeepsInv(env, Run(env, START, actions[..|actions| - 1]), actions[|actions| - 1]);
    }
  }

  /** The critical section as the program runs it, on the resolver's own maps, is the step of the call that the runs
      above take: the caches afterwards and the outcome are those of the step. */
  method RunSection(state: ResolverState, env: Env, sys: System, id: nat) returns (r: Outcome)
    requires Inv(env, sys) && id in sys.calls && sys.calls[id].stage.Ready?
    requires state.cache == sys.cache && state.awsCache == sys.awsCache
    modifies state
    ensures var next, call := StepCall(env, sys, id), sys.calls[id];
            && state.cache == next.cache && state.awsCache == next.awsCache
            && next.calls == sys.calls[id := Call(call.bc, Returned(Some(call.stage.secret), call.stage.policy, r))]
  {
    hide MinioConfigFrom, AwsConfigFrom, Build, LookUp, MinioCacheKey, AwsCacheKey, CombinedVersion, ObjectsExisted,
         MinioCacheOk, AwsCacheOk;
    var bc, secret, policy := sys.calls[id].bc, sys.calls[id].stage.secret, sys.calls[id].stage.policy;
    assert StageOk(env, sys.versions, bc, sys.calls[id].stage);
    if UsesMinio(bc) {
      r := state.MinioSection(env, bc, secret);
    } else {
      r := state.AwsSection(env, bc, secret, policy);
    }
  }

  /** Under every interleaving of calls with updates and deletions of Secrets and ConfigMaps, each call that
      returns gives what the uncached resolver builds from exactly the object versions this call read. */
  lemma CachedResolverRefinesUncached(env: Env, actions: seq<Action>, id: nat)
    requires id in Run(env, START, actions).calls && Run(env, START, actions).calls[id].stage.Returned?
    ensures var call := Run(env, START, actions).calls[id];
            && call.stage.outcome == Build(env, call.bc, call.stage.usedSecret, call.stage.usedPolicy)
            && WereRead(Run(env, START, actions).versions, call.bc, call.stage.usedSecret, call.stage.usedPolicy)
  {
    RunKeepsInv(env, actions);
    var sys := Run(env, START, actions);
    assert StageOk(env, sys.versions, sys.calls[id].bc, sys.calls[id].stage);
  }
}
