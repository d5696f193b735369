/** The whole system: the cluster, at most one activation per object, driver requests, and everybody else who
    changes the cluster. A run is any sequence of actions; each call of a handler is an action of its own. */
module System {
  import opened Text
  import opened Kube
  import opened Cluster
  import opened Provisioning
  import C = ClaimMachine
  import A = AccessMachine
  import D = DriverMachine

  datatype System = System(
    world: World,
    claims: map<Key, C.Thread>,
    accesses: map<Key, A.Thread>,
    driver: map<nat, D.Thread>)

  datatype Action =
    // the operator
    | StartClaim(key: Key) | StepClaim(key: Key, choice: Choice)
    | StartAccess(key: Key) | StepAccess(key: Key, choice: Choice)
    | StartRequest(id: nat, request: D.Request) | StepRequest(id: nat, choice: Choice)
    | Crash
    // users, other controllers and the API server itself
    | CreateClaim(key: Key, spec: ClaimSpec) | EditClaim(key: Key, spec: ClaimSpec, foreign: set<string>)
      | DeleteClaim(key: Key)
    | PutClass(name: string, bc: BucketClass) | DeleteClass(name: string)
    | PutSecret(key: Key, secret: Secret) | DropSecret(key: Key)
    | CreateAccess(key: Key, claimName: string, secretName: string) | DeleteAccess(key: Key)
    | PutCosi(name: string, bucket: CosiBucket) | DropCosi(name: string)
    | FillBucket(b: string, empty: bool)

  function ClaimThread(s: System, k: Key): C.Thread {
    if k in s.claims then s.claims[k]
    else C.Thread(C.Finished(C.Success), EMPTY_CLAIM, EMPTY_CLASS, Creds("", "", "", ""))
  }

  function AccessThread(s: System, k: Key): A.Thread {
    if k in s.accesses then s.accesses[k]
    else A.Thread(A.Finished(A.Success), EMPTY_ACCESS, EMPTY_CLAIM, EMPTY_CLASS, "", "")
  }

  function RequestThread(s: System, id: nat): D.Thread {
    if id in s.driver then s.driver[id] else D.Reject(D.Success)
  }

  /* What everybody else does to the API store */

  function Born(api: Api, k: Key, spec: ClaimSpec): Api {
    if k in api.claims then api
    else api.(version := api.version + 1, uids := api.uids + 1,
              claims := api.claims[k := Claim(api.uids, api.version + 1, 1, false, {}, spec, EMPTY_STATUS)])
  }

  // Anybody may edit a spec and the finalizers of other controllers.
  function Edited(api: Api, k: Key, spec: ClaimSpec, foreign: set<string>): Api {
    if k !in api.claims then api
    else
      var c := api.claims[k];
      var others := set name | name in foreign :: Foreign(name);
      WriteClaim(api, k, c.(spec := spec, finalizers := others + c.finalizers * {ClaimFinalizer, AccessFinalizer})).0
  }

  // An object with finalizers is only marked; its generation counts the mark.
  function Doomed(api: Api, k: Key): Api {
    if k !in api.claims then api
    else
      var c := api.claims[k];
      if c.finalizers == {} then api.(version := api.version + 1, claims := api.claims - {k})
      else if c.deleting then api
      else api.(version := api.version + 1,
                claims := api.claims[k := c.(deleting := true, generation := c.generation + 1,
                                             resourceVersion := api.version + 1)])
  }

  function AccessBorn(api: Api, k: Key, claimName: string, secretName: string): Api {
    if k in api.accesses then api
    else api.(version := api.version + 1, uids := api.uids + 1,
              accesses := api.accesses[k := Access(api.uids, api.version + 1, false, {}, claimName, secretName,
                                                   false, "")])
  }

  function AccessDoomed(api: Api, k: Key): Api {
    if k !in api.accesses then api
    else
      var a := api.accesses[k];
      if a.finalizers == {} then api.(version := api.version + 1, accesses := api.accesses - {k})
      else if a.deleting then api
      else api.(version := api.version + 1,
                accesses := api.accesses[k := a.(deleting := true, resourceVersion := api.version + 1)])
  }

  function Others(api: Api, a: Action): Api {
    match a
    case CreateClaim(k, spec) => Born(api, k, spec)
    case EditClaim(k, spec, foreign) => Edited(api, k, spec, foreign)
    case DeleteClaim(k) => Doomed(api, k)
    case PutClass(name, bc) => api.(classes := api.classes[name := bc])
    case DeleteClass(name) => api.(classes := api.classes - {name})
    case PutSecret(k, secret) => api.(version := api.version + 1,
                                      secrets := api.secrets[k := secret.(resourceVersion := api.version + 1)])
    case DropSecret(k) => api.(secrets := api.secrets - {k})
    case CreateAccess(k, claimName, secretName) => AccessBorn(api, k, claimName, secretName)
    case DeleteAccess(k) => AccessDoomed(api, k)
    case PutCosi(name, b) => api.(version := api.version + 1,
                                  cosiBuckets := api.cosiBuckets[name := b.(resourceVersion := api.version + 1)])
    case DropCosi(name) => api.(cosiBuckets := api.cosiBuckets - {name})
    case _ => api
  }

  function Filled(w: World, b: string, empty: bool): World {
    if b !in w.minio.buckets then w
    else w.(minio := w.minio.(buckets := w.minio.buckets[b := w.minio.buckets[b].(empty := empty)]))
  }

  /* The operator */

  // The call that an action issues, if it is a step of a thread.
  function Issued(s: System, a: Action): (call: Option<Call>)
    ensures call.Some? ==> a.StepClaim? || a.StepAccess? || a.StepRequest?
  {
    match a
    case StepClaim(k, _) => if ClaimThread(s, k).pc.Finished? then None else Some(C.Request(k, ClaimThread(s, k)))
    case StepAccess(k, _) => if AccessThread(s, k).pc.Finished? then None else Some(A.Request(k, AccessThread(s, k)))
    case StepRequest(id, _) => if RequestThread(s, id).pc.Finished? then None
                               else Some(D.NextCall(RequestThread(s, id)))
    case _ => None
  }

  function NextWorld(s: System, a: Action): World {
    if Issued(s, a).Some? then Serve(s.world, Issued(s, a).value, a.choice).0
    else if a.FillBucket? then Filled(s.world, a.b, a.empty)
    else s.world.(api := Others(s.world.api, a))
  }

  function ReplyTo(s: System, a: Action): Reply
    requires Issued(s, a).Some?
  {
    Serve(s.world, Issued(s, a).value, a.choice).1
  }

  // A worker takes up a claim only when no other worker is on it; a finished activation makes room.
  function NextClaims(cfg: Config, s: System, a: Action): map<Key, C.Thread> {
    match a
    case StartClaim(k) => if ClaimThread(s, k).pc.Finished? then s.claims[k := C.START] else s.claims
    case StepClaim(k, _) =>
      if Issued(s, a).Some? then s.claims[k := C.Resume(cfg, k, ClaimThread(s, k), ReplyTo(s, a))] else s.claims
    case Crash => map[]
    case _ => s.claims
  }

  function NextAccesses(cfg: Config, s: System, a: Action): map<Key, A.Thread> {
    match a
    case StartAccess(k) => if AccessThread(s, k).pc.Finished? then s.accesses[k := A.START] else s.accesses
    case StepAccess(k, _) =>
      if Issued(s, a).Some? then s.accesses[k := A.Resume(cfg, k, AccessThread(s, k), ReplyTo(s, a))] else s.accesses
    case Crash => map[]
    case _ => s.accesses
  }

  function NextDriver(cfg: Config, s: System, a: Action): map<nat, D.Thread> {
    match a
    case StartRequest(id, req) => if RequestThread(s, id).pc.Finished? then s.driver[id := D.Start(cfg, req)]
                                  else s.driver
    case StepRequest(id, _) =>
      if Issued(s, a).Some? then s.driver[id := D.Resume(cfg, RequestThread(s, id), ReplyTo(s, a))] else s.driver
    case Crash => map[]
    case _ => s.driver
  }

  function Apply(cfg: Config, s: System, a: Action): System {
    System(NextWorld(s, a), NextClaims(cfg, s, a), NextAccesses(cfg, s, a), NextDriver(cfg, s, a))
  }

  lemma WorldOf(cfg: Config, s: System, a: Action)
    ensures Apply(cfg, s, a).world == NextWorld(s, a)
  {
    hide NextWorld, NextClaims, NextAccesses, NextDriver;
  }

  function Run(cfg: Config, s: System, actions: seq<Action>): System
    decreases |actions|
  {
    if actions == [] then s else Run(cfg, Apply(cfg, s, actions[0]), actions[1..])
  }

  // Before the operator has seen anything: no claims and no accesses yet, and no threads. Classes, secrets,
  // COSI objects and the storage server may hold anything.
  predicate Initial(s: System) {
    && s.world.api.claims == map[] && s.world.api.accesses == map[]
    && s.claims == map[] && s.accesses == map[] && s.driver == map[]
  }
}
