/** The world outside the operator: the Kubernetes API and the storage backend, one call at a time.
    Every call may be served, lost before it takes effect, or served with the reply lost. */
module Cluster {
  import opened Text
  import opened Errors
  import opened Lifecycle
  import opened Backend
  import opened Kube
  import M = Minio

  /* The API store. One counter issues resource versions, another one uids. */

  datatype Api = Api(
    version: nat,
    uids: nat,
    claims: map<Key, Claim>,
    classes: map<string, BucketClass>,
    secrets: map<Key, Secret>,
    accesses: map<Key, Access>,
    cosiBuckets: map<string, CosiBucket>)

  datatype World = World(api: Api, minio: M.Server)

  datatype Call =
    | GetClaim(key: Key) | UpdateClaim(key: Key, claim: Claim) | PutClaimStatus(key: Key, claim: Claim)
    | GetClass(name: string) | ResolveProvider(bc: BucketClass)
    | GetSecret(key: Key) | CreateSecret(key: Key, secret: Secret) | UpdateSecret(key: Key, secret: Secret)
      | DeleteSecret(key: Key)
    | GetAccess(key: Key) | UpdateAccess(key: Key, access: Access) | PutAccessStatus(key: Key, access: Access)
    | GetCosi(name: string) | CreateCosi(name: string, bucket: CosiBucket)
      | PutCosiStatus(name: string, bucket: CosiBucket)
    | BucketExists(b: string) | MakeBucket(b: string, region: string, locking: bool)
    | SetQuota(b: string, quota: int) | SetLifecycle(b: string, rules: seq<Rule>)
      | SetReplication(b: string, target: string)
    | RemoveBucket(b: string)
    | AddUser(accessKey: string, secretKey: string) | AddPolicy(policyName: string, policy: M.Policy)
    | AttachPolicy(policyName: string, accessKey: string)
    | RemoveUser(accessKey: string) | RemovePolicy(policyName: string)
    | ForeignGrant | ForeignRevoke | ForeignDelete   // a provider other than MinIO

  datatype ResolveFailure = Missing | Unsupported | AwsCredentials | NotImplemented | OtherFailure(err: Err)

  datatype Reply =
    | Done
    | ClaimIs(claim: Claim) | ClassIs(bc: BucketClass) | SecretIs(secret: Secret)
    | AccessIs(access: Access) | CosiIs(bucket: CosiBucket)
    | Resolved | Unresolved(why: ResolveFailure)
    | Exists(yes: bool)
    | Granted(accessKey: string, secretKey: string, endpoint: string)
    | NotFound
    | Refused(err: Err)
    | RefusedAt(op: Operation, err: Err)

  datatype Fate = Works | LostRequest(err: Err) | LostReply(err: Err)

  // What a provider other than MinIO makes of a request.
  datatype Answer = Gives(accessKey: string, secretKey: string, endpoint: string) | RefusesAt(op: Operation, err: Err)

  // What the environment decides about one call. `resolution` matters when a provider is resolved (None: it
  // is found), `foreign` when a foreign provider answers.
  datatype Choice = Choice(fate: Fate, resolution: Option<ResolveFailure>, foreign: Answer)

  function Conflict(): Reply { Refused(Plain("the object has been modified", None)) }

  /* Writes to API objects: optimistic concurrency, generations and finalizers */

  // r.Update: metadata and spec. An object that is being deleted goes with its last finalizer.
  function WriteClaim(api: Api, k: Key, c: Claim): (Api, Reply) {
    if k !in api.claims then (api, NotFound)
    else
      var cur := api.claims[k];
      if cur.uid != c.uid || cur.resourceVersion != c.resourceVersion then (api, Conflict())
      else
        var next := cur.(resourceVersion := api.version + 1, finalizers := c.finalizers, spec := c.spec,
                        generation := if c.spec == cur.spec then cur.generation else cur.generation + 1);
        if next.deleting && next.finalizers == {} then
          (api.(version := api.version + 1, claims := api.claims - {k}), ClaimIs(next))
        else (api.(version := api.version + 1, claims := api.claims[k := next]), ClaimIs(next))
  }

  // r.Status().Update: the status and nothing else.
  function WriteClaimStatus(api: Api, k: Key, c: Claim): (Api, Reply) {
    if k !in api.claims then (api, NotFound)
    else
      var cur := api.claims[k];
      if cur.uid != c.uid || cur.resourceVersion != c.resourceVersion then (api, Conflict())
      else
        var next := cur.(resourceVersion := api.version + 1, status := c.status);
        (api.(version := api.version + 1, claims := api.claims[k := next]), ClaimIs(next))
  }

  function WriteAccess(api: Api, k: Key, a: Access): (Api, Reply) {
    if k !in api.accesses then (api, NotFound)
    else
      var cur := api.accesses[k];
      if cur.uid != a.uid || cur.resourceVersion != a.resourceVersion then (api, Conflict())
      else
        var next := cur.(resourceVersion := api.version + 1, finalizers := a.finalizers);
        if next.deleting && next.finalizers == {} then
          (api.(version := api.version + 1, accesses := api.accesses - {k}), AccessIs(next))
        else (api.(version := api.version + 1, accesses := api.accesses[k := next]), AccessIs(next))
  }

  function WriteAccessStatus(api: Api, k: Key, a: Access): (Api, Reply) {
    if k !in api.accesses then (api, NotFound)
    else
      var cur := api.accesses[k];
      if cur.uid != a.uid || cur.resourceVersion != a.resourceVersion then (api, Conflict())
      else
        var next := cur.(resourceVersion := api.version + 1, granted := a.granted, accountID := a.accountID);
        (api.(version := api.version + 1, accesses := api.accesses[k := next]), AccessIs(next))
  }

  function WriteSecret(api: Api, k: Key, s: Secret, create: bool): (Api, Reply) {
    if create == (k in api.secrets) then (api, if create then Refused(Plain("already exists", None)) else NotFound)
    else if !create && api.secrets[k].resourceVersion != s.resourceVersion then (api, Conflict())
    else
      var next := s.(resourceVersion := api.version + 1);
      (api.(version := api.version + 1, secrets := api.secrets[k := next]), SecretIs(next))
  }

  function WriteCosi(api: Api, name: string, b: CosiBucket, create: bool): (Api, Reply) {
    if create == (name in api.cosiBuckets) then
      (api, if create then Refused(Plain("already exists", None)) else NotFound)
    else if !create && api.cosiBuckets[name].resourceVersion != b.resourceVersion then (api, Conflict())
    else
      var kept := if create then b else api.cosiBuckets[name].(bucketReady := b.bucketReady, bucketID := b.bucketID);
      var next := kept.(resourceVersion := api.version + 1);
      (api.(version := api.version + 1, cosiBuckets := api.cosiBuckets[name := next]), CosiIs(next))
  }

  /* Serving a call */

  predicate OnClaims(call: Call) { call.GetClaim? || call.UpdateClaim? || call.PutClaimStatus? }

  predicate OnSecrets(call: Call) { call.GetSecret? || call.CreateSecret? || call.UpdateSecret? || call.DeleteSecret? }

  predicate OnAccesses(call: Call) { call.GetAccess? || call.UpdateAccess? || call.PutAccessStatus? }

  predicate OnCosi(call: Call) { call.GetCosi? || call.CreateCosi? || call.PutCosiStatus? }

  predicate OnMinio(call: Call) {
    || call.BucketExists? || call.MakeBucket? || call.SetQuota? || call.SetLifecycle? || call.SetReplication?
       || call.RemoveBucket?
    || call.AddUser? || call.AddPolicy? || call.AttachPolicy? || call.RemoveUser? || call.RemovePolicy?
  }

  predicate OnForeign(call: Call) { call.ForeignGrant? || call.ForeignRevoke? || call.ForeignDelete? }

  type BackendCall = call: Call | OnMinio(call) || OnForeign(call) witness ForeignGrant

  function ServeClaims(api: Api, call: Call): (Api, Reply)
    requires OnClaims(call)
  {
    match call
    case GetClaim(k) => (api, if k in api.claims then ClaimIs(api.claims[k]) else NotFound)
    case UpdateClaim(k, claim) => WriteClaim(api, k, claim)
    case PutClaimStatus(k, claim) => WriteClaimStatus(api, k, claim)
  }

  function ServeSecrets(api: Api, call: Call): (Api, Reply)
    requires OnSecrets(call)
  {
    match call
    case GetSecret(k) => (api, if k in api.secrets then SecretIs(api.secrets[k]) else NotFound)
    case CreateSecret(k, s) => WriteSecret(api, k, s, true)
    case UpdateSecret(k, s) => WriteSecret(api, k, s, false)
    case DeleteSecret(k) => (api.(secrets := api.secrets - {k}), if k in api.secrets then Done else NotFound)
  }

  function ServeAccesses(api: Api, call: Call): (Api, Reply)
    requires OnAccesses(call)
  {
    match call
    case GetAccess(k) => (api, if k in api.accesses then AccessIs(api.accesses[k]) else NotFound)
    case UpdateAccess(k, a) => WriteAccess(api, k, a)
    case PutAccessStatus(k, a) => WriteAccessStatus(api, k, a)
  }

  function ServeCosi(api: Api, call: Call): (Api, Reply)
    requires OnCosi(call)
  {
    match call
    case GetCosi(name) => (api, if name in api.cosiBuckets then CosiIs(api.cosiBuckets[name]) else NotFound)
    case CreateCosi(name, b) => WriteCosi(api, name, b, true)
    case PutCosiStatus(name, b) => WriteCosi(api, name, b, false)
  }

  // What a call makes of the deployment; None when it is refused.
  function Effect(m: M.Server, call: Call): Option<M.Server>
    requires OnMinio(call)
  {
    match call
    case BucketExists(_) => Some(m)
    case MakeBucket(b, region, locking) => M.MakeBucket(m, b, region, locking)
    case SetQuota(b, quota) => M.SetQuota(m, b, quota)
    case SetLifecycle(b, rules) => M.SetLifecycle(m, b, rules)
    case SetReplication(b, target) => M.SetReplication(m, b, target)
    case RemoveBucket(b) => M.RemoveBucket(m, b)
    case AddUser(ak, sk) => M.AddUser(m, ak, sk)
    case AddPolicy(pn, policy) => M.AddPolicy(m, pn, policy)
    case AttachPolicy(pn, ak) => M.AttachPolicy(m, pn, ak)
    case RemoveUser(ak) => M.RemoveUser(m, ak)
    case RemovePolicy(pn) => M.RemovePolicy(m, pn)
  }

  function ServeMinio(m: M.Server, call: Call): (M.Server, Reply)
    requires OnMinio(call)
  {
    if call.BucketExists? then (m, Exists(call.b in m.buckets))
    else
      match Effect(m, call)
      case Some(next) => (next, Done)
      case None => (m, Refused(Plain("refused by the storage server", None)))
  }

  // Calls that change nothing here: reading a class, resolving a provider, asking a foreign one.
  function ReplyOnly(api: Api, call: Call, c: Choice): Reply
    requires !OnClaims(call) && !OnSecrets(call) && !OnAccesses(call) && !OnCosi(call) && !OnMinio(call)
  {
    match call
    case GetClass(name) => if name in api.classes then ClassIs(api.classes[name]) else NotFound
    case ResolveProvider(bc) =>
      if KindOf(bc.backend).None? then Unresolved(Unsupported)
      else if c.resolution.Some? then Unresolved(c.resolution.value) else Resolved
    case ForeignGrant => Answered(c.foreign, true)
    case _ => Answered(c.foreign, false)
  }

  function Answered(a: Answer, grants: bool): Reply {
    match a
    case Gives(ak, sk, endpoint) => if grants then Granted(ak, sk, endpoint) else Done
    case RefusesAt(op, err) => RefusedAt(op, err)
  }

  function WithApi(w: World, r: (Api, Reply)): (World, Reply) { (World(r.0, w.minio), r.1) }

  function WithMinio(w: World, r: (M.Server, Reply)): (World, Reply) { (World(w.api, r.0), r.1) }

  function Perform(w: World, call: Call, c: Choice): (World, Reply) {
    if OnClaims(call) then WithApi(w, ServeClaims(w.api, call))
    else if OnSecrets(call) then WithApi(w, ServeSecrets(w.api, call))
    else if OnAccesses(call) then WithApi(w, ServeAccesses(w.api, call))
    else if OnCosi(call) then WithApi(w, ServeCosi(w.api, call))
    else if OnMinio(call) then WithMinio(w, ServeMinio(w.minio, call))
    else (w, ReplyOnly(w.api, call, c))
  }

  function Serve(w: World, call: Call, c: Choice): (World, Reply) {
    match c.fate
    case Works => Perform(w, call, c)
    case LostRequest(err) => (w, Refused(err))
    case LostReply(err) => (Perform(w, call, c).0, Refused(err))
  }

  /** The cluster as the running operator sees it: the store, the backend, and what the environment has in mind
      for the calls to come. */
  class Client {
    var api: Api
    var minio: M.Server
    const plan: nat -> Choice
    var calls: nat

    constructor (w: World, plan: nat -> Choice)
      ensures Now() == w && this.plan == plan && calls == 0
    {
      api, minio, this.plan, calls := w.api, w.minio, plan, 0;
    }

    function Now(): World
      reads this
    {
      World(api, minio)
    }

    method Issue(call: Call) returns (r: Reply)
      modifies this
      ensures (Now(), r) == Serve(old(Now()), call, plan(old(calls)))
      ensures calls == old(calls) + 1
    {
      var (w, reply) := Serve(World(api, minio), call, plan(calls));
      api, minio, calls, r := w.api, w.minio, calls + 1, reply;
    }
  }
}
