/** What a script does to a MinIO deployment, and why doing part of it before doing all of it makes no
    difference. */
module Effects {
  import opened Text
  import opened Kube
  import opened Cluster
  import opened Provisioning
  import opened Credentials
  import opened Generations
  import M = Minio

  // Serving one call, refused or not.
  function After(m: M.Server, call: Call): M.Server { if OnMinio(call) then ServeMinio(m, call).0 else m }

  function AfterAll(m: M.Server, todo: Script): M.Server
    decreases todo
  {
    if todo.End? then m else AfterAll(After(m, todo.call), todo.rest)
  }

  // Equal, except that the replication of `b`, which is only ever tried, may differ.
  ghost predicate Alike(a: M.Server, c: M.Server, b: string) {
    && a.users == c.users && a.policies == c.policies && a.attached == c.attached
    && (forall x :: x in a.buckets <==> x in c.buckets)
    && (forall x :: x in a.buckets && x != b ==> a.buckets[x] == c.buckets[x])
    && (b in a.buckets ==> SameBucket(a.buckets[b], c.buckets[b]))
  }

  predicate SameBucket(x: M.Bucket, y: M.Bucket) {
    x.region == y.region && x.locking == y.locking && x.quota == y.quota && x.lifecycle == y.lifecycle
      && x.empty == y.empty
  }

  // What provisioning is for.
  datatype Aim = Aim(tenant: Tenant, spec: ClaimSpec, region: string, locking: bool)

  function Dressed(x: M.Bucket, spec: ClaimSpec): M.Bucket {
    x.(quota := if WantsQuota(spec) then spec.quotaBytes else x.quota,
       lifecycle := if |spec.lifecycleRules| > 0 then Rules(spec.lifecycleRules) else x.lifecycle)
  }

  function BucketOr(m: M.Server, g: Aim): M.Bucket {
    if g.tenant.bucket in m.buckets then m.buckets[g.tenant.bucket]
    else M.Bucket(g.region, g.locking, None, [], None, true)
  }

  /** The deployment that provisioning aims at, from any deployment. */
  function Goal(m: M.Server, g: Aim): M.Server {
    var n := g.tenant;
    M.Server(m.buckets[n.bucket := Dressed(BucketOr(m, g), g.spec)],
             m.users[n.accessKey := n.secretKey],
             m.policies[n.policy := PolicyOf(n.bucket, g.spec)],
             m.attached[n.accessKey := n.policy])
  }

  // A call of the provisioning script.
  predicate IsPart(g: Aim, call: Call) {
    var n := g.tenant;
    match call
    case BucketExists(b) => b == n.bucket
    case MakeBucket(b, region, locking) => b == n.bucket && region == g.region && locking == g.locking
    case SetQuota(b, q) => b == n.bucket && WantsQuota(g.spec) && g.spec.quotaBytes == Some(q)
    case SetLifecycle(b, rules) => b == n.bucket && |g.spec.lifecycleRules| > 0 && rules == Rules(g.spec.lifecycleRules)
    case SetReplication(b, _) => b == n.bucket
    case AddUser(ak, sk) => ak == n.accessKey && sk == n.secretKey
    case AddPolicy(policy, p) => policy == n.policy && p == PolicyOf(n.bucket, g.spec)
    case AttachPolicy(policy, ak) => policy == n.policy && ak == n.accessKey
    case _ => false
  }

  predicate AllParts(g: Aim, todo: Script) { todo.Then? ==> IsPart(g, todo.call) && AllParts(g, todo.rest) }

  // A call about the bucket changes nothing, or the bucket to one that is dressed alike.
  lemma BucketCall(m: M.Server, g: Aim, call: Call)
    requires IsPart(g, call) && !call.AddUser? && !call.AddPolicy? && !call.AttachPolicy?
    ensures var m', b := After(m, call), g.tenant.bucket;
            || m' == m
            || (&& b in m'.buckets && m' == m.(buckets := m.buckets[b := m'.buckets[b]])
                && SameBucket(Dressed(m'.buckets[b], g.spec), Dressed(BucketOr(m, g), g.spec)))
  {
    hide Rules;
  }

  lemma BucketChanged(m: M.Server, g: Aim, x: M.Bucket)
    requires SameBucket(Dressed(x, g.spec), Dressed(BucketOr(m, g), g.spec))
    ensures Alike(Goal(m.(buckets := m.buckets[g.tenant.bucket := x]), g), Goal(m, g), g.tenant.bucket)
  {
    hide Dressed, PolicyOf;
  }

  lemma BucketCallAbsorbed(m: M.Server, g: Aim, call: Call)
    requires IsPart(g, call) && !call.AddUser? && !call.AddPolicy? && !call.AttachPolicy?
    ensures Alike(Goal(After(m, call), g), Goal(m, g), g.tenant.bucket)
  {
    hide Goal, After, IsPart, Alike, SameBucket, Dressed;
    BucketCall(m, g, call);
    AlikeItself(Goal(m, g), g.tenant.bucket);
    var m', b := After(m, call), g.tenant.bucket;
    if m' != m { BucketChanged(m, g, m'.buckets[b]); }
  }

  lemma AccessCallAbsorbed(m: M.Server, g: Aim, call: Call)
    requires IsPart(g, call) && (call.AddUser? || call.AddPolicy? || call.AttachPolicy?)
    ensures Goal(After(m, call), g) == Goal(m, g)
  {
    hide Rules, PolicyOf, Dressed;
    assert m.users[g.tenant.accessKey := g.tenant.secretKey][g.tenant.accessKey := g.tenant.secretKey]
           == m.users[g.tenant.accessKey := g.tenant.secretKey];
  }

  /** Any part of provisioning done in advance is absorbed: the goal stays the same. */
  lemma GoalAbsorbs(m: M.Server, g: Aim, call: Call)
    requires IsPart(g, call)
    ensures Alike(Goal(After(m, call), g), Goal(m, g), g.tenant.bucket)
  {
    hide Goal, After, IsPart, Alike;
    if call.AddUser? || call.AddPolicy? || call.AttachPolicy? {
      AccessCallAbsorbed(m, g, call);
      AlikeItself(Goal(m, g), g.tenant.bucket);
    } else {
      BucketCallAbsorbed(m, g, call);
    }
  }

  lemma AlikeItself(m: M.Server, b: string)
    ensures Alike(m, m, b)
  {
  }

  lemma AlikeTrans(a: M.Server, c: M.Server, d: M.Server, b: string)
    requires Alike(a, c, b) && Alike(c, d, b)
    ensures Alike(a, d, b)
  {
  }

  lemma AlikeAfter(a: M.Server, c: M.Server, g: Aim, call: Call)
    requires Alike(a, c, g.tenant.bucket) && IsPart(g, call)
    ensures Alike(After(a, call), After(c, call), g.tenant.bucket)
  {
    hide Alike, After;
    if call.AddUser? || call.AddPolicy? || call.AttachPolicy? { AlikeAfterGrant(a, c, g, call); }
    else { AlikeAfterBucket(a, c, g, call); }
  }

  lemma AlikeAfterGrant(a: M.Server, c: M.Server, g: Aim, call: Call)
    requires Alike(a, c, g.tenant.bucket) && (call.AddUser? || call.AddPolicy? || call.AttachPolicy?)
    ensures Alike(After(a, call), After(c, call), g.tenant.bucket)
  {
  }

  lemma AlikeAfterBucket(a: M.Server, c: M.Server, g: Aim, call: Call)
    requires Alike(a, c, g.tenant.bucket) && IsPart(g, call) && !call.AddUser? && !call.AddPolicy?
    requires !call.AttachPolicy?
    ensures Alike(After(a, call), After(c, call), g.tenant.bucket)
  {
    hide Rules, PolicyOf;
  }

  /* The whole script reaches the goal */

  lemma {:induction false} AlikeAfterAll(a: M.Server, c: M.Server, g: Aim, todo: Script)
    requires Alike(a, c, g.tenant.bucket) && AllParts(g, todo)
    ensures Alike(AfterAll(a, todo), AfterAll(c, todo), g.tenant.bucket)
    decreases todo
  {
    hide Alike, IsPart, After;
    if todo.Then? {
      AlikeAfter(a, c, g, todo.call);
      AlikeAfterAll(After(a, todo.call), After(c, todo.call), g, todo.rest);
    }
  }

  // The replication call is the one whose fate does not matter.
  lemma ReplicationIsOptional(m: M.Server, g: Aim, call: Call)
    requires IsPart(g, call) && call.SetReplication?
    ensures Alike(After(m, call), m, g.tenant.bucket)
  {
  }

  function GrantPart(g: Aim): Script {
    var n := g.tenant;
    Then(AddUser(n.accessKey, n.secretKey),
         Then(AddPolicy(n.policy, PolicyOf(n.bucket, g.spec)), Then(AttachPolicy(n.policy, n.accessKey), End)))
  }

  function AimScript(g: Aim): Script {
    var b := g.tenant.bucket;
    Then(BucketExists(b), Then(MakeBucket(b, g.region, g.locking), QuotaScript(b, g.spec, GrantPart(g))))
  }

  // After the bucket's part, with the bucket as `x`.
  function WithBucket(m: M.Server, b: string, x: M.Bucket): M.Server { m.(buckets := m.buckets[b := x]) }

  lemma GrantPartReaches(m: M.Server, g: Aim)
    ensures var n, m' := g.tenant, AfterAll(m, GrantPart(g));
            m' == M.Server(m.buckets, m.users[n.accessKey := n.secretKey],
                           m.policies[n.policy := PolicyOf(n.bucket, g.spec)],
                           m.attached[n.accessKey := n.policy])
  {
    hide PolicyOf;
    var n := g.tenant;
    var m1 := After(m, AddUser(n.accessKey, n.secretKey));
    var m2 := After(m1, AddPolicy(n.policy, PolicyOf(n.bucket, g.spec)));
    var m3 := After(m2, AttachPolicy(n.policy, n.accessKey));
    assert AfterAll(m3, End) == m3;
    assert AfterAll(m2, Then(AttachPolicy(n.policy, n.accessKey), End)) == m3;
  }

  // The bucket's configuration, step by step.
  function QuotaDone(m: M.Server, g: Aim): M.Server {
    if WantsQuota(g.spec) then After(m, Call.SetQuota(g.tenant.bucket, g.spec.quotaBytes.value)) else m
  }

  function LifecycleDone(m: M.Server, g: Aim): M.Server {
    if |g.spec.lifecycleRules| > 0 then After(m, Call.SetLifecycle(g.tenant.bucket, Rules(g.spec.lifecycleRules)))
    else m
  }

  function ReplicationDone(m: M.Server, g: Aim): M.Server {
    if g.spec.replicationTarget.Some? then After(m, SetReplication(g.tenant.bucket, g.spec.replicationTarget.value))
    else m
  }

  lemma ConfigIsStepwise(m: M.Server, g: Aim, rest: Script)
    ensures AfterAll(m, QuotaScript(g.tenant.bucket, g.spec, rest))
            == AfterAll(ReplicationDone(LifecycleDone(QuotaDone(m, g), g), g), rest)
  {
    hide After, Rules;
    var b, spec := g.tenant.bucket, g.spec;
    var m1 := QuotaDone(m, g);
    var m2 := LifecycleDone(m1, g);
    assert AfterAll(m, QuotaScript(b, spec, rest)) == AfterAll(m1, LifecycleScript(b, spec, rest));
    assert AfterAll(m1, LifecycleScript(b, spec, rest)) == AfterAll(m2, ReplicationScript(b, spec, rest));
    assert AfterAll(m2, ReplicationScript(b, spec, rest)) == AfterAll(ReplicationDone(m2, g), rest);
  }

  lemma ConfigDresses(m: M.Server, g: Aim)
    requires g.tenant.bucket in m.buckets
    ensures var b := g.tenant.bucket;
            LifecycleDone(QuotaDone(m, g), g) == WithBucket(m, b, Dressed(m.buckets[b], g.spec))
  {
    hide Rules;
  }

  lemma ConfigReaches(m: M.Server, g: Aim)
    requires g.tenant.bucket in m.buckets
    ensures var n := g.tenant;
            Alike(AfterAll(m, QuotaScript(n.bucket, g.spec, GrantPart(g))),
                  AfterAll(WithBucket(m, n.bucket, Dressed(m.buckets[n.bucket], g.spec)), GrantPart(g)), n.bucket)
  {
    hide GrantPart, QuotaDone, LifecycleDone, After, Alike, Dressed, QuotaScript, WithBucket;
    var b := g.tenant.bucket;
    ConfigIsStepwise(m, g, GrantPart(g));
    ConfigDresses(m, g);
    var m2 := LifecycleDone(QuotaDone(m, g), g);
    AlikeItself(m2, b);
    if g.spec.replicationTarget.Some? {
      ReplicationIsOptional(m2, g, SetReplication(b, g.spec.replicationTarget.value));
    }
    GrantPartIsPart(g);
    AlikeAfterAll(ReplicationDone(m2, g), m2, g, GrantPart(g));
  }

  lemma GrantPartIsPart(g: Aim)
    ensures AllParts(g, GrantPart(g))
  {
    hide PolicyOf;
    assert AllParts(g, GrantPart(g).rest.rest);
  }

  /** Run to its end without a refusal, the script of a claim takes any deployment to its goal. */
  lemma ScriptReachesGoal(m: M.Server, g: Aim)
    ensures Alike(AfterAll(m, AimScript(g)), Goal(m, g), g.tenant.bucket)
  {
    hide GrantPart, Rules, Alike, QuotaScript, Dressed, PolicyOf;
    var b := g.tenant.bucket;
    var m1 := After(m, MakeBucket(b, g.region, g.locking));
    var rest := QuotaScript(b, g.spec, GrantPart(g));
    assert After(m, BucketExists(b)) == m;
    assert AfterAll(m, AimScript(g)) == AfterAll(m, Then(MakeBucket(b, g.region, g.locking), rest))
           == AfterAll(m1, rest);
    assert m1 == WithBucket(m, b, BucketOr(m, g));
    ConfigReaches(m1, g);
    assert WithBucket(m1, b, Dressed(m1.buckets[b], g.spec)) == WithBucket(m, b, Dressed(BucketOr(m, g), g.spec));
    GrantPartReaches(WithBucket(m, b, Dressed(BucketOr(m, g), g.spec)), g);
  }
}
