/** Runs observed: what each activation has learnt so far, which claims the backend holds something for, and on
    what grounds the operator let go of a claim. The observer changes nothing. */
module Memos {
  import opened Text
  import opened Kube
  import opened Cluster
  import opened Provisioning
  import opened System
  import M = Minio

  // What one activation has asked for and been told: the deletion policies read, a reason to skip finalization, the
  // class and the access key last read, the requests to revoke that were made, and the buckets that were found or
  // made absent (with a provider other than MinIO: that the one bucket was).
  datatype Memo = Memo(
    policies: set<string>,
    skips: bool,
    bc: Option<BucketClass>,
    told: string,
    asked: set<Call>,
    gone: set<string>,
    foreignGone: bool)

  const BLANK := Memo({}, false, None, "", {}, {}, false)

  predicate ReasonToSkip(why: ResolveFailure) { why.Unsupported? || why.AwsCredentials? || why.NotImplemented? }

  function Learn(m: Memo, call: Call, r: Reply): Memo {
    match call
    case GetClass(_) =>
      if r.ClassIs? then m.(policies := m.policies + {r.bc.deletionPolicy}, bc := Some(r.bc))
      else if r.NotFound? then m.(skips := true) else m
    case GetCosi(_) => if r.CosiIs? then m.(policies := m.policies + {TrimSpace(r.bucket.deletionPolicy)}) else m
    case ResolveProvider(_) => if r.Unresolved? && ReasonToSkip(r.why) then m.(skips := true) else m
    case GetSecret(_) => if r.SecretIs? then m.(told := TrimSpace(Lookup(r.secret.data, AccessKeyID))) else m
    case RemoveUser(_) => m.(asked := m.asked + {call})
    case RemovePolicy(_) => m.(asked := m.asked + {call})
    case ForeignRevoke => m.(asked := m.asked + {call})
    case MakeBucket(b, _, _) => m.(gone := m.gone - {b})
    case BucketExists(b) => if r == Exists(false) then m.(gone := m.gone + {b}) else m
    case RemoveBucket(b) => if r.Done? then m.(gone := m.gone + {b}) else m
    case ForeignDelete => if r.Done? then m.(foreignGone := true) else m
    case _ => m
  }

  // The removal of the account's user - by the key its Secret told, or else its own - and of its policy on the
  // bucket that finalization works with has been asked for.
  predicate AskedToRevoke(m: Memo, k: Key, c: Claim)
    requires m.bc.Some?
  {
    if UsesMinio(m.bc.value) then
      && RemoveUser(KeyOr(m.told, Joined(k))) in m.asked
      && RemovePolicy(M.PolicyName(FinalBucketName(k, c), Joined(k))) in m.asked
    else ForeignRevoke in m.asked
  }

  // The bucket that finalization works with is gone.
  predicate FoundGone(m: Memo, k: Key, c: Claim)
    requires m.bc.Some?
  {
    if UsesMinio(m.bc.value) then FinalBucketName(k, c) in m.gone else m.foreignGone
  }

  // What must have happened before the claim `c` loses the finalizer: a reason to skip, or a revocation that was
  // asked for and, under the policy Delete, a bucket that is gone.
  predicate Justified(m: Memo, k: Key, c: Claim) {
    || m.skips
    || (m.bc.Some? && AskedToRevoke(m, k, c) && (Deletes(m.bc.value.deletionPolicy) ==> FoundGone(m, k, c)))
  }

  // One claim in the course of time: another one under the same key has another uid.
  datatype Ref = Ref(key: Key, uid: nat)

  // What was created for a claim, by name.
  datatype Holding = Holding(buckets: set<string>, users: set<string>, policies: set<string>)

  // The claim that lost the operator's finalizer, as it was stored, and on what grounds.
  datatype Grounds = Grounds(claim: Claim, memo: Memo)

  datatype Watched = Watched(
    s: System,
    claims: map<Key, Memo>,
    driver: map<nat, Memo>,
    touched: map<Ref, Holding>,    // what was created, for each claim that anything was created for
    released: map<Ref, Grounds>)   // the grounds, for each claim that lost the operator's finalizer

  function ClaimMemo(x: Watched, k: Key): Memo { if k in x.claims then x.claims[k] else BLANK }

  function DriverMemo(x: Watched, id: nat): Memo { if id in x.driver then x.driver[id] else BLANK }

  predicate Creates(call: Call) { call.MakeBucket? || call.AddUser? || call.AddPolicy? || call.ForeignGrant? }

  ghost predicate HeldAt(api: Api, k: Key, uid: nat) {
    k in api.claims && api.claims[k].uid == uid && ClaimFinalizer in api.claims[k].finalizers
  }

  function NextClaimMemos(x: Watched, a: Action): map<Key, Memo> {
    match a
    case StartClaim(k) => if ClaimThread(x.s, k).pc.Finished? then x.claims[k := BLANK] else x.claims
    case StepClaim(k, _) =>
      if Issued(x.s, a).Some? then x.claims[k := Learn(ClaimMemo(x, k), Issued(x.s, a).value, ReplyTo(x.s, a))]
      else x.claims
    case _ => x.claims
  }

  function NextDriverMemos(x: Watched, a: Action): map<nat, Memo> {
    match a
    case StartRequest(id, _) => if RequestThread(x.s, id).pc.Finished? then x.driver[id := BLANK] else x.driver
    case StepRequest(id, _) =>
      if Issued(x.s, a).Some? then x.driver[id := Learn(DriverMemo(x, id), Issued(x.s, a).value, ReplyTo(x.s, a))]
      else x.driver
    case _ => x.driver
  }

  function WithCreated(h: Holding, call: Call): Holding {
    match call
    case MakeBucket(b, _, _) => h.(buckets := h.buckets + {b})
    case AddUser(accessKey, _) => h.(users := h.users + {accessKey})
    case AddPolicy(policyName, _) => h.(policies := h.policies + {policyName})
    case _ => h
  }

  function NextTouched(x: Watched, a: Action): map<Ref, Holding> {
    if a.StepClaim? && Issued(x.s, a).Some? && Creates(Issued(x.s, a).value) then
      var ref := Ref(a.key, ClaimThread(x.s, a.key).claim.uid);
      var held := if ref in x.touched then x.touched[ref] else Holding({}, {}, {});
      x.touched[ref := WithCreated(held, Issued(x.s, a).value)]
    else x.touched
  }

  // The step takes the finalizer of the claim that is stored under its key.
  ghost predicate Releases(s: System, a: Action) {
    && a.StepClaim? && a.key in s.world.api.claims
    && HeldAt(s.world.api, a.key, s.world.api.claims[a.key].uid)
    && !HeldAt(NextWorld(s, a).api, a.key, s.world.api.claims[a.key].uid)
  }

  // Whoever takes the finalizer away, the grounds are those of the claim's own activation.
  ghost function NextReleased(x: Watched, a: Action): map<Ref, Grounds> {
    if Releases(x.s, a) then
      var c := x.s.world.api.claims[a.key];
      x.released[Ref(a.key, c.uid) := Grounds(c, ClaimMemo(x, a.key))]
    else x.released
  }

  ghost function Watch(cfg: Config, x: Watched, a: Action): Watched {
    Watched(Apply(cfg, x.s, a), NextClaimMemos(x, a), NextDriverMemos(x, a), NextTouched(x, a), NextReleased(x, a))
  }

  ghost function WatchRun(cfg: Config, x: Watched, actions: seq<Action>): (y: Watched)
    ensures y.s == Run(cfg, x.s, actions)
    decreases |actions|
  {
    if actions == [] then x else WatchRun(cfg, Watch(cfg, x, actions[0]), actions[1..])
  }

  lemma WatchedSystem(cfg: Config, x: Watched, a: Action)
    ensures Watch(cfg, x, a).s == Apply(cfg, x.s, a)
  {
    hide Apply, NextClaimMemos, NextDriverMemos, NextTouched, NextReleased;
  }

  function Begin(s: System): Watched { Watched(s, map[], map[], map[], map[]) }
}
