/** An edit of the spec that lands between the two reads of a reconcile is published as served: why
    Generations.UpToDateMeansConfigured asks for a reading of the current generation. */
module SlippedEdits {
  import opened Text
  import opened Kube
  import opened Cluster
  import opened Frames
  import opened Provisioning
  import opened ClaimFlow
  import opened ClaimInvariant
  import opened ClaimRuns
  import opened RecordedName
  import opened System
  import opened Credentials
  import opened Generations
  import opened Effects
  import opened Convergence
  import M = Minio
  import C = ClaimMachine

  const FAIR := Choice(Works, None, Gives("", "", ""))

  // On its way to the second read, with nothing gone wrong.
  predicate Heading(pc: C.Pc) {
    || C.Admitting(pc) || pc.Provision? || pc.FetchSecret? || pc.StoreSecret? || pc.Refetch?
  }

  ghost predicate UnderWay(cfg: Config, x: Case, s: System) {
    var t := ClaimThread(s, x.k);
    && ClaimFine(s, x.k) && !BoundAndStaying(s.world.api, x.k)
    && Between(cfg, x, s.world) && OnTheWay(cfg, x, s.world, t) && Smooth(cfg, x, s.world, t) && Heading(t.pc)
  }

  // The claim is up to date on the edited spec, the server as the old one asks, and the classes what they were.
  ghost predicate Slipped(cfg: Config, x: Case, before: Api, w: World, after: ClaimSpec) {
    && x.k in w.api.claims && C.UpToDate(w.api.claims[x.k]) && w.api.claims[x.k].spec == after
    && w.api.classes == before.classes
    && Alike(w.minio, Goal(x.server, AimOf(cfg, x)), BucketIn(cfg, x))
  }

  lemma StaysHeading(cfg: Config, k: Key, t: C.Thread, r: Reply, next: C.Thread)
    requires Heading(t.pc) && !t.pc.Refetch? && Arrival(cfg, k, t, r, next) && !next.pc.Finished?
    requires !C.Finalizing(next.pc)
    ensures Heading(next.pc)
  {
    hide Advance, C.ProvisionScript, StartingCreds, TrimmedCreds, Complete, C.CredentialData, C.UpToDate, Handled;
  }

  // A claim that has got everything is bound.
  lemma InPlaceIsBound(cfg: Config, x: Case, w: World)
    requires Between(cfg, x, w) && InPlace(cfg, x, w)
    ensures BoundAndStaying(w.api, x.k)
  {
    hide AimOf, Alike, Goal, OursIn, FinalCreds;
  }

  // One fair step of the claim's thread.
  lemma HeadingStep(cfg: Config, x: Case, s: System)
    requires Provisionable(cfg, x) && UnderWay(cfg, x, s) && !ClaimThread(s, x.k).pc.Refetch?
    ensures var s', t := Apply(cfg, s, StepClaim(x.k, FAIR)), ClaimThread(s, x.k);
            UnderWay(cfg, x, s') && C.Nearer(ClaimThread(s', x.k).pc, t.pc)
              && s'.world.api.classes == s.world.api.classes
  {
    hide Apply, ClaimThread, Serve, C.Request, C.Resume, Provisionable, Between, OnTheWay, Arrival, Knows, Sane, Sound,
         Truthful, C.Nearer, Serviceable, InPlace, BoundAndStaying, Evolves, Latched;
    var a, t := StepClaim(x.k, FAIR), ClaimThread(s, x.k);
    assert Issued(s, a).Some?;
    OwnTurnIs(s, a);
    ThreadOf(cfg, s, a, x.k);
    WorldOf(cfg, s, a);
    FineStep(cfg, s, a, x.k);
    AloneStep(cfg, x, s.world, t, FAIR);
    FairStep(cfg, x, s.world, t, FAIR);
    var (w', r) := Serve(s.world, C.Request(x.k, t), FAIR);
    var next := C.Resume(cfg, x.k, t, r);
    Frame(s.world, C.Request(x.k, t), FAIR);
    C.Progresses(cfg, x.k, t, r);
    Arrives(cfg, x.k, t, r);
    ServedBoundBy(x.k, s.world, t, FAIR);
    StaysUnbound(s.world.api, w'.api, x.k, t);
    if next.pc.Finished? { InPlaceIsBound(cfg, x, w'); }
    WayFacts(cfg, x, w', next);
    StaysHeading(cfg, x.k, t, r, next);
  }

  lemma StaysUnbound(a: Api, b: Api, k: Key, t: C.Thread)
    requires BoundBy(a, b, k, t) && !BoundAndStaying(a, k) && !t.pc.StoreStatus?
    ensures !BoundAndStaying(b, k)
  {
    hide IsBound;
  }

  // The hypothesis of UpToDateMeansConfigured about a step of the claim's own thread.
  lemma OwnStepIsUnmeddled(cfg: Config, x: Case, s: System)
    requires Provisionable(cfg, x) && OnTheWay(cfg, x, s.world, ClaimThread(s, x.k))
    ensures Unmeddled(cfg, s, StepClaim(x.k, FAIR), x.k, BucketIn(cfg, x))
  {
    hide ClaimThread, Issued, WayBackend, WaySecret, EffectiveBucketName, UsesMinio, Handled, TrimSpace;
  }

  lemma UnmeddledFirst(cfg: Config, s: System, a: Action, rest: seq<Action>, k: Key, bucket: string)
    requires Unmeddled(cfg, s, a, k, bucket) && UnmeddledRun(cfg, Apply(cfg, s, a), rest, k, bucket)
    ensures UnmeddledRun(cfg, s, [a] + rest, k, bucket) && Run(cfg, s, [a] + rest) == Run(cfg, Apply(cfg, s, a), rest)
  {
    hide Unmeddled, Apply;
    var all := [a] + rest;
    assert all[0] == a && all[1..] == rest;
    forall i | 0 <= i < |all| ensures Unmeddled(cfg, Run(cfg, s, all[..i]), all[i], k, bucket) {
      if i == 0 {
        assert all[..0] == [];
      } else {
        assert all[..i][0] == a && all[..i][1..] == rest[..i - 1];
        assert Unmeddled(cfg, Run(cfg, Apply(cfg, s, a), rest[..i - 1]), rest[i - 1], k, bucket);
      }
    }
  }

  /* The edit and the publication */

  lemma EditLands(s: System, k: Key, after: ClaimSpec)
    requires k in s.world.api.claims && !s.world.api.claims[k].deleting
    ensures var w := NextWorld(s, EditClaim(k, after, {}));
            && w.minio == s.world.minio && w.api.classes == s.world.api.classes
            && k in w.api.claims && w.api.claims[k].spec == after
  {
  }

  lemma OtherSteps(cfg: Config, s: System, a: Action, k: Key, bucket: string)
    requires !a.StepClaim? && !a.StepAccess? && !a.StepRequest? && !ClaimThread(s, k).pc.ReadKeys?
    ensures Unmeddled(cfg, s, a, k, bucket)
  {
  }

  // Reading the claim a second time, then writing the status on what was read.
  lemma Publication(cfg: Config, s: System, k: Key, bucket: string) returns (actions: seq<Action>)
    requires ClaimFine(s, k) && ClaimThread(s, k).pc.Refetch?
    ensures UnmeddledRun(cfg, s, actions, k, bucket)
    ensures var w := Run(cfg, s, actions).world;
            && k in w.api.claims && C.UpToDate(w.api.claims[k]) && w.api.claims[k].spec == s.world.api.claims[k].spec
            && w.minio == s.world.minio && w.api.classes == s.world.api.classes
  {
    hide Apply, ClaimThread, Serve, C.Request, C.Resume, C.UpToDate, Sane, Sound, Truthful, Snapshot, Unmeddled,
         UnmeddledRun;
    var a, t := StepClaim(k, FAIR), ClaimThread(s, k);
    var s1 := Apply(cfg, s, a);
    PublishesSecondRead(cfg, k, s.world, t, FAIR, FAIR);
    assert Issued(s, a).Some?;
    OwnTurnIs(s, a);
    ThreadOf(cfg, s, a, k);
    WorldOf(cfg, s, a);
    Frame(s.world, C.Request(k, t), FAIR);
    var t1 := ClaimThread(s1, k);
    Frame(s1.world, C.Request(k, t1), FAIR);
    assert Issued(s1, a).Some?;
    OwnTurnIs(s1, a);
    WorldOf(cfg, s1, a);
    PublishingIsUnmeddled(cfg, s, k, bucket);
    PublishingIsUnmeddled(cfg, s1, k, bucket);
    NothingIsUnmeddled(cfg, Apply(cfg, s1, a), k, bucket);
    UnmeddledFirst(cfg, s1, a, [], k, bucket);
    UnmeddledFirst(cfg, s, a, [a] + [], k, bucket);
    actions := [a] + ([a] + []);
  }

  lemma PublishingIsUnmeddled(cfg: Config, s: System, k: Key, bucket: string)
    requires !ClaimThread(s, k).pc.ReadKeys?
    ensures Unmeddled(cfg, s, StepClaim(k, FAIR), k, bucket)
  {
    hide Issued, LeavesConfig;
  }

  lemma NothingIsUnmeddled(cfg: Config, s: System, k: Key, bucket: string)
    ensures UnmeddledRun(cfg, s, [], k, bucket) && Run(cfg, s, []) == s
  {
    hide Unmeddled;
  }

  // An edit at the second read.
  lemma EditAndPublish(cfg: Config, x: Case, s: System, after: ClaimSpec) returns (actions: seq<Action>)
    requires UnderWay(cfg, x, s) && ClaimThread(s, x.k).pc.Refetch?
    ensures Slipped(cfg, x, s.world.api, Run(cfg, s, actions).world, after)
    ensures UnmeddledRun(cfg, s, actions, x.k, BucketIn(cfg, x))
  {
    hide Apply, ClaimThread, NextWorld, Between, C.UpToDate, Unmeddled, UnmeddledRun, Knows, Sane, Sound, Truthful,
         AimOf, Goal, Alike, Evolves, Latched, FinalCreds;
    var edit := EditClaim(x.k, after, {});
    assert !s.world.api.claims[x.k].deleting && x.k in s.world.api.claims by { StillThere(cfg, x, s.world); }
    EditLands(s, x.k, after);
    WorldOf(cfg, s, edit);
    FineStep(cfg, s, edit, x.k);
    Unedited(cfg, s, edit, x.k);
    OtherSteps(cfg, s, edit, x.k, BucketIn(cfg, x));
    var rest := Publication(cfg, Apply(cfg, s, edit), x.k, BucketIn(cfg, x));
    UnmeddledFirst(cfg, s, edit, rest, x.k, BucketIn(cfg, x));
    actions := [edit] + rest;
  }

  // An edit leaves the threads alone.
  lemma Unedited(cfg: Config, s: System, a: Action, k: Key)
    requires a.EditClaim?
    ensures ClaimThread(Apply(cfg, s, a), k) == ClaimThread(s, k)
  {
    hide NextWorld, NextAccesses, NextDriver;
  }

  lemma StillThere(cfg: Config, x: Case, w: World)
    requires Between(cfg, x, w)
    ensures x.k in w.api.claims && !w.api.claims[x.k].deleting
  {
    hide AimOf, Alike, Goal, InPlace, OursIn, C.UpToDate;
  }

  lemma {:induction false} EditedInBetween(cfg: Config, x: Case, s: System, after: ClaimSpec)
    returns (actions: seq<Action>)
    requires Provisionable(cfg, x) && UnderWay(cfg, x, s)
    ensures Slipped(cfg, x, s.world.api, Run(cfg, s, actions).world, after)
    ensures UnmeddledRun(cfg, s, actions, x.k, BucketIn(cfg, x))
    decreases C.Stage(ClaimThread(s, x.k).pc), C.Left(ClaimThread(s, x.k).pc)
  {
    hide Apply, ClaimThread, Provisionable, OnTheWay, Between, Smooth, ClaimFine, BoundAndStaying, Heading,
         UnmeddledRun, Unmeddled, C.Stage, C.Left, C.UpToDate, AimOf, Goal, Alike;
    if ClaimThread(s, x.k).pc.Refetch? {
      actions := EditAndPublish(cfg, x, s, after);
    } else {
      var a := StepClaim(x.k, FAIR);
      HeadingStep(cfg, x, s);
      OwnStepIsUnmeddled(cfg, x, s);
      var rest := EditedInBetween(cfg, x, Apply(cfg, s, a), after);
      UnmeddledFirst(cfg, s, a, rest, x.k, BucketIn(cfg, x));
      actions := [a] + rest;
    }
  }

  /* From the very beginning */

  // The claim as it is created in the state `s`, under a class that is already there.
  function CaseOf(s: System, k: Key, spec: ClaimSpec): Case
    requires spec.className in s.world.api.classes
  {
    Case(k, Claim(s.world.api.uids, s.world.api.version + 1, 1, false, {}, spec, EMPTY_STATUS),
         s.world.api.classes[spec.className], s.world.minio, map[])
  }

  lemma ClaimCreated(cfg: Config, s: System, k: Key, spec: ClaimSpec)
    requires Initial(s) && spec.className in s.world.api.classes && CredentialsKey(k) !in s.world.api.secrets
    ensures var s1 := Apply(cfg, s, CreateClaim(k, spec));
            && StartsAs(cfg, CaseOf(s, k, spec), s1.world) && ClaimThread(s1, k).pc.Finished?
            && s1.world.api.classes == s.world.api.classes
    ensures !BoundAndStaying(Apply(cfg, s, CreateClaim(k, spec)).world.api, k)
  {
    hide CredentialsKey, AimOf, OursIn, NextAccesses, NextDriver, NextClaims;
    Unborn(cfg, s, CreateClaim(k, spec), k);
  }

  lemma Unborn(cfg: Config, s: System, a: Action, k: Key)
    requires Initial(s) && a.CreateClaim?
    ensures ClaimThread(Apply(cfg, s, a), k).pc.Finished?
  {
    hide NextAccesses, NextDriver, NextWorld;
  }

  lemma Started(cfg: Config, s: System, k: Key)
    requires ClaimThread(s, k).pc.Finished?
    ensures var s' := Apply(cfg, s, StartClaim(k)); ClaimThread(s', k) == C.START && s'.world == s.world
  {
    hide NextAccesses, NextDriver;
  }

  lemma StartIsSmooth(cfg: Config, x: Case, w: World)
    ensures Smooth(cfg, x, w, C.START) && Heading(C.START.pc)
  {
  }

  // What the bucket would ask for without the edit, and with it: the same, or what it had in the first place.
  predicate SameRequest(bucket: M.Bucket, before: ClaimSpec, after: ClaimSpec) {
    && (WantsQuota(after) ==> after.quotaBytes == if WantsQuota(before) then before.quotaBytes else bucket.quota)
    && (|after.lifecycleRules| > 0 ==>
          Rules(after.lifecycleRules) == if |before.lifecycleRules| > 0 then Rules(before.lifecycleRules)
                                         else bucket.lifecycle)
    && (EqualFold(before.accessType, "ReadOnly") == EqualFold(after.accessType, "ReadOnly"))
  }

  // A server that provisioning left as `before` asks is as `after` asks exactly when the two ask for the same.
  lemma ConfiguredForBoth(m: M.Server, m0: M.Server, g: Aim, after: ClaimSpec)
    requires Alike(m, Goal(m0, g), g.tenant.bucket)
    ensures Configured(m, g.tenant, after) <==> SameRequest(BucketOr(m0, g), g.spec, after)
  {
    hide Rules, EqualFold;
  }

  /** The server is as the spec asks: its class is one that MinIO provides for, its bucket is configured, and the
      claim's user has access to it. */
  ghost predicate AsAsked(cfg: Config, w: World, k: Key, spec: ClaimSpec) {
    && spec.className in w.api.classes && Handled(w.api.classes[spec.className])
       && UsesMinio(w.api.classes[spec.className])
    && var n := TenantOf(cfg, k, EffectiveBucketName(k, spec, w.api.classes[spec.className]));
       Configured(w.minio, n, spec) && Accessible(w.minio, n)
  }

  // The edit asks for nothing but what the old spec did or the bucket already had.
  predicate NothingNew(cfg: Config, s: System, k: Key, g: Aim, after: ClaimSpec) {
    && after.className in s.world.api.classes
    && var bc := s.world.api.classes[after.className];
       && Handled(bc) && UsesMinio(bc) && EffectiveBucketName(k, after, bc) == g.tenant.bucket
       && SameRequest(BucketOr(s.world.minio, g), g.spec, after)
  }

  // On another bucket the user has no access: it is mapped to its policy on the old one.
  lemma OneBucketOnly(cfg: Config, k: Key, m: M.Server, m0: M.Server, g: Aim, b: string)
    requires Alike(m, Goal(m0, g), g.tenant.bucket) && g.tenant == TenantOf(cfg, k, g.tenant.bucket)
    ensures Accessible(m, TenantOf(cfg, k, b)) <==> b == g.tenant.bucket
  {
    hide PolicyOf, BucketOr, Dressed, Joined, CredentialsKey, M.AccessKeyForAccount, M.SecretForAccount, TrimSpace;
    var account := Joined(k);
    if M.PolicyName(b, account) == M.PolicyName(g.tenant.bucket, account) {
      PolicyNameTells(b, g.tenant.bucket, account);
    }
    PolicyScope(g.tenant.bucket, g.spec);
  }

  lemma PolicyScope(b: string, spec: ClaimSpec)
    ensures PolicyOf(b, spec).bucket == b
  {
  }

  // Of one account, no two buckets have the same policy name.
  lemma PolicyNameTells(x: string, y: string, account: string)
    requires M.PolicyName(x, account) == M.PolicyName(y, account)
    ensures x == y
  {
    var p := M.PolicyName(x, account);
    assert x == p[5..|p| - |account| - 1] && y == p[5..|p| - |account| - 1];
  }

  lemma AsAskedIff(cfg: Config, s: System, w: World, k: Key, g: Aim, after: ClaimSpec)
    requires w.api.classes == s.world.api.classes && Alike(w.minio, Goal(s.world.minio, g), g.tenant.bucket)
    requires g.tenant == TenantOf(cfg, k, g.tenant.bucket)
    ensures AsAsked(cfg, w, k, after) <==> NothingNew(cfg, s, k, g, after)
  {
    hide Alike, Goal, TenantOf, Configured, Accessible, SameRequest, BucketOr, EffectiveBucketName, UsesMinio, Handled;
    if after.className in w.api.classes {
      OneBucketOnly(cfg, k, w.minio, s.world.minio, g, EffectiveBucketName(k, after, w.api.classes[after.className]));
      ConfiguredForBoth(w.minio, s.world.minio, g, after);
    }
  }

  /** The hypothesis of UpToDateMeansConfigured is needed. From every initial state, for every claim of a MinIO class
      and every edit of its spec, of the bucket's name and of the class too, there is a run without any fault, in which
      nobody else touches the claim's names, that ends with the claim bound and up to date on the edited spec and the
      server as the old spec asks. It is as the edited spec asks exactly when the edit keeps to the same bucket and
      asks for nothing but what the old spec did or that bucket already had. */
  lemma EditSlipsIn(cfg: Config, s: System, k: Key, before: ClaimSpec, after: ClaimSpec) returns (actions: seq<Action>)
    requires Initial(s) && before.className in s.world.api.classes && CredentialsKey(k) !in s.world.api.secrets
    requires Provisionable(cfg, CaseOf(s, k, before))
    ensures var g, w := AimOf(cfg, CaseOf(s, k, before)), Run(cfg, s, actions).world;
            && k in w.api.claims && C.UpToDate(w.api.claims[k]) && w.api.claims[k].spec == after
            && UnmeddledRun(cfg, s, actions, k, g.tenant.bucket)
            && Alike(w.minio, Goal(s.world.minio, g), g.tenant.bucket)
            && (AsAsked(cfg, w, k, after) <==> NothingNew(cfg, s, k, g, after))
  {
    hide Apply, ClaimThread, Initial, Provisionable, Between, OnTheWay, Smooth, ClaimFine, BoundAndStaying, Heading,
         StartsAs, Unmeddled, UnmeddledRun, AimOf, Goal, Alike, NothingNew, AsAsked, C.UpToDate, TenantOf;
    var x, create, start := CaseOf(s, k, before), CreateClaim(k, before), StartClaim(k);
    var b := BucketIn(cfg, x);
    var s1 := Apply(cfg, s, create);
    var s2 := Apply(cfg, s1, start);
    ClaimCreated(cfg, s, k, before);
    Started(cfg, s1, k);
    FineFromStart(cfg, s, k);
    FineStep(cfg, s, create, k);
    FineStep(cfg, s1, start, k);
    StartIsBetween(cfg, x, s1.world);
    Setout(cfg, x, s2.world);
    StartIsSmooth(cfg, x, s2.world);
    var rest := EditedInBetween(cfg, x, s2, after);
    OtherSteps(cfg, s1, start, k, b) by { Idles(s1, k); }
    UnmeddledFirst(cfg, s1, start, rest, k, b);
    OtherSteps(cfg, s, create, k, b) by { NoThread(s, k); }
    UnmeddledFirst(cfg, s, create, [start] + rest, k, b);
    actions := [create] + ([start] + rest);
    AimIsBefore(cfg, x);
    AsAskedIff(cfg, s, Run(cfg, s, actions).world, k, AimOf(cfg, x), after);
  }

  lemma AimIsBefore(cfg: Config, x: Case)
    ensures var g := AimOf(cfg, x);
            BucketIn(cfg, x) == g.tenant.bucket && g.tenant == TenantOf(cfg, x.k, g.tenant.bucket)
  {
  }

  lemma FineFromStart(cfg: Config, s: System, k: Key)
    requires Initial(s)
    ensures ClaimFine(s, k)
  {
    InitialInv(s);
    hide ClaimFine;
  }

  lemma Idles(s: System, k: Key)
    requires ClaimThread(s, k).pc.Finished?
    ensures !ClaimThread(s, k).pc.ReadKeys?
  {
    hide ClaimThread;
  }

  lemma NoThread(s: System, k: Key)
    requires Initial(s)
    ensures !ClaimThread(s, k).pc.ReadKeys?
  {
  }

  /** For one: a quota added to a claim whose bucket is new is lost in such a run, with the claim up to date. */
  lemma QuotaIsLost(cfg: Config, s: System, k: Key, before: ClaimSpec, after: ClaimSpec) returns (actions: seq<Action>)
    requires Initial(s) && before.className in s.world.api.classes && CredentialsKey(k) !in s.world.api.secrets
    requires Provisionable(cfg, CaseOf(s, k, before))
    requires AimOf(cfg, CaseOf(s, k, before)).tenant.bucket !in s.world.minio.buckets
    requires !WantsQuota(before) && WantsQuota(after)
    ensures var g, w := AimOf(cfg, CaseOf(s, k, before)), Run(cfg, s, actions).world;
            && k in w.api.claims && C.UpToDate(w.api.claims[k]) && w.api.claims[k].spec == after
            && g.tenant.bucket in w.minio.buckets && w.minio.buckets[g.tenant.bucket].quota == None
            && !AsAsked(cfg, w, k, after)
  {
    hide Run, Initial, Provisionable, AsAsked, C.UpToDate, UnmeddledRun, CredentialsKey, TenantOf, EffectiveBucketName,
         PolicyOf, Rules, EqualFold;
    actions := EditSlipsIn(cfg, s, k, before, after);
  }
}
