/** The claim invariant in every reachable state, and what it says about the status users see. */
module ClaimRuns {
  import opened Text
  import opened Kube
  import opened Cluster
  import opened Provisioning
  import opened ClaimInvariant
  import opened System
  import C = ClaimMachine
  import A = AccessMachine

  ghost predicate ClaimFine(s: System, k: Key) {
    && Sound(s.world.api, k) && Truthful(s.world.api, k)
    && Knows(s.world.api, k, ClaimThread(s, k)) && Sane(ClaimThread(s, k))
  }

  ghost predicate Inv(s: System) { forall k :: ClaimFine(s, k) }

  /* Who issues what */

  lemma OwnKey(j: Key, t: C.Thread)
    requires !t.pc.Finished?
    ensures WritesClaim(C.Request(j, t)) ==> C.Request(j, t).key == j
  {
    hide C.BoundTo, C.Noted, CredentialsKey, TrimSpace;
  }

  lemma AccessesWriteNoClaims(j: Key, t: A.Thread)
    requires !t.pc.Finished?
    ensures !WritesClaim(A.Request(j, t))
  {
    hide A.ClaimKey, A.InfoKey, Joined;
  }

  lemma OnlyItsThreadWrites(s: System, a: Action, k: Key)
    requires Issued(s, a).Some?
    ensures WritesClaim(Issued(s, a).value) && Issued(s, a).value.key == k ==> a.StepClaim? && a.key == k
  {
    hide C.Request, A.Request;
    match a
    case StepClaim(j, _) => OwnKey(j, ClaimThread(s, j));
    case StepAccess(j, _) => AccessesWriteNoClaims(j, AccessThread(s, j));
    case StepRequest(_, _) =>
  }

  // Everything that is not a step of k's own thread leaves k's claim alone.
  lemma StepDisturbs(s: System, a: Action, k: Key)
    requires Sound(s.world.api, k)
    ensures Evolves(s.world.api, NextWorld(s, a).api, k)
    ensures !(a.StepClaim? && a.key == k) ==> Undisturbed(s.world.api, NextWorld(s, a).api, k)
  {
    hide Evolves, Undisturbed, Serve, Others, Issued;
    if Issued(s, a).Some? {
      ServeEvolves(s.world, Issued(s, a).value, a.choice, k);
      OnlyItsThreadWrites(s, a, k);
    } else if a.FillBucket? {
      assert Evolves(s.world.api, s.world.api, k) && Undisturbed(s.world.api, s.world.api, k) by {
        Still(s.world.api, k);
      }
    } else {
      OthersEvolve(s.world.api, a, k);
    }
  }

  lemma Still(api: Api, k: Key)
    ensures Evolves(api, api, k) && Undisturbed(api, api, k)
  {
  }

  lemma Idle(api: Api, k: Key, t: C.Thread)
    requires t.pc.Finished? || t.pc.Fetch?
    ensures Knows(api, k, t) && Sane(t)
  {
  }

  // The other threads of a system, and this one unless it steps or starts anew.
  lemma ThreadOf(cfg: Config, s: System, a: Action, k: Key)
    ensures var next := ClaimThread(Apply(cfg, s, a), k);
            if a.StepClaim? && a.key == k && Issued(s, a).Some? then
              next == C.Resume(cfg, k, ClaimThread(s, k), ReplyTo(s, a))
            else next == ClaimThread(s, k) || next.pc.Finished? || next.pc.Fetch?
  {
    hide C.Resume, NextWorld, NextAccesses, NextDriver, Issued, ReplyTo;
  }

  // A step of k's own thread.
  lemma OwnTurn(cfg: Config, s: System, a: Action)
    requires a.StepClaim? && Issued(s, a).Some? && ClaimFine(s, a.key)
    ensures ClaimFine(Apply(cfg, s, a), a.key) && Latched(s.world.api, NextWorld(s, a).api, a.key)
  {
    var k, t, c := a.key, ClaimThread(s, a.key), a.choice;
    hide ClaimThread, Apply, Knows, Sane, Sound, Truthful, Latched, C.Resume, Serve;
    assert Issued(s, a).value == C.Request(k, t);
    OwnStep(cfg, k, s.world, t, c);
    OwnStatusServed(k, s.world, t, c);
    ThreadOf(cfg, s, a, k);
    assert Apply(cfg, s, a).world == NextWorld(s, a) by { WorldOf(cfg, s, a); }
  }

  lemma OwnStatusServed(k: Key, w: World, t: C.Thread, c: Choice)
    requires !t.pc.Finished? && Sound(w.api, k) && Truthful(w.api, k) && Knows(w.api, k, t) && Sane(t)
    ensures var api := Serve(w, C.Request(k, t), c).0.api; Truthful(api, k) && Latched(w.api, api, k)
  {
    var call := C.Request(k, t);
    hide C.Request;
    ServeEvolves(w, call, c, k);
    if WritesClaim(call) {
      OwnStatus(k, w.api, t);
      StatusStable(w.api, w.api, k);
      hide Truthful, Latched, ServeClaims;
    } else {
      StatusStable(w.api, Serve(w, call, c).0.api, k);
    }
  }

  lemma FineStep(cfg: Config, s: System, a: Action, k: Key)
    requires ClaimFine(s, k)
    ensures ClaimFine(Apply(cfg, s, a), k) && Latched(s.world.api, Apply(cfg, s, a).world.api, k)
    ensures Evolves(s.world.api, Apply(cfg, s, a).world.api, k)
  {
    hide Apply, ClaimThread, Issued, NextWorld, Knows, Sane;
    WorldOf(cfg, s, a);
    StepDisturbs(s, a, k);
    if a.StepClaim? && a.key == k && Issued(s, a).Some? {
      OwnTurn(cfg, s, a);
    } else {
      assert Undisturbed(s.world.api, NextWorld(s, a).api, k) by { NoTurn(s, a, k); }
      StatusStable(s.world.api, NextWorld(s, a).api, k);
      ThreadOf(cfg, s, a, k);
      if ClaimThread(Apply(cfg, s, a), k) == ClaimThread(s, k) {
        KnowsStable(s.world.api, NextWorld(s, a).api, k, ClaimThread(s, k));
      } else {
        Idle(NextWorld(s, a).api, k, ClaimThread(Apply(cfg, s, a), k));
      }
    }
  }

  lemma NoTurn(s: System, a: Action, k: Key)
    requires Sound(s.world.api, k) && (a.StepClaim? && a.key == k ==> Issued(s, a).None?)
    ensures Undisturbed(s.world.api, NextWorld(s, a).api, k)
  {
    hide Undisturbed, Issued, Others;
    StepDisturbs(s, a, k);
    if a.StepClaim? && a.key == k {
      OthersEvolve(s.world.api, a, k);
    }
  }

  lemma InvStep(cfg: Config, s: System, a: Action)
    requires Inv(s)
    ensures Inv(Apply(cfg, s, a))
  {
    hide ClaimFine, Apply;
    forall k ensures ClaimFine(Apply(cfg, s, a), k) { FineStep(cfg, s, a, k); }
  }

  lemma {:induction false} InvRun(cfg: Config, s: System, actions: seq<Action>)
    requires Inv(s)
    ensures Inv(Run(cfg, s, actions))
    decreases |actions|
  {
    hide Inv, Apply;
    if actions != [] {
      InvStep(cfg, s, actions[0]);
      InvRun(cfg, Apply(cfg, s, actions[0]), actions[1..]);
    }
  }

  lemma InitialInv(s: System)
    requires Initial(s)
    ensures Inv(s)
  {
  }

  /** In every reachable state, phase, bucketReady and the Ready condition of every claim agree, a bound claim
      has a bucket, an endpoint and a Secret, and no claim has observed a generation it has not reached. */
  lemma StatusIsCoherent(cfg: Config, s: System, actions: seq<Action>, k: Key)
    requires Initial(s) && k in Run(cfg, s, actions).world.api.claims
    ensures var c := Run(cfg, s, actions).world.api.claims[k];
            && Coherent(c.status)
            && (c.status.ready.Some? ==> c.status.ready.value.observedGeneration <= c.generation)
  {
    hide Run, Initial;
    InitialInv(s);
    InvRun(cfg, s, actions);
    assert ClaimFine(Run(cfg, s, actions), k);
  }

  // A claim of an old uid is an old claim: uids are not reused.
  lemma {:induction false} OldClaims(cfg: Config, s: System, actions: seq<Action>, k: Key)
    requires ClaimFine(s, k)
    requires var api := Run(cfg, s, actions).world.api; k in api.claims && api.claims[k].uid < s.world.api.uids
    ensures k in s.world.api.claims && s.world.api.claims[k].uid == Run(cfg, s, actions).world.api.claims[k].uid
    decreases |actions|
  {
    if actions != [] {
      var next := Apply(cfg, s, actions[0]);
      FineStep(cfg, s, actions[0], k);
      hide Apply, ClaimFine;
      OldClaims(cfg, next, actions[1..], k);
    }
  }

  lemma {:induction false} LatchedRun(cfg: Config, s: System, actions: seq<Action>, k: Key)
    requires ClaimFine(s, k)
    ensures Latched(s.world.api, Run(cfg, s, actions).world.api, k)
    decreases |actions|
  {
    var end := Run(cfg, s, actions).world.api;
    if actions != [] && k in s.world.api.claims && k in end.claims && s.world.api.claims[k].uid == end.claims[k].uid {
      var next := Apply(cfg, s, actions[0]);
      FineStep(cfg, s, actions[0], k);
      hide Apply;
      OldClaims(cfg, next, actions[1..], k);
      LatchedRun(cfg, next, actions[1..], k);
    }
  }

  /** The latch, from every reachable state on: as long as it is the same claim, bound stays bound, the observed
      generation never falls, and a bucket name in the status is never taken back, whatever fails in between. */
  lemma BoundIsLatched(cfg: Config, s: System, before: seq<Action>, after: seq<Action>, k: Key)
    requires Initial(s)
    ensures var now := Run(cfg, s, before);
            Latched(now.world.api, Run(cfg, now, after).world.api, k)
  {
    hide Run, Initial, Latched, ClaimFine;
    InitialInv(s);
    InvRun(cfg, s, before);
    LatchedRun(cfg, Run(cfg, s, before), after, k);
  }
}
