/** The finalizer guards the backend: a claim for which the operator made something loses the finalizer only after
    its user and its policy were asked to be removed and, under Delete, its bucket was found or made absent - each
    under the name that finalization works with - or for a listed reason to skip. */
module FinalizerGuard {
  import opened Text
  import opened Kube
  import opened Cluster
  import opened Provisioning
  import opened ClaimFlow
  import opened ClaimInvariant
  import opened ClaimRuns
  import opened System
  import opened Memos
  import M = Minio
  import C = ClaimMachine

  // The revocation at one of its requests, on the name that finalization works with.
  predicate RevokeShape(k: Key, t: C.Thread, call: Call, rest: Script, m: Memo) {
    var removal := RemovePolicy(M.PolicyName(FinalBucketName(k, t.claim), Joined(k)));
    if UsesMinio(t.bc) then
      || (call == RemoveUser(KeyOr(m.told, Joined(k))) && rest == Then(removal, End))
      || (call == removal && rest == End && RemoveUser(KeyOr(m.told, Joined(k))) in m.asked)
    else call == ForeignRevoke && rest == End
  }

  predicate DeleteShape(k: Key, t: C.Thread, call: Call, rest: Script) {
    var b := FinalBucketName(k, t.claim);
    if UsesMinio(t.bc) then
      (call == BucketExists(b) && rest == Then(RemoveBucket(b), End)) || (call == RemoveBucket(b) && rest == End)
    else call == ForeignDelete && rest == End
  }

  // What an activation that finalizes has learnt by the time it is at its present call.
  predicate MemoFits(k: Key, t: C.Thread, m: Memo) {
    var read := BLANK.(policies := {t.bc.deletionPolicy}, bc := Some(t.bc));
    match t.pc
    case Fetch => m == BLANK
    case FinalClass => m == BLANK
    case FinalResolve => m == read
    case FinalSecret => m == read
    case Revoke(call, rest) =>
      m.bc == Some(t.bc) && t.creds.bucket == FinalBucketName(k, t.claim) && RevokeShape(k, t, call, rest, m)
    case Delete(call, rest) =>
      m.bc == Some(t.bc) && AskedToRevoke(m, k, t.claim) && DeleteShape(k, t, call, rest)
    case DropFinalizer => Justified(m, k, t.claim)
    case _ => true
  }

  lemma RevocationShapes(k: Key, t: C.Thread, next: C.Thread, m: Memo)
    requires next.pc.Revoke? && Begins(k, t, m.told, next) && next.claim == t.claim && next.bc == t.bc
    requires m.bc == Some(t.bc)
    ensures MemoFits(k, next, m)
  {
    hide KeyOr, FinalBucketName, Joined, UsesMinio, M.PolicyName;
  }

  lemma DestructionShapes(k: Key, t: C.Thread)
    requires t.creds.bucket == FinalBucketName(k, t.claim)
    ensures var todo := C.Destruction(t); todo.Then? && DeleteShape(k, t, todo.call, todo.rest)
  {
    hide UsesMinio, FinalBucketName;
  }

  // What a deletion can be answered with.
  predicate Answers(call: Call, r: Reply) {
    && (call.RemoveBucket? ==> r.Done? || r.Refused?)
    && (call.ForeignDelete? ==> r.Done? || r.Refused? || r.RefusedAt?)
    && (call.BucketExists? ==> r.Exists? || r.Refused?)
  }

  lemma ServeAnswers(w: World, call: Call, c: Choice)
    ensures Answers(call, Serve(w, call, c).1)
  {
    hide ServeClaims, ServeSecrets, ServeAccesses, ServeCosi, Effect;
  }

  lemma FitsRevoke(cfg: Config, k: Key, t: C.Thread, r: Reply, m: Memo, next: C.Thread)
    requires !t.pc.Finished? && MemoFits(k, t, m) && Arrival(cfg, k, t, r, next) && next.pc.Revoke?
    ensures MemoFits(k, next, Learn(m, C.Request(k, t), r))
  {
    hide Begins, TrimSpace, Lookup, KeyOr, FinalBucketName, Joined, UsesMinio, M.PolicyName, CallError, OperationOf;
    if !t.pc.Revoke? { RevocationShapes(k, t, next, Learn(m, C.Request(k, t), r)); }
  }

  // The revocation has been asked for in full.
  lemma FullyAsked(k: Key, t: C.Thread, r: Reply, m: Memo)
    requires t.pc.Revoke? && MemoFits(k, t, m)
    requires Advance(t.pc.call, t.pc.rest, r).Fails? || Advance(t.pc.call, t.pc.rest, r) == Goes(End)
    ensures var m' := Learn(m, t.pc.call, r); m'.bc == Some(t.bc) && AskedToRevoke(m', k, t.claim)
  {
    hide KeyOr, FinalBucketName, Joined, UsesMinio, M.PolicyName, CallError, OperationOf, TrimSpace, Lookup;
  }

  // The deletion has been seen through.
  lemma FullyGone(k: Key, t: C.Thread, r: Reply, m: Memo)
    requires t.pc.Delete? && MemoFits(k, t, m) && Answers(t.pc.call, r) && Advance(t.pc.call, t.pc.rest, r) == Goes(End)
    ensures var m' := Learn(m, t.pc.call, r);
            m'.bc == Some(t.bc) && AskedToRevoke(m', k, t.claim) && FoundGone(m', k, t.claim)
  {
    hide KeyOr, FinalBucketName, Joined, UsesMinio, M.PolicyName, CallError, OperationOf, TrimSpace, Lookup;
  }

  lemma FitsDelete(cfg: Config, k: Key, t: C.Thread, r: Reply, m: Memo, next: C.Thread)
    requires !t.pc.Finished? && MemoFits(k, t, m) && Arrival(cfg, k, t, r, next) && next.pc.Delete?
    ensures MemoFits(k, next, Learn(m, C.Request(k, t), r))
  {
    hide C.Destruction, KeyOr, FinalBucketName, Joined, UsesMinio, M.PolicyName, CallError, OperationOf, TrimSpace,
         Lookup;
    if t.pc.Revoke? {
      DestructionShapes(k, t);
      FullyAsked(k, t, r, m);
    }
  }

  lemma FitsDrop(cfg: Config, k: Key, t: C.Thread, r: Reply, m: Memo, next: C.Thread)
    requires !t.pc.Finished? && MemoFits(k, t, m) && Answers(C.Request(k, t), r) && Arrival(cfg, k, t, r, next)
    requires next.pc.DropFinalizer?
    ensures MemoFits(k, next, Learn(m, C.Request(k, t), r))
  {
    hide AskedToRevoke, FoundGone, Advance, TrimSpace, Lookup, FinalBucketName, Answers, DeleteShape, RevokeShape;
    if t.pc.Revoke? { FullyAsked(k, t, r, m); }
    else if t.pc.Delete? { FullyGone(k, t, r, m); }
  }

  lemma MemoFitsNext(cfg: Config, k: Key, t: C.Thread, r: Reply, m: Memo, next: C.Thread)
    requires !t.pc.Finished? && MemoFits(k, t, m) && Answers(C.Request(k, t), r) && Arrival(cfg, k, t, r, next)
    ensures MemoFits(k, next, Learn(m, C.Request(k, t), r))
  {
    if next.pc.Revoke? { hide Arrival, MemoFits, Learn, C.Request; FitsRevoke(cfg, k, t, r, m, next); }
    else if next.pc.Delete? { hide Arrival, MemoFits, Learn, C.Request; FitsDelete(cfg, k, t, r, m, next); }
    else if next.pc.DropFinalizer? { hide Arrival, MemoFits, Learn, C.Request; FitsDrop(cfg, k, t, r, m, next); }
    else {
      hide C.ProvisionScript, C.UpToDate, StartingCreds, IsBound, CredentialsKey, C.BoundTo, C.Noted, Handled,
           RevokeShape, DeleteShape, Justified, TrimSpace, Lookup;
    }
  }

  /* The guard */

  // The claim was let go of, for good reasons.
  predicate LetGoWell(x: Watched, ref: Ref) {
    && ref in x.released && x.released[ref].claim.uid == ref.uid
    && Justified(x.released[ref].memo, ref.key, x.released[ref].claim)
  }

  predicate WellReleased(x: Watched, ref: Ref) { ref in x.released ==> LetGoWell(x, ref) }

  ghost predicate Guarded(x: Watched, ref: Ref) {
    ref in x.touched ==> HeldAt(x.s.world.api, ref.key, ref.uid) || LetGoWell(x, ref)
  }

  lemma MemoFitsStep(cfg: Config, x: Watched, a: Action, k: Key)
    requires MemoFits(k, ClaimThread(x.s, k), ClaimMemo(x, k))
    ensures MemoFits(k, ClaimThread(Watch(cfg, x, a).s, k), ClaimMemo(Watch(cfg, x, a), k))
  {
    var t := ClaimThread(x.s, k);
    hide C.Resume, NextWorld, NextDriverMemos, NextTouched, NextReleased, NextAccesses, NextDriver, Learn, Serve,
         C.Request;
    if a.StepClaim? && a.key == k && Issued(x.s, a).Some? {
      hide MemoFits;
      Arrives(cfg, k, t, ReplyTo(x.s, a));
      ServeAnswers(x.s.world, C.Request(k, t), a.choice);
      MemoFitsNext(cfg, k, t, ReplyTo(x.s, a), ClaimMemo(x, k), C.Resume(cfg, k, t, ReplyTo(x.s, a)));
    }
  }

  // Only provisioning makes something, and its claim is held.
  lemma CreatesUnderHold(k: Key, api: Api, t: C.Thread, m: Memo)
    requires !t.pc.Finished? && MemoFits(k, t, m) && Knows(api, k, t) && Creates(C.Request(k, t))
    ensures Held(api, k, t.claim)
  {
    hide Snapshot, CredentialsKey, C.BoundTo, C.Noted;
  }

  // Only DropFinalizer lets go.
  lemma LetsGo(k: Key, api: Api, t: C.Thread, uid: nat)
    requires !t.pc.Finished? && WritesClaim(C.Request(k, t)) && !t.pc.DropFinalizer?
    requires HeldAt(api, k, uid)
    ensures HeldAt(ServeClaims(api, C.Request(k, t)).0, k, uid)
  {
    hide C.BoundTo, C.Noted, CredentialsKey;
  }

  lemma HeldAfter(cfg: Config, x: Watched, a: Action, k: Key, uid: nat)
    requires ClaimFine(x.s, k) && HeldAt(x.s.world.api, k, uid)
    requires !(a.StepClaim? && a.key == k && ClaimThread(x.s, k).pc.DropFinalizer?)
    ensures HeldAt(NextWorld(x.s, a).api, k, uid)
  {
    var api, next := x.s.world.api, NextWorld(x.s, a).api;
    if a.StepClaim? && a.key == k && Issued(x.s, a).Some? && WritesClaim(Issued(x.s, a).value) {
      var t := ClaimThread(x.s, k);
      LetsGo(k, api, t, uid);
      hide ServeClaims, C.Request, ClaimFine;
    } else {
      assert Undisturbed(api, next, k) by {
        hide NextWorld, Undisturbed;
        if a.StepClaim? && a.key == k && Issued(x.s, a).Some? {
          OwnCallDisturbs(x, a, k);
        } else { NoTurn(x.s, a, k); }
      }
      hide NextWorld, Issued, ClaimFine;
    }
  }

  lemma OwnCallDisturbs(x: Watched, a: Action, k: Key)
    requires Sound(x.s.world.api, k) && Issued(x.s, a).Some? && !WritesClaim(Issued(x.s, a).value)
    ensures Undisturbed(x.s.world.api, NextWorld(x.s, a).api, k)
  {
    hide Issued, Undisturbed, Serve;
    ServeEvolves(x.s.world, Issued(x.s, a).value, a.choice, k);
  }

  // The finalizer is taken by the last call of a finalization, from the claim that the thread has read.
  lemma ReleasedByDrop(cfg: Config, x: Watched, a: Action)
    requires Releases(x.s, a) && ClaimFine(x.s, a.key)
    ensures var t := ClaimThread(x.s, a.key); t.pc.DropFinalizer? && t.claim == x.s.world.api.claims[a.key]
  {
    hide NextWorld, ClaimFine, ClaimThread;
    var t := ClaimThread(x.s, a.key);
    if !t.pc.DropFinalizer? {
      HeldAfter(cfg, x, a, a.key, x.s.world.api.claims[a.key].uid);
    } else {
      DropTakesWhatWasRead(cfg, x, a);
    }
  }

  lemma DropTakesWhatWasRead(cfg: Config, x: Watched, a: Action)
    requires Releases(x.s, a) && ClaimFine(x.s, a.key) && ClaimThread(x.s, a.key).pc.DropFinalizer?
    ensures ClaimThread(x.s, a.key).claim == x.s.world.api.claims[a.key]
  {
    hide ServeSecrets, ServeAccesses, ServeCosi, ServeMinio, ReplyOnly, WriteClaimStatus, Others, CredentialsKey,
         C.BoundTo, C.Noted;
  }

  // Grounds recorded now are good grounds.
  lemma GoodGrounds(cfg: Config, x: Watched, a: Action, ref: Ref)
    requires a.StepClaim? ==> ClaimFine(x.s, a.key) && MemoFits(a.key, ClaimThread(x.s, a.key), ClaimMemo(x, a.key))
    requires WellReleased(x, ref)
    ensures WellReleased(Watch(cfg, x, a), ref)
  {
    hide NextWorld, ClaimFine, Justified, Releases, ClaimThread, ClaimMemo, MemoFits, Apply, NextClaimMemos,
         NextDriverMemos, NextTouched;
    if Releases(x.s, a) {
      ReleaseIsStep(x.s, a);
      ReleasedByDrop(cfg, x, a);
      DropIsJustified(a.key, ClaimThread(x.s, a.key), ClaimMemo(x, a.key));
    }
  }

  lemma ReleaseIsStep(s: System, a: Action)
    requires Releases(s, a)
    ensures a.StepClaim? && a.key in s.world.api.claims
  {
    hide NextWorld;
  }

  // A claim stays guarded once it is touched.
  lemma StaysGuarded(cfg: Config, x: Watched, a: Action, ref: Ref)
    requires ClaimFine(x.s, ref.key) && HeldAt(x.s.world.api, ref.key, ref.uid)
    ensures HeldAt(NextWorld(x.s, a).api, ref.key, ref.uid) || ref in Watch(cfg, x, a).released
  {
    hide NextWorld, ClaimFine, Learn, Serve, C.Request, Apply, NextClaimMemos, NextDriverMemos, NextTouched, ClaimMemo;
    if !(a.StepClaim? && a.key == ref.key && ClaimThread(x.s, ref.key).pc.DropFinalizer?) {
      HeldAfter(cfg, x, a, ref.key, ref.uid);
    }
  }

  lemma DropIsJustified(k: Key, t: C.Thread, m: Memo)
    requires t.pc.DropFinalizer? && MemoFits(k, t, m)
    ensures Justified(m, k, t.claim)
  {
    hide Justified;
  }

  lemma NewlyTouched(x: Watched, a: Action)
    requires a.StepClaim? && Issued(x.s, a).Some? && Creates(Issued(x.s, a).value)
    requires ClaimFine(x.s, a.key) && MemoFits(a.key, ClaimThread(x.s, a.key), ClaimMemo(x, a.key))
    ensures HeldAt(x.s.world.api, a.key, ClaimThread(x.s, a.key).claim.uid)
    ensures !ClaimThread(x.s, a.key).pc.DropFinalizer?
  {
    CreatesUnderHold(a.key, x.s.world.api, ClaimThread(x.s, a.key), ClaimMemo(x, a.key));
    hide MemoFits, ClaimFine, CredentialsKey, C.BoundTo, C.Noted;
  }

  ghost predicate GuardFine(x: Watched, ref: Ref) { Guarded(x, ref) && WellReleased(x, ref) }

  lemma GuardStep(cfg: Config, x: Watched, a: Action, ref: Ref)
    requires Inv(x.s) && GuardFine(x, ref) && forall k :: MemoFits(k, ClaimThread(x.s, k), ClaimMemo(x, k))
    ensures GuardFine(Watch(cfg, x, a), ref)
  {
    hide ClaimFine, MemoFits, NextWorld, NextClaimMemos, NextDriverMemos, NextClaims, NextAccesses, NextDriver,
         NextReleased, Inv, Issued, Creates, WithCreated, ClaimThread, ClaimMemo, HeldAt, LetGoWell;
    var y := Watch(cfg, x, a);
    AllFine(x.s);
    GoodGrounds(cfg, x, a, ref);
    if ref in y.touched {
      if a.StepClaim? && Issued(x.s, a).Some? && Creates(Issued(x.s, a).value)
        && Ref(a.key, ClaimThread(x.s, a.key).claim.uid) == ref {
        NewlyTouched(x, a);
      }
      if HeldAt(x.s.world.api, ref.key, ref.uid) { StaysGuarded(cfg, x, a, ref); }
      else { StillReleased(cfg, x, a, ref); }
    }
  }

  lemma AllFine(s: System)
    requires Inv(s)
    ensures forall k :: ClaimFine(s, k)
  {
    hide ClaimFine;
  }

  lemma StillReleased(cfg: Config, x: Watched, a: Action, ref: Ref)
    requires LetGoWell(x, ref)
    ensures ref in NextReleased(x, a)
  {
    hide NextWorld, Justified;
  }

  lemma {:induction false} GuardRun(cfg: Config, x: Watched, actions: seq<Action>)
    requires Inv(x.s) && (forall ref :: GuardFine(x, ref))
             && forall k :: MemoFits(k, ClaimThread(x.s, k), ClaimMemo(x, k))
    ensures forall ref :: GuardFine(WatchRun(cfg, x, actions), ref)
    decreases |actions|
  {
    hide GuardFine, MemoFits, Inv, Watch, Apply;
    if actions != [] {
      var y := Watch(cfg, x, actions[0]);
      forall ref ensures GuardFine(y, ref) { GuardStep(cfg, x, actions[0], ref); }
      forall k ensures MemoFits(k, ClaimThread(y.s, k), ClaimMemo(y, k)) { MemoFitsStep(cfg, x, actions[0], k); }
      InvStep(cfg, x.s, actions[0]);
      WatchedSystem(cfg, x, actions[0]);
      GuardRun(cfg, y, actions[1..]);
    }
  }

  /** The finalizer guard, over every run: whenever the operator has created a bucket, a user or a policy for a claim,
      the stored claim carries the operator's finalizer, or the finalizer was removed - unless the class was gone or no
      usable provider existed for it - after the removal of the claim's user and of its policy on the bucket that
      finalization works with had been asked for and, if the class said Delete, that bucket was found or made absent.
      (Leftovers says when it is the bucket that was created.) */
  lemma FinalizerGuards(cfg: Config, s: System, actions: seq<Action>, ref: Ref)
    requires Initial(s) && ref in WatchRun(cfg, Begin(s), actions).touched
    ensures var x := WatchRun(cfg, Begin(s), actions); HeldAt(x.s.world.api, ref.key, ref.uid) || LetGoWell(x, ref)
  {
    hide Inv, WatchRun, Initial, LetGoWell, HeldAt, MemoFits, ClaimThread, ClaimMemo;
    InitialInv(s);
    GuardStart(s);
    GuardRun(cfg, Begin(s), actions);
    assert GuardFine(WatchRun(cfg, Begin(s), actions), ref);
  }

  lemma GuardStart(s: System)
    requires Initial(s)
    ensures Begin(s).s == s
    ensures forall k :: MemoFits(k, ClaimThread(s, k), ClaimMemo(Begin(s), k))
    ensures forall ref :: GuardFine(Begin(s), ref)
  {
  }
}
