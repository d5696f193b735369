/** The COSI driver's grant, followed by the revocation of the account id it returned. */
module DriverRoundTrip {
  import opened Text
  import opened Kube
  import opened CosiNames
  import opened Cluster
  import opened Frames
  import opened Provisioning
  import opened Effects
  import opened Convergence
  import M = Minio
  import D = DriverMachine

  // Scripts whose calls are served one after another.
  predicate Straight(todo: Script) {
    todo.Then? ==>
      OnMinio(todo.call) && !todo.call.BucketExists? && Straight(todo.rest)
        && (todo.call.AttachPolicy? ==> todo.rest.End?)
  }

  // No call of the script that matters is refused.
  predicate Served(m: M.Server, todo: Script)
    requires Straight(todo)
    decreases todo
  {
    todo.Then? ==>
      (BestEffort(todo.call) || !ServeMinio(m, todo.call).1.Refused?) && Served(After(m, todo.call), todo.rest)
  }

  lemma {:induction false} FairWork(cfg: Config, w: World, creds: Creds, todo: Script, plan: nat -> Choice, n: nat)
    requires FairPlan(plan) && Straight(todo) && Served(w.minio, todo)
    ensures D.RunAlone(cfg, w, D.Do(creds, todo), plan, n).world == World(w.api, AfterAll(w.minio, todo))
    decreases Size(todo)
  {
    hide Perform, ServeMinio, TrimmedCreds;
    if todo.Then? {
      assert Fair(plan(n));
      var t := D.Do(creds, todo);
      var (w', r) := Serve(w, todo.call, plan(n));
      Performs(w, todo.call, plan(n));
      ExistsOnlyAnswersExists(w.minio, todo.call);
      assert w' == World(w.api, After(w.minio, todo.call));
      D.Progresses(cfg, t, r);
      FairWork(cfg, w', creds, todo.rest, plan, n + 1);
    }
  }

  /* Names */

  // What a grant creates, and what a revocation removes.
  datatype Names = Names(user: string, policy: string)

  function NamesOf(bucket: string, account: string): Names {
    Names(M.AccessKeyForAccount(account), M.PolicyName(bucket, account))
  }

  // A grant uses the key it is given, if any.
  function GivenNames(bucket: string, account: string, parameters: map<string, string>): Names {
    Names(KeyOr(TrimSpace(Lookup(parameters, "existingAccessKey")), account), M.PolicyName(bucket, account))
  }

  function GrantedServer(m: M.Server, n: Names, secretKey: string, policy: M.Policy): M.Server {
    m.(users := m.users[n.user := secretKey], policies := m.policies[n.policy := policy],
       attached := m.attached[n.user := n.policy])
  }

  // Three calls of which none is refused.
  lemma ThreeServed(m: M.Server, a: BackendCall, b: BackendCall, c: BackendCall)
    requires OnMinio(a) && OnMinio(b) && OnMinio(c) && !a.BucketExists? && !b.BucketExists? && !c.BucketExists?
    requires !a.AttachPolicy? && !b.AttachPolicy?
    requires !ServeMinio(m, a).1.Refused? && !ServeMinio(After(m, a), b).1.Refused?
    requires !ServeMinio(After(After(m, a), b), c).1.Refused?
    ensures var todo := Then(a, Then(b, Then(c, End)));
            Straight(todo) && Served(m, todo) && AfterAll(m, todo) == After(After(After(m, a), b), c)
  {
    hide ServeMinio, After;
    var m1, m2, m3 := After(m, a), After(After(m, a), b), After(After(After(m, a), b), c);
    var last := Then(c, End);
    assert AfterAll(m3, End) == m3 && Served(m3, End);
    assert Straight(last) && Served(m2, last) && AfterAll(m2, last) == m3;
    assert Straight(Then(b, last)) && Served(m1, Then(b, last)) && AfterAll(m1, Then(b, last)) == m3;
  }

  lemma GrantServed(m: M.Server, b: string, account: string, accessType: string, user: string, secretKey: string)
    ensures var n, todo := Names(user, M.PolicyName(b, account)), GrantScript(b, account, accessType, user, secretKey);
            Straight(todo) && Served(m, todo)
            && AfterAll(m, todo) == GrantedServer(m, n, secretKey, M.Policy(b, EqualFold(accessType, "ReadOnly")))
  {
    hide M.PolicyName, EqualFold, Straight, Served, AfterAll;
    var name := M.PolicyName(b, account);
    var policy := M.Policy(b, EqualFold(accessType, "ReadOnly"));
    ThreeServed(m, AddUser(user, secretKey), AddPolicy(name, policy), AttachPolicy(name, user));
  }

  // Revoking under names (user, policy), of which nobody else uses the policy.
  lemma RevokeServed(m: M.Server, b: string, account: string)
    ensures var todo := RevokeScript(b, account, "");
            && Straight(todo) && Served(m, todo)
            && AfterAll(m, todo)
               == ServeMinio(ServeMinio(m, RemoveUser(NamesOf(b, account).user)).0,
                             RemovePolicy(NamesOf(b, account).policy)).0
  {
    hide M.AccessKeyForAccount, M.PolicyName, Effect;
    var todo := RevokeScript(b, account, "");
    assert Straight(todo.rest);
    var m1 := After(m, todo.call);
    var m2 := After(m1, todo.rest.call);
    assert AfterAll(m1, todo.rest) == m2 by { assert AfterAll(m2, End) == m2; }
    assert Served(m1, todo.rest) by { assert Served(m2, End); }
  }

  lemma GrantThenRevoke(m: M.Server, n: Names, secretKey: string, policy: M.Policy)
    requires M.Free(m, n.user, n.policy)
    ensures ServeMinio(ServeMinio(GrantedServer(m, n, secretKey, policy), RemoveUser(n.user)).0,
                       RemovePolicy(n.policy)).0 == m
  {
    var m1 := GrantedServer(m, n, secretKey, policy);
    var m2 := ServeMinio(m1, RemoveUser(n.user)).0;
    assert m2.users == m.users && m2.attached == m.attached;
    assert m2.policies - {n.policy} == m.policies;
  }

  // Under another policy name the granted policy stays behind.
  lemma GrantThenRevokeElse(m: M.Server, n: Names, other: string, secretKey: string, policy: M.Policy)
    requires M.Free(m, n.user, n.policy) && other != n.policy
    ensures n.policy in ServeMinio(ServeMinio(GrantedServer(m, n, secretKey, policy), RemoveUser(n.user)).0,
                                   RemovePolicy(other)).0.policies
  {
  }

  // Under another key the granted user stays behind.
  lemma AnotherUserStays(m: M.Server, n: Names, other: Names, secretKey: string, policy: M.Policy)
    requires other.user != n.user
    ensures n.user in ServeMinio(ServeMinio(GrantedServer(m, n, secretKey, policy), RemoveUser(other.user)).0,
                                 RemovePolicy(other.policy)).0.users
  {
  }

  /* The account id on its way to the driver's caller and back */

  lemma {:induction false} SpacesAreDropped(s: string)
    requires AllSpace(s)
    ensures KeepAlnum(s) == ""
  {
    if s != "" { SpacesAreDropped(s[1..]); }
  }

  lemma TrimmedKey(s: string)
    ensures M.AccessKeyForAccount(TrimSpace(s)) == M.AccessKeyForAccount(s)
  {
    var i, j := TrimSpaceCuts(s);
    var t := TrimSpace(s);
    assert s == s[..i] + t + s[j..];
    SpacesAreDropped(s[..i]);
    SpacesAreDropped(s[j..]);
    M.KeepAlnumConcat(s[..i] + t, s[j..]);
    M.KeepAlnumConcat(s[..i], t);
    assert KeepAlnum(s) == KeepAlnum(t);
  }

  lemma NameOfAccess(name: string)
    requires TrimSpace(name) != ""
    ensures var s := SyntheticClaimName(name); s != "" && !IsSpace(s[0])
  {
    var t := TrimSpace(name);
    TrimSpaceTrimmed(name);
    assert ReplaceUnderscores(ToLower(t))[0] == (if LowerChar(t[0]) == '_' then '-' else LowerChar(t[0]));
  }

  // No cut made of spaces holds a character that is not a space.
  lemma NotCut(s: string, at: nat, n: nat)
    requires at < |s| && !IsSpace(s[at]) && n <= |s|
    ensures AllSpace(s[..n]) ==> n <= at
    ensures AllSpace(s[n..]) ==> at < n
  {
    if at < n { assert s[..n][at] == s[at]; } else { assert s[n..][at - n] == s[at]; }
  }

  // Trimming cannot reach behind a character that is not a space.
  lemma FrontStays(s: string, n: nat)
    requires n < |s| && !IsSpace(s[0]) && !IsSpace(s[n])
    ensures n < |TrimSpace(s)| <= |s| && TrimSpace(s) == s[..|TrimSpace(s)|]
  {
    hide TrimSpace;
    var i, j := TrimSpaceCuts(s);
    NotCut(s, 0, i);
    NotCut(s, n, j);
  }

  // The id that the driver returned is accepted, and read as the account without its trailing spaces.
  lemma AccountIsAccepted(name: string)
    requires TrimSpace(name) != ""
    ensures var account := D.AccountOf(name);
            SplitAccount(account).Some? && Joined(SplitAccount(account).value) == TrimSpace(account)
  {
    hide SyntheticClaimName, TrimSpace, FirstHyphen;
    var s, account := SyntheticClaimName(name), D.AccountOf(name);
    NameOfAccess(name);
    assert account == "cosi-" + s;
    FrontStays(account, 5);
    var t := TrimSpace(account);
    assert t == "cosi" + "-" + t[5..];
    FirstHyphenAt("cosi", t[5..]);
    SplitThenJoin(account);
  }

  lemma StartsGrant(cfg: Config, bucketID: string, name: string, parameters: map<string, string>, e: D.Extensions)
    returns (creds: Creds, accessType: string)
    requires TrimSpace(bucketID) != "" && TrimSpace(name) != "" && e.valid
    ensures var account, b := D.AccountOf(name), D.BucketOf(bucketID);
            var secretKey := SecretOr(cfg.digest, TrimSpace(Lookup(parameters, "existingSecretKey")), account);
            D.Start(cfg, D.GrantRequest(bucketID, name, parameters, e))
            == D.Do(creds, GrantScript(b, account, accessType, GivenNames(b, account, parameters).user, secretKey))
  {
    hide M.AccessKeyForAccount, M.SecretForAccount, M.PolicyName, TrimSpace, D.AccountOf, D.BucketOf, D.Extend,
         EqualFold, GrantScript, BucketClassNameFromBucketObjectName, SyntheticClaimName;
    var account := D.AccountOf(name);
    var secretKey := SecretOr(cfg.digest, TrimSpace(Lookup(parameters, "existingSecretKey")), account);
    creds := Creds(D.BucketOf(bucketID), KeyOr(TrimSpace(Lookup(parameters, "existingAccessKey")), account), secretKey,
                   cfg.endpoint);
    accessType := D.Extend(SyntheticClaim(bucketID, parameters).value.1, e).accessType;
  }

  lemma GrantRuns(cfg: Config, w: World, bucketID: string, name: string, parameters: map<string, string>,
                  e: D.Extensions, plan: nat -> Choice)
    returns (secretKey: string, policy: M.Policy)
    requires FairPlan(plan) && TrimSpace(bucketID) != "" && TrimSpace(name) != "" && e.valid
    ensures D.RunAlone(cfg, w, D.Start(cfg, D.GrantRequest(bucketID, name, parameters, e)), plan, 0).world
            == World(w.api, GrantedServer(w.minio, GivenNames(D.BucketOf(bucketID), D.AccountOf(name), parameters),
                                          secretKey, policy))
  {
    hide D.Start, GrantScript, D.AccountOf, D.BucketOf, TrimSpace, D.RunAlone, FairPlan, GrantedServer, KeyOr, Straight,
         Served, SecretOr, Lookup, EqualFold;
    var creds, accessType := StartsGrant(cfg, bucketID, name, parameters, e);
    var b, account := D.BucketOf(bucketID), D.AccountOf(name);
    secretKey := SecretOr(cfg.digest, TrimSpace(Lookup(parameters, "existingSecretKey")), account);
    policy := M.Policy(b, EqualFold(accessType, "ReadOnly"));
    var user := GivenNames(b, account, parameters).user;
    GrantServed(w.minio, b, account, accessType, user, secretKey);
    FairWork(cfg, w, creds, GrantScript(b, account, accessType, user, secretKey), plan, 0);
  }

  // The server after the revocation of an accepted account id.
  function RevokedServer(m: M.Server, n: Names): M.Server {
    ServeMinio(ServeMinio(m, RemoveUser(n.user)).0, RemovePolicy(n.policy)).0
  }

  lemma RevokeRuns(cfg: Config, w: World, bucketID: string, accountID: string, plan: nat -> Choice)
    requires FairPlan(plan) && TrimSpace(bucketID) != "" && SplitAccount(accountID).Some?
    ensures D.RunAlone(cfg, w, D.Start(cfg, D.RevokeRequest(bucketID, accountID)), plan, 0).world
            == World(w.api, RevokedServer(w.minio,
                                          NamesOf(D.BucketOf(bucketID), Joined(SplitAccount(accountID).value))))
  {
    hide RevokeScript, D.BucketOf, TrimSpace, D.RunAlone, FairPlan, Straight, Served, SplitAccount, Joined, NamesOf,
         ServeMinio, D.Do;
    var b, account := D.BucketOf(bucketID), Joined(SplitAccount(accountID).value);
    RevokeServed(w.minio, b, account);
    FairWork(cfg, w, Creds(b, "", "", ""), RevokeScript(b, account, ""), plan, 0);
  }

  /** COSI round trip: a grant on names that were unused, with keys derived or given, and the revocation of the account
      id it returned restore the server if and only if that id does not end in a space - which the cut at 63 bytes can
      leave behind - and the key, if one was given, is the account's own: a revocation by id knows no other. Otherwise
      the policy or the user stays. */
  lemma GrantThenRevokeRestores(cfg: Config, w: World, bucketID: string, name: string, parameters: map<string, string>,
                                e: D.Extensions, first: nat -> Choice, second: nat -> Choice)
    requires FairPlan(first) && FairPlan(second)
    requires TrimSpace(bucketID) != "" && TrimSpace(name) != "" && e.valid
    requires var n := GivenNames(D.BucketOf(bucketID), D.AccountOf(name), parameters); M.Free(w.minio, n.user, n.policy)
    ensures var w1 := D.RunAlone(cfg, w, D.Start(cfg, D.GrantRequest(bucketID, name, parameters, e)), first, 0).world;
            var w2 := D.RunAlone(cfg, w1, D.Start(cfg, D.RevokeRequest(bucketID, D.AccountOf(name))), second, 0).world;
            var given := TrimSpace(Lookup(parameters, "existingAccessKey"));
            w2 == w
            <==> Trimmed(D.AccountOf(name)) && (given == "" || given == M.AccessKeyForAccount(D.AccountOf(name)))
  {
    hide D.Start, D.AccountOf, D.BucketOf, TrimSpace, M.Free, SplitAccount, Joined, D.RunAlone, Trimmed, FairPlan,
         GrantedServer, ServeMinio, M.AccessKeyForAccount, M.PolicyName, Lookup;
    var b, account := D.BucketOf(bucketID), D.AccountOf(name);
    AccountIsAccepted(name);
    TrimmedKey(account);
    TrimSpaceFixed(account);
    var secretKey, policy := GrantRuns(cfg, w, bucketID, name, parameters, e, first);
    var n := GivenNames(b, account, parameters);
    var m1, back := GrantedServer(w.minio, n, secretKey, policy), NamesOf(b, TrimSpace(account));
    RevokeRuns(cfg, World(w.api, m1), bucketID, account, second);
    NotThereBefore(w.minio, n);
    if n.user != back.user {
      AnotherUserStays(w.minio, n, back, secretKey, policy);
    } else if TrimSpace(account) == account {
      GrantThenRevoke(w.minio, n, secretKey, policy);
    } else {
      PoliciesDiffer(b, account, TrimSpace(account));
      GrantThenRevokeElse(w.minio, n, back.policy, secretKey, policy);
    }
  }

  lemma PoliciesDiffer(b: string, x: string, y: string)
    requires x != y
    ensures M.PolicyName(b, x) != M.PolicyName(b, y)
  {
    var prefix := "cosi-" + b + "-";
    assert M.PolicyName(b, x)[|prefix|..] == x && M.PolicyName(b, y)[|prefix|..] == y;
  }

  lemma NotThereBefore(m: M.Server, n: Names)
    requires M.Free(m, n.user, n.policy)
    ensures n.policy !in m.policies && n.user !in m.users
  {
  }
}
