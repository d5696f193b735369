/** IAM users, access keys and inline policies behind the AWS provider (internal/backend/aws/provider.go). */
module IamAccounts {
  import opened Text

  datatype PolicyDocument = PolicyDocument(bucket: string, readOnly: bool)

  datatype User = User(keys: set<string>, policies: map<string, PolicyDocument>)

  type Users = map<string, User>

  // The quota that IAM calls AccessKeysPerUser.
  const ACCESS_KEYS_PER_USER := 2

  // What becomes of a call: it works, or it is refused before or after it took effect. The text of a
  // refusal may mention the key quota.
  datatype Fate = Works | LostRequest(mentionsQuota: bool) | LostReply(mentionsQuota: bool)

  datatype Answer<+T> = Done(value: T) | AlreadyExists | QuotaExceeded | Refused

  datatype Credentials = Credentials(accessKeyID: string, accessSecretKey: string, bucketName: string, endpoint: string)

  datatype Result<+T> = Success(value: T) | Failure

  /* Names */

  function UserNameChar(c: char): char {
    if 'a' <= c <= 'z' || '0' <= c <= '9' || c == '-' || c == '_' then c else '-'
  }

  function TrimHyphensLeft(s: string): string {
    if s != "" && s[0] == '-' then TrimHyphensLeft(s[1..]) else s
  }

  function TrimHyphensRight(s: string): string {
    if s != "" && s[|s| - 1] == '-' then TrimHyphensRight(s[..|s| - 1]) else s
  }

  // strings.ToLower, then strings.Map.
  function Mapped(s: string): (r: string)
    ensures |r| == |s| && forall i :: 0 <= i < |s| ==> r[i] == UserNameChar(LowerChar(s[i]))
  {
    var lower := ToLower(s);
    seq(|lower|, i requires 0 <= i < |lower| => UserNameChar(lower[i]))
  }

  function UserNameForAccount(account: string): string {
    var normalized := TrimHyphensRight(TrimHyphensLeft(Truncate(Mapped(account), 64)));
    "cosi-" + if normalized == "" then "user" else normalized
  }

  function PolicyName(bucket: string, account: string): string {
    "bucket-" + bucket + "-" + UserNameForAccount(account)
  }

  /* When two accounts share a user */

  predicate Separator(c: char) { c == '.' || c == '-' }

  predicate LegalChar(c: char) { 'a' <= c <= 'z' || '0' <= c <= '9' || Separator(c) }

  // An account made of a legal namespace and a legal claim name.
  predicate LegalAccount(s: string) {
    && s != "" && (forall i :: 0 <= i < |s| ==> LegalChar(s[i]))
    && !Separator(s[0]) && !Separator(s[|s| - 1])
  }

  // Behind `n`, up to the 64th character, there are only dots and hyphens.
  predicate SeparatorsFrom(s: string, n: nat) { forall i :: n <= i < |s| && i < 64 ==> Separator(s[i]) }

  // The first `n` characters agree, a dot being as good as a hyphen, and then nothing but separators follows.
  predicate AgreeUpTo(a: string, b: string, n: nat) {
    && 0 < n <= |a| && n <= |b| && n <= 64
    && (forall i :: 0 <= i < n ==> a[i] == b[i] || (Separator(a[i]) && Separator(b[i])))
    && SeparatorsFrom(a, n) && SeparatorsFrom(b, n)
  }

  lemma {:induction false} TrimmedRight(s: string)
    ensures var r := TrimHyphensRight(s);
            && r <= s && (forall i :: |r| <= i < |s| ==> s[i] == '-') && (r != "" ==> r[|r| - 1] != '-')
  {
    if s != "" && s[|s| - 1] == '-' { TrimmedRight(s[..|s| - 1]); }
  }

  // How much of a legal account is left in its user name, and that it ends where only separators follow.
  lemma StemOf(s: string) returns (n: nat)
    requires LegalAccount(s)
    ensures 0 < n <= |s| && n <= 64 && UserNameForAccount(s) == "cosi-" + Mapped(s)[..n]
    ensures SeparatorsFrom(s, n) && !Separator(s[n - 1])
  {
    var cut := Truncate(Mapped(s), 64);
    assert Mapped(s)[0] != '-' && cut[0] == Mapped(s)[0];
    TrimmedRight(cut);
    var r := TrimHyphensRight(cut);
    n := |r|;
    assert r == Mapped(s)[..n];
    forall i | n <= i < |s| && i < 64 ensures Separator(s[i]) { assert cut[i] == '-' == Mapped(s)[i]; }
    assert r[n - 1] == Mapped(s)[n - 1];
  }

  /** Two accounts share an IAM user exactly when they agree, a dot being as good as a hyphen, up to a point behind
      which neither has anything but dots and hyphens among its first 64 characters. */
  lemma UserNamesCollideIff(a: string, b: string)
    requires LegalAccount(a) && LegalAccount(b)
    ensures UserNameForAccount(a) == UserNameForAccount(b) <==> exists n :: AgreeUpTo(a, b, n)
  {
    hide UserNameForAccount, Mapped, LegalAccount;
    var m := StemOf(a);
    var n := StemOf(b);
    var p, q := "cosi-" + Mapped(a)[..m], "cosi-" + Mapped(b)[..n];
    MappedChars(a);
    MappedChars(b);
    if p == q {
      assert p[5..] == Mapped(a)[..m] && q[5..] == Mapped(b)[..n];
      forall i | 0 <= i < n ensures a[i] == b[i] || (Separator(a[i]) && Separator(b[i])) {
        assert Mapped(a)[..m][i] == Mapped(b)[..n][i];
      }
      assert AgreeUpTo(a, b, n);
    }
    if l :| AgreeUpTo(a, b, l) {
      // Both stems end at their last character that is no separator, and that is the same place.
      LastBefore(a, b, l, m);
      LastBefore(b, a, l, n);
      assert forall i :: 0 <= i < n ==> Mapped(a)[i] == Mapped(b)[i];
      assert Mapped(a)[..m] == Mapped(b)[..n];
    }
  }

  lemma MappedChars(s: string)
    requires LegalAccount(s)
    ensures forall i :: 0 <= i < |s| ==> Mapped(s)[i] == if Separator(s[i]) then '-' else s[i]
  {
  }

  // A character before the 64th that is no separator lies before the point of agreement, and in both accounts.
  lemma LastBefore(a: string, b: string, l: nat, m: nat)
    requires AgreeUpTo(a, b, l) || AgreeUpTo(b, a, l)
    requires 0 < m <= |a| && m <= 64 && !Separator(a[m - 1])
    ensures m <= l && m <= |b| && !Separator(b[m - 1])
  {
  }

  /** So accounts of at most 64 characters share a user exactly when they differ in nothing but dots against hyphens. */
  lemma ShortUserNamesCollideIff(a: string, b: string)
    requires LegalAccount(a) && LegalAccount(b) && |a| <= 64 && |b| <= 64
    ensures UserNameForAccount(a) == UserNameForAccount(b)
       <==> |a| == |b| && forall i :: 0 <= i < |a| ==> a[i] == b[i] || (Separator(a[i]) && Separator(b[i]))
  {
    UserNamesCollideIff(a, b);
    if n :| AgreeUpTo(a, b, n) {
      LastBefore(a, b, n, |a|);
      LastBefore(b, a, n, |b|);
    }
    if |a| == |b| && forall i :: 0 <= i < |a| ==> a[i] == b[i] || (Separator(a[i]) && Separator(b[i])) {
      assert AgreeUpTo(a, b, |a|);
    }
  }

  // Distinct claims can share an IAM user: claim names may contain dots, user names here do not.
  lemma UserNamesCollide()
    ensures UserNameForAccount("team-app.v1") == UserNameForAccount("team-app-v1")
  {
    ShortUserNamesCollideIff("team-app.v1", "team-app-v1");
  }

  /* The specification: what fault-free grants and revocations do to one user */

  function At(users: Users, name: string): Option<User> {
    if name in users then Some(users[name]) else None
  }

  function Put(users: Users, name: string, u: Option<User>): Users {
    if u.Some? then users[name := u.value] else users - {name}
  }

  lemma PutTwice(users: Users, name: string, a: Option<User>, b: Option<User>)
    ensures Put(Put(users, name, a), name, b) == Put(users, name, b)
    ensures At(Put(users, name, a), name) == a
    ensures Put(users, name, At(users, name)) == users
  {
  }

  // The user that a grant starts from: CreateUser leaves an existing one alone.
  function Base(u: Option<User>): User {
    if u.Some? then u.value else User({}, map[])
  }

  // The keys after one more has been issued: at the quota, all old keys go.
  function Rotated(keys: set<string>, newKey: string): set<string> {
    (if |keys| >= ACCESS_KEYS_PER_USER then {} else keys) + {newKey}
  }

  // A grant that issues the key `newKey`.
  function Granted(u: Option<User>, policy: string, doc: PolicyDocument, newKey: string): User {
    User(Rotated(Base(u).keys, newKey), Base(u).policies[policy := doc])
  }

  // A grant that is told to keep the caller's keys.
  function Regranted(u: Option<User>, policy: string, doc: PolicyDocument): User {
    User(Base(u).keys, Base(u).policies[policy := doc])
  }

  // A revocation; an empty access key stands for all of them. DeleteUser is refused while anything is left.
  function Revoked(u: Option<User>, policy: string, accessKey: string): Option<User> {
    if u.None? then None else
    var key := TrimSpace(accessKey);
    var left := User(if key == "" then {} else u.value.keys - {key}, u.value.policies - {policy});
    if left == User({}, map[]) then None else Some(left)
  }

  /** The user is gone after a fault-free revocation exactly when its keys are covered by the ones deleted and
      the policy of this bucket and account is the only one it has. */
  lemma RevokedUserGoneIff(u: User, policy: string, accessKey: string)
    ensures Revoked(Some(u), policy, accessKey).None? <==>
              && u.policies.Keys <= {policy}
              && (TrimSpace(accessKey) == "" || u.keys <= {TrimSpace(accessKey)})
  {
    var rest := u.policies - {policy};
    assert rest == map[] <==> rest.Keys == {};
    assert rest.Keys == u.policies.Keys - {policy};
  }

  /** A grant to an account without a user, then its revocation, is the identity on all of IAM, whether the
      caller still knows the key or not. */
  lemma GrantThenRevokeIsIdentity(users: Users, name: string, policy: string, doc: PolicyDocument, newKey: string,
                                  accessKey: string)
    requires name !in users
    requires TrimSpace(accessKey) in {"", newKey}
    ensures var granted := Put(users, name, Some(Granted(At(users, name), policy, doc, newKey)));
            Put(granted, name, Revoked(At(granted, name), policy, accessKey)) == users
  {
    var user := Granted(None, policy, doc, newKey);
    RevokedUserGoneIff(user, policy, accessKey);
  }

  /** Granting again with the keys from the Secret keeps the keys and only refreshes the policy document, and a
      revocation after it still removes exactly what was granted. */
  lemma RegrantIsIdempotent(u: Option<User>, policy: string, doc: PolicyDocument, newKey: string, accessKey: string)
    ensures var once := Granted(u, policy, doc, newKey);
            && Regranted(Some(once), policy, doc) == once
            && Revoked(Some(Regranted(Some(once), policy, doc)), policy, accessKey)
               == Revoked(Some(once), policy, accessKey)
  {
    var once := Granted(u, policy, doc, newKey);
    assert once.policies[policy := doc] == once.policies;
  }

  /** IAM as the provider sees it. Each call consumes one entry of `fate`; `keyIds` names the key that the
      n-th call would issue and `secretOf` the secret that comes with it. `quotaRefusals` counts the refusals
      that mentioned the key quota. */
  class Iam {
    const fate: nat -> Fate
    const keyIds: nat -> string
    const secretOf: string -> string
    const endpoint: string
    var calls: nat
    var quotaRefusals: nat
    var users: Users

    constructor (fate: nat -> Fate, keyIds: nat -> string, secretOf: string -> string, endpoint: string)
      requires forall m, n :: 0 <= m < n ==> keyIds(m) != keyIds(n)
      ensures Valid() && users == map[]
      ensures this.fate == fate && this.keyIds == keyIds && this.secretOf == secretOf && this.endpoint == endpoint
    {
      this.fate, this.keyIds, this.secretOf, this.endpoint := fate, keyIds, secretOf, endpoint;
      calls, quotaRefusals, users := 0, 0, map[];
    }

    ghost predicate Valid()
      reads this
    {
      && (forall m, n :: 0 <= m < n ==> keyIds(m) != keyIds(n))
      && forall name | name in users :: Sound(users[name], calls)
    }

    // At most two keys, all of them issued before the n-th call.
    ghost predicate Sound(u: User, n: nat) {
      |u.keys| <= ACCESS_KEYS_PER_USER && forall m :: n <= m ==> keyIds(m) !in u.keys
    }

    ghost predicate Faultless() {
      forall n :: fate(n) == Works
    }

    // The user called `name` is now `u`, and no other user has changed.
    twostate predicate Became(name: string, u: Option<User>)
      reads this
    {
      users == Put(old(users), name, u)
    }

    ghost predicate FewerKeysOnly(before: Option<User>, after: Option<User>) {
      if before.None? then after.None?
      else after.Some? && after.value.policies == before.value.policies && after.value.keys <= before.value.keys
    }

    /* The IAM API */

    method CreateUser(name: string) returns (a: Answer<()>)
      requires Valid()
      modifies this`calls, this`users
      ensures Valid() && calls > old(calls)
      ensures Became(name, At(old(users), name)) || Became(name, Some(Base(At(old(users), name))))
      ensures !a.Refused? ==> Became(name, Some(Base(At(old(users), name))))
      ensures Faultless() ==> !a.Refused?
    {
      var f := Next();
      if f.LostRequest? { return Refused; }
      if name in users {
        a := AlreadyExists;
      } else {
        users := users[name := User({}, map[])];
        a := Done(());
      }
      if f.LostReply? { a := Refused; }
    }

    method PutUserPolicy(name: string, policy: string, doc: PolicyDocument) returns (a: Answer<()>)
      requires Valid()
      modifies this`calls, this`users
      ensures Valid() && calls > old(calls)
      ensures var u := At(old(users), name);
              && (Became(name, u) || (u.Some? && Became(name, Some(Regranted(u, policy, doc)))))
              && (a.Done? ==> u.Some? && Became(name, Some(Regranted(u, policy, doc))))
              && (Faultless() && u.Some? ==> a.Done?)
    {
      var f := Next();
      if f.LostRequest? || name !in users { return Refused; }
      users := users[name := User(users[name].keys, users[name].policies[policy := doc])];
      a := if f.LostReply? then Refused else Done(());
    }

    method CreateAccessKey(name: string) returns (a: Answer<string>)
      requires Valid()
      modifies this`calls, this`users, this`quotaRefusals
      ensures Valid() && calls > old(calls)
      ensures quotaRefusals == old(quotaRefusals) + if a.QuotaExceeded? then 1 else 0
      ensures var u, id := At(old(users), name), keyIds(old(calls));
              && (Became(name, u) || (u.Some? && Became(name, Some(User(u.value.keys + {id}, u.value.policies)))))
              && (a.Done? ==>
                    a.value == id && u.Some? && Became(name, Some(User(u.value.keys + {id}, u.value.policies))))
              && (Faultless() && u.Some? ==>
                    if |u.value.keys| < ACCESS_KEYS_PER_USER then a.Done? else a.QuotaExceeded? && Became(name, u))
    {
      var f := Next();
      if f.LostRequest? {
        a := if f.mentionsQuota then QuotaExceeded else Refused;
      } else if name !in users {
        a := Refused;
      } else if |users[name].keys| >= ACCESS_KEYS_PER_USER {
        a := QuotaExceeded;
      } else {
        var id := keyIds(calls - 1);
        users := users[name := User(users[name].keys + {id}, users[name].policies)];
        a := Done(id);
        if f.LostReply? { a := if f.mentionsQuota then QuotaExceeded else Refused; }
      }
      if a.QuotaExceeded? { quotaRefusals := quotaRefusals + 1; }
    }

    method ListAccessKeys(name: string) returns (a: Answer<set<string>>)
      requires Valid()
      modifies this`calls
      ensures Valid() && calls > old(calls)
      ensures a.Done? ==> name in users && a.value == users[name].keys
      ensures Faultless() && name in users ==> a.Done?
    {
      var f := Next();
      a := if f.Works? && name in users then Done(users[name].keys) else Refused;
    }

    method DeleteAccessKey(name: string, key: string)
      requires Valid()
      modifies this`calls, this`users
      ensures Valid() && calls > old(calls)
      ensures var u := At(old(users), name);
              && (Became(name, u) || (u.Some? && Became(name, Some(User(u.value.keys - {key}, u.value.policies)))))
              && (Faultless() && u.Some? ==> Became(name, Some(User(u.value.keys - {key}, u.value.policies))))
    {
      var f := Next();
      if f.LostRequest? || name !in users { return; }
      FewerKeys(users[name].keys - {key}, users[name].keys);
      users := users[name := User(users[name].keys - {key}, users[name].policies)];
    }

    method DeleteUserPolicy(name: string, policy: string)
      requires Valid()
      modifies this`calls, this`users
      ensures Valid() && calls > old(calls)
      ensures var u := At(old(users), name);
              && (Became(name, u) || (u.Some? && Became(name, Some(User(u.value.keys, u.value.policies - {policy})))))
              && (Faultless() && u.Some? ==> Became(name, Some(User(u.value.keys, u.value.policies - {policy}))))
    {
      var f := Next();
      if f.LostRequest? || name !in users { return; }
      users := users[name := User(users[name].keys, users[name].policies - {policy})];
    }

    // Refused while the user still has keys or policies.
    method DeleteUser(name: string)
      requires Valid()
      modifies this`calls, this`users
      ensures Valid() && calls > old(calls)
      ensures var u := At(old(users), name);
              && (Became(name, u) || (u == Some(User({}, map[])) && Became(name, None)))
              && (Faultless() && u == Some(User({}, map[])) ==> Became(name, None))
    {
      var f := Next();
      if f.LostRequest? || name !in users || users[name] != User({}, map[]) { return; }
      users := users - {name};
    }

    method Next() returns (f: Fate)
      modifies this`calls
      ensures f == fate(old(calls)) && calls == old(calls) + 1
    {
      f := fate(calls);
      calls := calls + 1;
    }

    /* The provider */

    // DeleteAccessKey for every key that ListAccessKeys reports; refusals are ignored.
    method DeleteListedKeys(name: string)
      requires Valid()
      modifies this`calls, this`users
      ensures Valid() && calls > old(calls)
      ensures var before, after := At(old(users), name), At(users, name);
              && Became(name, after) && FewerKeysOnly(before, after)
              && (Faultless() && before.Some? ==> after.value.keys == {})
    {
      var listed := ListAccessKeys(name);
      if !listed.Done? { return; }
      var todo := listed.value;
      while todo != {}
        invariant Valid() && calls > old(calls)
        invariant Became(name, At(users, name)) && FewerKeysOnly(At(old(users), name), At(users, name))
        invariant Faultless() ==> Base(At(users, name)).keys <= todo
        decreases todo
      {
        var key :| key in todo;
        ghost var before := users;
        DeleteAccessKey(name, key);
        PutTwice(old(users), name, At(before, name), At(users, name));
        todo := todo - {key};
      }
    }

    // CreateUser and PutUserPolicy, as GrantAccess begins.
    method EnsureUserWithPolicy(name: string, policy: string, doc: PolicyDocument) returns (ok: bool)
      requires Valid()
      modifies this`calls, this`users
      ensures Valid()
      ensures var u := At(old(users), name);
              && (Became(name, u) || Became(name, Some(Base(u))) || Became(name, Some(Regranted(u, policy, doc))))
              && (ok ==> Became(name, Some(Regranted(u, policy, doc))))
              && (Faultless() ==> ok)
    {
      var created := CreateUser(name);
      if created.Refused? { return false; }
      var put := PutUserPolicy(name, policy, doc);
      ok := put.Done?;
    }

    // CreateAccessKey, with one retry after clearing the old keys when the quota is exceeded.
    method RotateKey(name: string) returns (out: Answer<string>)
      requires Valid() && name in users
      modifies this`calls, this`users, this`quotaRefusals
      ensures Valid()
      ensures var before, after := At(old(users), name), At(users, name);
              && Became(name, after) && after.Some? && after.value.policies == before.value.policies
              && (quotaRefusals == old(quotaRefusals) ==> before.value.keys <= after.value.keys)
              && (out.Done? ==> out.value in after.value.keys && out.value !in before.value.keys)
              && (Faultless() ==> out.Done? && after.value.keys == Rotated(before.value.keys, out.value))
    {
      ghost var u0 := users;
      out := CreateAccessKey(name);
      if out.QuotaExceeded? {
        ghost var u1 := users;
        DeleteListedKeys(name);
        PutTwice(u0, name, At(u1, name), At(users, name));
        ghost var u2 := users;
        out := CreateAccessKey(name);
        PutTwice(u0, name, At(u2, name), At(users, name));
      }
    }

    /** GrantAccess, with any pattern of refused calls: at most two keys per user throughout (part of Valid), no
        other user changes, keys disappear only after a refusal that mentioned the key quota, and a success
        means a live new key and the stored policy. With both existing keys supplied the key set stays as it
        is. Without faults the result is the specification's. */
    method GrantAccess(bucket: string, account: string, accessType: string, existingAccessKey: string,
                       existingSecretKey: string)
      returns (r: Result<Credentials>)
      requires Valid()
      modifies this`calls, this`users, this`quotaRefusals
      ensures Valid()
      ensures var name, policy := UserNameForAccount(account), PolicyName(bucket, account);
              var doc := PolicyDocument(bucket, EqualFold(TrimSpace(accessType), "ReadOnly"));
              var keep := TrimSpace(existingAccessKey) != "" && TrimSpace(existingSecretKey) != "";
              var before, after := At(old(users), name), At(users, name);
              && Became(name, after)
              && (keep ==> Base(after).keys == Base(before).keys)
              && (quotaRefusals == old(quotaRefusals) ==> Base(before).keys <= Base(after).keys)
              && (Base(after).policies == Base(before).policies
                  || Base(after).policies == Base(before).policies[policy := doc])
              && (r.Success? ==>
                    && after.Some? && after.value.policies == Base(before).policies[policy := doc]
                    && r.value.bucketName == bucket
                    && if keep then r.value.accessKeyID == TrimSpace(existingAccessKey)
                                    && r.value.accessSecretKey == TrimSpace(existingSecretKey) && r.value.endpoint == ""
                       else r.value.accessKeyID in after.value.keys && r.value.accessKeyID !in Base(before).keys
                            && r.value.accessSecretKey == secretOf(r.value.accessKeyID)
                               && r.value.endpoint == TrimSpace(endpoint))
              && (Faultless() ==>
                    && r.Success?
                    && after == Some(if keep then Regranted(before, policy, doc)
                                     else Granted(before, policy, doc, r.value.accessKeyID)))
    {
      hide UserNameForAccount, PolicyName, EqualFold, TrimSpace;
      var name := UserNameForAccount(account);
      var doc := PolicyDocument(bucket, EqualFold(TrimSpace(accessType), "ReadOnly"));
      var ready := EnsureUserWithPolicy(name, PolicyName(bucket, account), doc);
      if !ready { return Failure; }
      if TrimSpace(existingAccessKey) != "" && TrimSpace(existingSecretKey) != "" {
        return Success(Credentials(TrimSpace(existingAccessKey), TrimSpace(existingSecretKey), bucket, ""));
      }
      var out := RotateKey(name);
      if !out.Done? { return Failure; }
      r := Success(Credentials(out.value, secretOf(out.value), bucket, TrimSpace(endpoint)));
    }

    /** RevokeAccess, with any pattern of refused calls: it never fails, adds nothing and touches one user only.
        Without faults the result is the specification's. */
    method RevokeAccess(bucket: string, account: string, accessKey: string)
      requires Valid()
      modifies this`calls, this`users
      ensures Valid()
      ensures var name := UserNameForAccount(account);
              var before, after := At(old(users), name), At(users, name);
              && Became(name, after)
              && (after.Some? ==> before.Some? && after.value.keys <= before.value.keys
                                  && after.value.policies.Keys <= before.value.policies.Keys)
              && (Faultless() ==> after == Revoked(before, PolicyName(bucket, account), accessKey))
    {
      var name := UserNameForAccount(account);
      ghost var u0 := users;
      DeleteUserPolicy(name, PolicyName(bucket, account));
      ghost var u1 := users;
      if TrimSpace(accessKey) != "" {
        DeleteAccessKey(name, TrimSpace(accessKey));
      } else {
        DeleteListedKeys(name);
      }
      PutTwice(u0, name, At(u1, name), At(users, name));
      ghost var u2 := users;
      DeleteUser(name);
      PutTwice(u0, name, At(u2, name), At(users, name));
    }

    /** A grant to an account without a user, then its revocation, without faults: all of IAM is as it was, whether
        keys were supplied or created, and whether the revocation still knows the key or not. */
    method GrantThenRevoke(bucket: string, account: string, accessType: string, existingAccessKey: string,
                           existingSecretKey: string, forgets: bool) returns (key: string)
      requires Valid() && Faultless() && UserNameForAccount(account) !in users
      modifies this`calls, this`users, this`quotaRefusals
      ensures Valid()
      ensures forgets || TrimSpace(key) == key ==> users == old(users)
    {
      hide UserNameForAccount, PolicyName, EqualFold, TrimSpace;
      ghost var name, policy, u0 := UserNameForAccount(account), PolicyName(bucket, account), users;
      var r := GrantAccess(bucket, account, accessType, existingAccessKey, existingSecretKey);
      ghost var granted := At(users, name);
      key := r.value.accessKeyID;
      TrimSpaceTrimmed("");
      if (TrimSpace(existingAccessKey) == "" || TrimSpace(existingSecretKey) == "")
        && (forgets || TrimSpace(key) == key) {
        var doc := PolicyDocument(bucket, EqualFold(TrimSpace(accessType), "ReadOnly"));
        GrantThenRevokeIsIdentity(u0, name, policy, doc, key, if forgets then "" else key);
      }
      RevokeAccess(bucket, account, if forgets then "" else key);
      PutTwice(u0, name, granted, At(users, name));
    }
  }

  lemma FewerKeys(a: set<string>, b: set<string>)
    requires a <= b
    ensures |a| <= |b|
  {
    if a != {} {
      var x :| x in a;
      FewerKeys(a - {x}, b - {x});
    }
  }
}
