/** Names and synthetic objects of the COSI driver (internal/cosi/mapper.go, internal/cosi/server.go). */
module CosiNames {
  import opened Text
  import opened Kube

  /* Bucket object names: class name followed by the claim's UID */

  predicate LowerHex(c: char) { '0' <= c <= '9' || 'a' <= c <= 'f' }

  // The textual form of a UUID (section 4 of RFC 9562), in lower case.
  predicate IsUuid(s: string) {
    && |s| == 36
    && forall i :: 0 <= i < 36 ==> if i == 8 || i == 13 || i == 18 || i == 23 then s[i] == '-' else LowerHex(s[i])
  }

  // A match of ^(.+)(uuid)$ with its two groups; the dot does not match a newline.
  predicate Matches(text: string, group1: string, group2: string) {
    text == group1 + group2 && group1 != "" && '\n' !in group1 && IsUuid(group2)
  }

  function BucketClassNameFromBucketObjectName(bucketObjectName: string): string {
    var text := TrimSpace(bucketObjectName);
    var cut := |text| - 36;
    if cut > 0 && '\n' !in text[..cut] && IsUuid(text[cut..]) then text[..cut] else ""
  }

  /** The decoder finds exactly the regular expression's match, which can only split 36 characters from the end. */
  lemma DecodeIsTheMatch(bucketObjectName: string)
    ensures var text, name := TrimSpace(bucketObjectName), BucketClassNameFromBucketObjectName(bucketObjectName);
            && (forall g1, g2 :: Matches(text, g1, g2) ==> g1 == name && g2 == text[|text| - 36..])
            && (name != "" ==> Matches(text, name, text[|text| - 36..]))
  {
    var text := TrimSpace(bucketObjectName);
    forall g1, g2 | Matches(text, g1, g2)
      ensures g1 == BucketClassNameFromBucketObjectName(bucketObjectName) && g2 == text[|text| - 36..]
    {
      assert |g1| == |text| - 36;
      assert text[..|text| - 36] == g1 && text[|text| - 36..] == g2;
    }
    if BucketClassNameFromBucketObjectName(bucketObjectName) != "" {
      assert text == text[..|text| - 36] + text[|text| - 36..];
    }
  }

  /** Round trip: the name built from a class and a UID decodes to the class exactly when the class has no
      newline and no leading space. */
  lemma ClassNameRoundTrip(bc: string, uid: string)
    requires bc != "" && IsUuid(uid)
    ensures BucketClassNameFromBucketObjectName(bc + uid) == bc <==> '\n' !in bc && !IsSpace(bc[0])
  {
    var text := bc + uid;
    assert LowerHex(uid[35]) && text[|text| - 1] == uid[35];
    if !IsSpace(bc[0]) {
      TrimSpaceFixed(text);
      assert text[..|text| - 36] == bc && text[|text| - 36..] == uid;
    } else {
      TrimSpaceTrimmed(text);
      var name := BucketClassNameFromBucketObjectName(text);
      assert name != "" ==> TrimSpace(text)[0] == name[0];
    }
  }

  /* Claims and classes built from driver requests */

  function ReplaceUnderscores(s: string): (r: string)
    ensures |r| == |s|
  {
    seq(|s|, i requires 0 <= i < |s| => if s[i] == '_' then '-' else s[i])
  }

  function SyntheticClaimName(cosiName: string): string {
    var s := TrimSpace(cosiName);
    if s == "" then "cosi-access" else Truncate(ReplaceUnderscores(ToLower(s)), 63)
  }

  const DRIVER_NAMESPACE := "cosi"

  // BuildSyntheticClaim: None for an empty bucket object name.
  function SyntheticClaim(bucketObjectName: string, parameters: map<string, string>): Option<(Key, ClaimSpec)> {
    var name := TrimSpace(bucketObjectName);
    if name == "" then None
    else
      var given := TrimSpace(Lookup(parameters, "bucketClassName"));
      var decoded := BucketClassNameFromBucketObjectName(name);
      var className := if given != "" then given else if decoded != "" then decoded else "cosi-bucketclass";
      Some((Key(DRIVER_NAMESPACE, SyntheticClaimName(name)),
            ClaimSpec(className, ToLower(name), None, "ReadWrite", [], None)))
  }

  // syntheticClassFromParameters: None for an empty class name.
  function SyntheticClass(driverName: string, className: string, parameters: map<string, string>): Option<BucketClass> {
    if TrimSpace(className) == "" then None
    else
      var policy := TrimSpace(Lookup(parameters, "deletionPolicy"));
      var locking := TrimSpace(Lookup(parameters, "objectLockingEnabled"));
      var region := TrimSpace(Lookup(parameters, "region"));
      Some(BucketClass(TrimSpace(driverName), "",
                       if policy != "" then policy else "Retain",
                       locking == "true" || locking == "1",
                       parameters["region" := if region == "" then "us-east-1" else region]))
  }

  // Guessing a class from a bucket name never yields a policy that deletes.
  lemma GuessedClassRetains(driverName: string, className: string)
    ensures SyntheticClass(driverName, className, map[]).Some? ==>
              SyntheticClass(driverName, className, map[]).value.deletionPolicy == "Retain"
  {
    TrimSpaceTrimmed("");
  }

  /* Account ids: "<namespace>-<name>", split again at the first '-' */

  function FirstHyphen(s: string): (n: nat)
    ensures n <= |s| && '-' !in s[..n] && (n < |s| ==> s[n] == '-')
  {
    if s == "" || s[0] == '-' then 0
    else
      var n := FirstHyphen(s[1..]);
      assert s[..n + 1] == [s[0]] + s[1..][..n];
      n + 1
  }

  // strings.SplitN(account, "-", 2) with both parts required to be nonempty, after TrimSpace.
  function SplitAccount(accountID: string): Option<Key> {
    var account := TrimSpace(accountID);
    var n := FirstHyphen(account);
    if n >= |account| || n == 0 || n + 1 == |account| then None
    else
      var key := Key(account[..n], account[n + 1..]);
      if Joined(key) != account then None else Some(key)
  }

  /** Splitting an accepted account id and joining it again is the identity, and the re-check in the driver
      never rejects: an id is refused exactly when one of the two parts is empty. */
  lemma SplitThenJoin(accountID: string)
    ensures SplitAccount(accountID).Some? ==> Joined(SplitAccount(accountID).value) == TrimSpace(accountID)
    ensures var account := TrimSpace(accountID);
            var n := FirstHyphen(account);
            SplitAccount(accountID).None? <==> n == 0 || n + 1 >= |account|
  {
    var account := TrimSpace(accountID);
    var n := FirstHyphen(account);
    if 0 < n && n + 1 < |account| {
      assert account == account[..n] + "-" + account[n + 1..];
    }
  }

  /** Joining and splitting gives the key back exactly when the namespace has no hyphen, both parts are
      nonempty and the id has no space at its ends. */
  lemma JoinThenSplit(k: Key)
    ensures SplitAccount(Joined(k)) == Some(k) <==>
              k.namespace != "" && k.name != "" && '-' !in k.namespace && Trimmed(Joined(k))
  {
    var account := Joined(k);
    var n := FirstHyphen(account);
    assert account[|k.namespace|] == '-';
    TrimSpaceFixed(account);
    TrimSpaceTrimmed(account);
    if SplitAccount(account) == Some(k) {
      SplitThenJoin(account);
      assert TrimSpace(account) == account;
      assert k.namespace == account[..n];
    }
    if '-' !in k.namespace && Trimmed(account) {
      FirstHyphenAt(k.namespace, k.name);
      assert account[..|k.namespace|] == k.namespace && account[|k.namespace| + 1..] == k.name;
    }
  }

  lemma FirstHyphenAt(a: string, b: string)
    requires '-' !in a
    ensures FirstHyphen(a + "-" + b) == |a|
  {
    var s := a + "-" + b;
    var n := FirstHyphen(s);
    assert s[|a|] == '-';
    assert forall i :: 0 <= i < |a| ==> s[i] == a[i];
    assert forall i :: 0 <= i < n ==> s[i] in s[..n];
  }

  // The namespace of `k` goes on, behind a hyphen, with the beginning `x` of the name of `j`.
  predicate Overlap(j: Key, k: Key, x: string) {
    k.namespace == j.namespace + "-" + x && j.name == x + "-" + k.name
  }

  /** Two claims share an account id exactly when the longer namespace swallows the beginning of the other's name. */
  lemma AccountsCollideIff(j: Key, k: Key)
    ensures j != k && Joined(j) == Joined(k) <==> exists x :: Overlap(j, k, x) || Overlap(k, j, x)
  {
    forall x | Overlap(j, k, x) || Overlap(k, j, x) ensures j != k && Joined(j) == Joined(k) {
      if Overlap(j, k, x) { OverlapJoins(j, k, x); } else { OverlapJoins(k, j, x); }
    }
    if j != k && Joined(j) == Joined(k) {
      if |j.namespace| < |k.namespace| { var x := OverlapOf(j, k); }
      else if |k.namespace| < |j.namespace| { var x := OverlapOf(k, j); }
      else { SameCut(j, k); }
    }
  }

  lemma OverlapJoins(j: Key, k: Key, x: string)
    requires Overlap(j, k, x)
    ensures Joined(j) == Joined(k) && j != k
  {
    assert Joined(j) == j.namespace + "-" + x + "-" + k.name;
    assert |j.namespace| < |k.namespace|;
  }

  lemma OverlapOf(j: Key, k: Key) returns (x: string)
    requires Joined(j) == Joined(k) && |j.namespace| < |k.namespace|
    ensures Overlap(j, k, x)
  {
    var s, n, m := Joined(j), |j.namespace|, |k.namespace|;
    x := k.namespace[n + 1..];
    assert k.namespace == s[..m] && j.namespace == s[..n] && s[n] == '-';
    assert j.name == s[n + 1..] && k.name == s[m + 1..] && s[m] == '-';
    assert k.namespace == s[..n] + [s[n]] + s[n + 1..m];
    assert s[n + 1..] == s[n + 1..m] + [s[m]] + s[m + 1..];
  }

  lemma SameCut(j: Key, k: Key)
    requires Joined(j) == Joined(k) && |j.namespace| == |k.namespace|
    ensures j == k
  {
    var s, n := Joined(j), |j.namespace|;
    assert j.namespace == s[..n] == k.namespace && j.name == s[n + 1..] == k.name;
  }

  /** So distinct claims in namespaces without hyphens, or in namespaces of one length, never share an account id. */
  lemma AccountsApart(j: Key, k: Key)
    requires j != k
    requires ('-' !in j.namespace && '-' !in k.namespace) || |j.namespace| == |k.namespace|
    ensures Joined(j) != Joined(k)
  {
    AccountsCollideIff(j, k);
    forall x ensures !Overlap(j, k, x) && !Overlap(k, j, x) {
      assert (j.namespace + "-" + x)[|j.namespace|] == '-' && (k.namespace + "-" + x)[|k.namespace|] == '-';
    }
  }

  // "a-b" in namespace "team" and "b" in namespace "team-a" share an account id.
  lemma AccountsCollide()
    ensures Joined(Key("team", "a-b")) == Joined(Key("team-a", "b"))
  {
  }
}
