/** A MinIO deployment as maps, and the names and credentials the operator derives (internal/minio/client.go). */
module Minio {
  import opened Text
  import opened Lifecycle

  /* Credentials and names */

  type Byte = i: int | 0 <= i < 256
  type Digest = s: seq<Byte> | |s| == 20 witness [0, 0, 0, 0, 0, 0, 0, 0, 0, 0, 0, 0, 0, 0, 0, 0, 0, 0, 0, 0]

  function HexDigit(n: nat): char
    requires n < 16
  {
    if n < 10 then '0' + n as char else 'a' + (n - 10) as char
  }

  function Hex(bytes: seq<Byte>): (r: string)
    ensures |r| == 2 * |bytes| && forall i :: 0 <= i < |r| ==> '0' <= r[i] <= '9' || 'a' <= r[i] <= 'f'
  {
    if bytes == [] then "" else [HexDigit(bytes[0] / 16), HexDigit(bytes[0] % 16)] + Hex(bytes[1..])
  }

  function AccessKeyForAccount(account: string): string {
    var normalized := Truncate(ToLower(KeepAlnum(account)), 12);
    "cosi" + if normalized == "" then "user" else normalized
  }

  // SHA-1 (section 6.1 of FIPS 180-4) enters as the parameter `digest`.
  function SecretForAccount(digest: string -> Digest, account: string): string {
    Hex(digest(account)) + Hex(digest(account)[..4])
  }

  function PolicyName(bucket: string, account: string): string {
    "cosi-" + bucket + "-" + account
  }

  lemma CredentialsAreTrimmed(digest: string -> Digest, account: string)
    ensures AccessKeyForAccount(account) != ""
    ensures TrimSpace(AccessKeyForAccount(account)) == AccessKeyForAccount(account)
    ensures SecretForAccount(digest, account) != ""
    ensures TrimSpace(SecretForAccount(digest, account)) == SecretForAccount(digest, account)
  {
    var kept := KeepAlnum(account);
    assert forall i :: 0 <= i < |ToLower(kept)| ==> !IsSpace(ToLower(kept)[i]);
    TrimSpaceFixed(AccessKeyForAccount(account));
    TrimSpaceFixed(SecretForAccount(digest, account));
  }

  lemma {:induction false} KeepAlnumConcat(a: string, b: string)
    ensures KeepAlnum(a + b) == KeepAlnum(a) + KeepAlnum(b)
  {
    if a == "" {
      assert a + b == b;
    } else {
      KeepAlnumConcat(a[1..], b);
      assert (a + b)[1..] == a[1..] + b;
    }
  }

  // The first `n` characters are the same, as far as there are any.
  predicate SameStart(p: string, q: string, n: nat) {
    && (|p| == |q| || (|p| >= n && |q| >= n))
    && forall i :: 0 <= i < n && i < |p| && i < |q| ==> p[i] == q[i]
  }

  lemma TruncatedAlike(p: string, q: string, n: nat)
    ensures Truncate(p, n) == Truncate(q, n) <==> SameStart(p, q, n)
  {
    var a, b := Truncate(p, n), Truncate(q, n);
    assert forall i :: 0 <= i < |a| ==> a[i] == p[i];
    assert forall i :: 0 <= i < |b| ==> b[i] == q[i];
  }

  /** Two accounts share their access key, and with it the MinIO user, exactly when the first twelve of their
      alphanumeric characters agree up to case, or when each of them has none or just the word "user". */
  lemma AccessKeysCollideIff(x: string, y: string)
    ensures var p, q := ToLower(KeepAlnum(x)), ToLower(KeepAlnum(y));
            AccessKeyForAccount(x) == AccessKeyForAccount(y)
            <==> SameStart(p, q, 12) || (p in {"", "user"} && q in {"", "user"})
  {
    var p, q := ToLower(KeepAlnum(x)), ToLower(KeepAlnum(y));
    hide KeepAlnum, ToLower, SameStart;
    TruncatedAlike(p, q, 12);
    assert AccessKeyForAccount(x)[4..] == if Truncate(p, 12) == "" then "user" else Truncate(p, 12);
    assert AccessKeyForAccount(y)[4..] == if Truncate(q, 12) == "" then "user" else Truncate(q, 12);
  }

  /** In particular, what follows twelve alphanumeric characters does not matter. */
  lemma AccessKeysCollide(prefix: string, x: string, y: string)
    requires |KeepAlnum(prefix)| >= 12
    ensures AccessKeyForAccount(prefix + x) == AccessKeyForAccount(prefix + y)
  {
    KeepAlnumConcat(prefix, x);
    KeepAlnumConcat(prefix, y);
    AccessKeysCollideIff(prefix + x, prefix + y);
  }

  /* The deployment */

  datatype Policy = Policy(bucket: string, readOnly: bool)

  datatype Bucket = Bucket(
    region: string,
    locking: bool,
    quota: Option<int>,
    lifecycle: seq<Rule>,
    replication: Option<string>,
    empty: bool)

  datatype Server = Server(
    buckets: map<string, Bucket>,
    users: map<string, string>,
    policies: map<string, Policy>,
    attached: map<string, string>)

  // Nobody has the name `user`, and the policy neither exists nor is attached.
  predicate Free(m: Server, user: string, policy: string) {
    user !in m.users && user !in m.attached && policy !in m.policies && policy !in m.attached.Values
  }

  /* Administrative requests; None when the server refuses */

  function MakeBucket(m: Server, b: string, region: string, locking: bool): Option<Server> {
    if b in m.buckets then None
    else Some(m.(buckets := m.buckets[b := Bucket(region, locking, None, [], None, true)]))
  }

  function RemoveBucket(m: Server, b: string): Option<Server> {
    if b !in m.buckets || !m.buckets[b].empty then None else Some(m.(buckets := m.buckets - {b}))
  }

  function SetQuota(m: Server, b: string, quota: int): Option<Server> {
    if b !in m.buckets then None else Some(m.(buckets := m.buckets[b := m.buckets[b].(quota := Some(quota))]))
  }

  function SetLifecycle(m: Server, b: string, rules: seq<Rule>): Option<Server> {
    if b !in m.buckets then None else Some(m.(buckets := m.buckets[b := m.buckets[b].(lifecycle := rules)]))
  }

  function SetReplication(m: Server, b: string, target: string): Option<Server> {
    if b !in m.buckets then None else Some(m.(buckets := m.buckets[b := m.buckets[b].(replication := Some(target))]))
  }

  // Creates the user or replaces its secret; the policy mapping stays.
  function AddUser(m: Server, accessKey: string, secretKey: string): Option<Server> {
    Some(m.(users := m.users[accessKey := secretKey]))
  }

  function AddPolicy(m: Server, name: string, policy: Policy): Option<Server> {
    Some(m.(policies := m.policies[name := policy]))
  }

  function AttachPolicy(m: Server, name: string, accessKey: string): Option<Server> {
    if name !in m.policies || accessKey !in m.users then None
    else Some(m.(attached := m.attached[accessKey := name]))
  }

  // The mapping goes with the user.
  function RemoveUser(m: Server, accessKey: string): Option<Server> {
    if accessKey !in m.users then None
    else Some(m.(users := m.users - {accessKey}, attached := m.attached - {accessKey}))
  }

  // Refused while some user is still mapped to the policy.
  function RemovePolicy(m: Server, name: string): Option<Server> {
    if name !in m.policies || name in m.attached.Values then None
    else Some(m.(policies := m.policies - {name}))
  }
}
