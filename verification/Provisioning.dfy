/** Names, and the calls that provisioning and teardown issue against MinIO, in order
    (internal/provisioning/provisioning.go, internal/minio/client.go). */
module Provisioning {
  import opened Text
  import opened Errors
  import opened Lifecycle
  import opened Backend
  import opened Kube
  import opened Cluster
  import M = Minio

  /* Names */

  function EffectiveBucketName(k: Key, spec: ClaimSpec, bc: BucketClass): string {
    var explicit := TrimSpace(spec.bucketName);
    var hint := TrimSpace(Lookup(bc.parameters, "bucketName"));
    ToLower(if explicit != "" then explicit else if hint != "" then hint else Joined(k))
  }

  function Region(bc: BucketClass): string {
    if Lookup(bc.parameters, "region") == "" then "us-east-1" else Lookup(bc.parameters, "region")
  }

  // The name that finalization works with; it is neither trimmed nor lower-cased, and no hint is consulted.
  function FinalBucketName(k: Key, c: Claim): string {
    if c.status.bucketName != "" then c.status.bucketName
    else if c.spec.bucketName != "" then c.spec.bucketName
    else Joined(k)
  }

  function CredentialsKey(k: Key): Key { Key(k.namespace, k.name + "-credentials") }

  predicate UsesMinio(bc: BucketClass) { KindOf(bc.backend) == Some(MinIO) }

  /* Scripts: the calls of one provider operation after another */

  datatype Script = End | Then(call: BackendCall, rest: Script)

  // The configuration built from a claim's rules (the loop is Lifecycle.BuildConfiguration).
  function Rules(rules: seq<ClaimRule>): seq<Rule> {
    seq(|rules|, i requires 0 <= i < |rules| => ToRule(rules[i]))
  }

  // createBucketAndConfigure, followed by `rest`
  function BucketScript(b: string, spec: ClaimSpec, bc: BucketClass, rest: Script): Script {
    Then(BucketExists(b), Then(MakeBucket(b, Region(bc), bc.objectLockingEnabled), QuotaScript(b, spec, rest)))
  }

  function QuotaScript(b: string, spec: ClaimSpec, rest: Script): Script {
    var next := LifecycleScript(b, spec, rest);
    if spec.quotaBytes.Some? && spec.quotaBytes.value > 0 then Then(Call.SetQuota(b, spec.quotaBytes.value), next)
    else next
  }

  function LifecycleScript(b: string, spec: ClaimSpec, rest: Script): Script {
    var next := ReplicationScript(b, spec, rest);
    if |spec.lifecycleRules| > 0 then Then(Call.SetLifecycle(b, Rules(spec.lifecycleRules)), next) else next
  }

  function ReplicationScript(b: string, spec: ClaimSpec, rest: Script): Script {
    if spec.replicationTarget.Some? then Then(SetReplication(b, spec.replicationTarget.value), rest) else rest
  }

  // GrantAccess, for keys already chosen
  function GrantScript(b: string, account: string, accessType: string, accessKey: string, secretKey: string): Script {
    var policy := M.PolicyName(b, account);
    Then(AddUser(accessKey, secretKey),
         Then(AddPolicy(policy, M.Policy(b, EqualFold(accessType, "ReadOnly"))),
              Then(AttachPolicy(policy, accessKey), End)))
  }

  // RevokeAccess
  function RevokeScript(b: string, account: string, accessKey: string): Script {
    Then(RemoveUser(KeyOr(accessKey, account)), Then(RemovePolicy(M.PolicyName(b, account)), End))
  }

  // DeleteBucket
  function DeleteScript(b: string): Script { Then(BucketExists(b), Then(RemoveBucket(b), End)) }

  function KeyOr(accessKey: string, account: string): string {
    if accessKey == "" then M.AccessKeyForAccount(account) else accessKey
  }

  function SecretOr(digest: string -> M.Digest, secretKey: string, account: string): string {
    if secretKey == "" then M.SecretForAccount(digest, account) else secretKey
  }

  /* Errors of the single calls */

  function Quoted(s: string): string { "\"" + s + "\"" }

  // fmt.Errorf("<text>: %w", err)
  function Wrapf(text: string, err: Err): Err { Wrapping(text + ": " + Message(err), None, err) }

  function Incomplete(): Err { Plain("minio returned incomplete credential data", None) }

  function CallError(call: Call, err: Err): Err {
    match call
    case BucketExists(_) => Wrapf("checking bucket existence", err)
    case MakeBucket(b, _, _) => Wrapf("creating bucket " + Quoted(b), err)
    case RemoveBucket(b) => Wrapf("deleting bucket " + Quoted(b), err)
    case AddUser(ak, _) => Wrapf("creating MinIO user " + Quoted(ak), err)
    case AddPolicy(policy, _) => Wrapf("creating policy " + Quoted(policy), err)
    case AttachPolicy(_, ak) => Wrapf("attaching policy to user " + Quoted(ak), err)
    case _ => err
  }

  // The operation that a failed call is reported under.
  function OperationOf(call: Call): Operation {
    match call
    case SetQuota(_, _) => Operation.SetQuota
    case SetLifecycle(_, _) => Operation.SetLifecycle
    case AddUser(_, _) => GrantAccess
    case AddPolicy(_, _) => GrantAccess
    case AttachPolicy(_, _) => GrantAccess
    case _ => CreateBucket
  }

  // Replication, and every call of RevokeAccess: a failure is logged and the work goes on.
  predicate BestEffort(call: Call) { call.SetReplication? || call.RemoveUser? || call.RemovePolicy? }

  /* Running a script */

  datatype Progress = Goes(todo: Script) | Fails(op: Operation, err: Err)

  // A bucket that exists is not made again, and one that is gone is not removed again.
  function Skip(todo: Script, yes: bool): Script {
    match todo
    case Then(MakeBucket(_, _, _), rest) => if yes then rest else todo
    case Then(RemoveBucket(_), rest) => if yes then todo else rest
    case _ => todo
  }

  // The reply to the first call of a script, whose other calls are `rest`.
  function Advance(call: BackendCall, rest: Script, r: Reply): Progress {
    if BestEffort(call) then Goes(rest)
    else
      match r
      case RefusedAt(op, err) => Fails(op, err)
      case Refused(err) => Fails(OperationOf(call), CallError(call, err))
      case Exists(yes) => Goes(Skip(rest, yes))
      case _ => Goes(rest)
  }

  function Size(todo: Script): nat { if todo.End? then 0 else 1 + Size(todo.rest) }

  lemma AdvanceShortens(call: BackendCall, rest: Script, r: Reply)
    ensures Advance(call, rest, r).Goes? ==> Size(Advance(call, rest, r).todo) <= Size(rest)
  {
    hide CallError, OperationOf;
  }

  /* Scripts that remove no bucket */

  // The calls that ask for the deletion of a bucket.
  predicate Destroys(call: Call) { call.RemoveBucket? || call.ForeignDelete? }

  predicate Keeps(todo: Script) { todo.End? || (!Destroys(todo.call) && Keeps(todo.rest)) }

  lemma GrantKeeps(b: string, account: string, accessType: string, ak: string, sk: string)
    ensures Keeps(GrantScript(b, account, accessType, ak, sk))
  {
    hide EqualFold, M.PolicyName;
    assert Keeps(GrantScript(b, account, accessType, ak, sk).rest.rest);
  }

  lemma RevokeKeeps(b: string, account: string, ak: string)
    ensures Keeps(RevokeScript(b, account, ak))
  {
    hide KeyOr, M.PolicyName;
    assert Keeps(RevokeScript(b, account, ak).rest);
  }

  lemma BucketKeeps(b: string, spec: ClaimSpec, bc: BucketClass, rest: Script)
    requires Keeps(rest)
    ensures Keeps(BucketScript(b, spec, bc, rest))
  {
    hide Region, Rules;
    assert Keeps(ReplicationScript(b, spec, rest));
    assert Keeps(LifecycleScript(b, spec, rest));
    assert Keeps(QuotaScript(b, spec, rest));
  }

  lemma AdvanceKeeps(call: BackendCall, rest: Script, r: Reply)
    requires Keeps(rest)
    ensures Advance(call, rest, r).Goes? ==> Keeps(Advance(call, rest, r).todo)
  {
    hide CallError, OperationOf;
  }

  // Settings of the running operator. `isTransient` is Errors.IsTransient; nothing in the machines depends on
  // which errors it calls transient.
  datatype Config = Config(digest: string -> M.Digest, isTransient: Err -> bool, endpoint: string,
                           enableCosi: bool, driverName: string)

  datatype Creds = Creds(bucket: string, accessKey: string, secretKey: string, endpoint: string)

  function TrimmedCreds(c: Creds): Creds {
    Creds(c.bucket, TrimSpace(c.accessKey), TrimSpace(c.secretKey), TrimSpace(c.endpoint))
  }

  predicate Complete(c: Creds) { c.accessKey != "" && c.secretKey != "" && c.endpoint != "" }
}
