/** The MinIO provider, call by call (internal/minio/client.go), and the scripts that specify it. */
module MinioClient {
  import opened Text
  import opened Errors
  import opened Lifecycle
  import opened Cluster
  import opened Provisioning
  import M = Minio

  /* Driving a script against a cluster that may fail */

  datatype Failure = Failure(op: Operation, err: Err)

  datatype Driven = Driven(world: World, failure: Option<Failure>, calls: nat)

  // The script is run until it ends or a call that matters fails; `plan(n)` decides about the n-th call.
  function Drive(w: World, todo: Script, plan: nat -> Choice, n: nat): Driven
    decreases Size(todo)
  {
    match todo
    case End => Driven(w, None, n)
    case Then(call, rest) =>
      var (w', r) := Serve(w, call, plan(n));
      AdvanceShortens(call, rest, r);
      match Advance(call, rest, r)
      case Fails(op, err) => Driven(w', Some(Failure(op, err)), n + 1)
      case Goes(next) => Drive(w', next, plan, n + 1)
  }

  function FailedAt(op: Operation, err: Option<Err>): Option<Failure> {
    if err.Some? then Some(Failure(op, err.value)) else None
  }

  // What a backend can answer.
  lemma BackendAnswers(w: World, call: Call, c: Choice)
    requires OnMinio(call)
    ensures var r := Serve(w, call, c).1; r.Refused? || (if call.BucketExists? then r.Exists? else r.Done?)
  {
    hide Effect;
  }

  function EnsureBucket(b: string, region: string, locking: bool): Script {
    Then(BucketExists(b), Then(MakeBucket(b, region, locking), End))
  }

  // Scripts for MinIO alone.
  predicate AllMinio(todo: Script) { todo.Then? ==> OnMinio(todo.call) && AllMinio(todo.rest) }

  lemma AdvanceMinio(call: BackendCall, rest: Script, r: Reply)
    requires AllMinio(rest)
    ensures Advance(call, rest, r).Goes? ==> AllMinio(Advance(call, rest, r).todo)
  {
    hide CallError, OperationOf;
  }

  lemma GrantIsMinio(b: string, account: string, accessType: string, ak: string, sk: string)
    ensures AllMinio(GrantScript(b, account, accessType, ak, sk))
  {
    hide EqualFold, M.PolicyName;
    var s := GrantScript(b, account, accessType, ak, sk);
    assert AllMinio(s.rest.rest.rest);
    assert AllMinio(s.rest.rest);
    assert AllMinio(s.rest);
  }

  // What a provider other than MinIO can answer.
  lemma ForeignAnswers(w: World, call: Call, c: Choice)
    requires OnForeign(call)
    ensures var r := Serve(w, call, c).1;
            r.Refused? || r.RefusedAt? || (if call.ForeignGrant? then r.Granted? else r.Done?)
  {
    hide ServeClaims, ServeSecrets, ServeAccesses, ServeCosi, ServeMinio;
  }

  // A script that is over.
  lemma NothingToDrive(w: World, plan: nat -> Choice, n: nat)
    ensures Drive(w, End, plan, n) == Driven(w, None, n)
  {
  }

  // A call that is refused ends a script, and one that is served leads to the next.
  lemma DriveOne(w: World, call: BackendCall, rest: Script, plan: nat -> Choice, n: nat)
    requires OnMinio(call) && !call.BucketExists? && !BestEffort(call)
    ensures var (w', r) := Serve(w, call, plan(n));
            Drive(w, Then(call, rest), plan, n)
            == if r.Refused? then Driven(w', Some(Failure(OperationOf(call), CallError(call, r.err))), n + 1)
               else Drive(w', rest, plan, n + 1)
  {
    hide Serve, CallError, OperationOf;
    BackendAnswers(w, call, plan(n));
  }

  /* The provider's operations */

  method CreateBucket(client: Client, bucketName: string, region: string, objectLocking: bool)
    returns (err: Option<Err>)
    modifies client
    ensures Drive(old(client.Now()), EnsureBucket(bucketName, region, objectLocking), client.plan, old(client.calls))
            == Driven(client.Now(), FailedAt(Operation.CreateBucket, err), client.calls)
  {
    hide Serve, CallError;
    BackendAnswers(client.Now(), BucketExists(bucketName), client.plan(client.calls));
    var exists_ := client.Issue(BucketExists(bucketName));
    if exists_.Refused? { return Some(CallError(BucketExists(bucketName), exists_.err)); }
    if exists_.yes { return None; }
    var make := MakeBucket(bucketName, region, objectLocking);
    BackendAnswers(client.Now(), make, client.plan(client.calls));
    var made := client.Issue(make);
    NothingToDrive(client.Now(), client.plan, client.calls);
    if made.Refused? { return Some(CallError(make, made.err)); }
    return None;
  }

  // Does nothing unless the quota is positive.
  method SetBucketQuota(client: Client, bucketName: string, quotaBytes: int) returns (err: Option<Err>)
    modifies client
    ensures Drive(old(client.Now()), if quotaBytes > 0 then Then(Call.SetQuota(bucketName, quotaBytes), End) else End,
                  client.plan, old(client.calls))
            == Driven(client.Now(), FailedAt(Operation.SetQuota, err), client.calls)
  {
    hide Serve;
    if quotaBytes <= 0 { return None; }
    BackendAnswers(client.Now(), Call.SetQuota(bucketName, quotaBytes), client.plan(client.calls));
    var r := client.Issue(Call.SetQuota(bucketName, quotaBytes));
    NothingToDrive(client.Now(), client.plan, client.calls);
    return if r.Refused? then Some(r.err) else None;
  }

  method SetBucketLifecycle(client: Client, bucketName: string, rules: seq<Rule>) returns (err: Option<Err>)
    modifies client
    ensures Drive(old(client.Now()), Then(Call.SetLifecycle(bucketName, rules), End), client.plan, old(client.calls))
            == Driven(client.Now(), FailedAt(Operation.SetLifecycle, err), client.calls)
  {
    hide Serve;
    BackendAnswers(client.Now(), Call.SetLifecycle(bucketName, rules), client.plan(client.calls));
    var r := client.Issue(Call.SetLifecycle(bucketName, rules));
    NothingToDrive(client.Now(), client.plan, client.calls);
    return if r.Refused? then Some(r.err) else None;
  }

  // The caller logs a failure and goes on.
  method SetBucketReplication(client: Client, bucketName: string, target: string) returns (err: Option<Err>)
    modifies client
    ensures Drive(old(client.Now()), Then(SetReplication(bucketName, target), End), client.plan, old(client.calls))
            == Driven(client.Now(), None, client.calls)
  {
    hide Serve;
    BackendAnswers(client.Now(), SetReplication(bucketName, target), client.plan(client.calls));
    var r := client.Issue(SetReplication(bucketName, target));
    NothingToDrive(client.Now(), client.plan, client.calls);
    return if r.Refused? then Some(r.err) else None;
  }

  // Does not fail when the bucket is already gone.
  method DeleteBucket(client: Client, bucketName: string) returns (err: Option<Err>)
    modifies client
    ensures Drive(old(client.Now()), DeleteScript(bucketName), client.plan, old(client.calls))
            == Driven(client.Now(), FailedAt(Operation.CreateBucket, err), client.calls)
  {
    hide Serve, CallError;
    BackendAnswers(client.Now(), BucketExists(bucketName), client.plan(client.calls));
    var exists_ := client.Issue(BucketExists(bucketName));
    if exists_.Refused? { return Some(CallError(BucketExists(bucketName), exists_.err)); }
    if !exists_.yes {
      NothingToDrive(client.Now(), client.plan, client.calls);
      return None;
    }
    var remove := RemoveBucket(bucketName);
    BackendAnswers(client.Now(), remove, client.plan(client.calls));
    var removed := client.Issue(remove);
    NothingToDrive(client.Now(), client.plan, client.calls);
    if removed.Refused? { return Some(CallError(remove, removed.err)); }
    return None;
  }

  // The keys in use afterwards: the existing ones, or those derived from the account.
  datatype Keys = Keys(accessKey: string, secretKey: string)

  function ChooseKeys(digest: string -> M.Digest, accountID: string, accessKey: string, secretKey: string): Keys {
    Keys(KeyOr(accessKey, accountID), SecretOr(digest, secretKey, accountID))
  }

  /** The choice settles: a given key is kept, a missing one is made up from the account alone and is never blank,
      and the keys once chosen are chosen again when they come back from their Secret with the spaces trimmed, unless
      the keys given in the first place had spaces around them. */
  lemma KeysSettle(digest: string -> M.Digest, account: string, accessKey: string, secretKey: string, elsewhere: string)
    ensures var keys := ChooseKeys(digest, account, accessKey, secretKey);
            && keys.accessKey != "" && keys.secretKey != ""
            && (accessKey != "" ==> keys.accessKey == accessKey) && (secretKey != "" ==> keys.secretKey == secretKey)
            && (accessKey != "" && secretKey != "" ==> keys == ChooseKeys(digest, elsewhere, accessKey, secretKey))
            && (TrimSpace(accessKey) == accessKey && TrimSpace(secretKey) == secretKey ==>
                  ChooseKeys(digest, account, TrimSpace(keys.accessKey), TrimSpace(keys.secretKey)) == keys)
  {
    hide M.AccessKeyForAccount, M.SecretForAccount, TrimSpace;
    M.CredentialsAreTrimmed(digest, account);
  }

  method PickKeys(digest: string -> M.Digest, accountID: string, existingAccessKey: string, existingSecretKey: string)
    returns (keys: Keys)
    ensures keys == ChooseKeys(digest, accountID, existingAccessKey, existingSecretKey)
  {
    hide M.AccessKeyForAccount, M.SecretForAccount;
    var accessKey, secretKey := existingAccessKey, existingSecretKey;
    if accessKey == "" { accessKey := M.AccessKeyForAccount(accountID); }
    if secretKey == "" { secretKey := M.SecretForAccount(digest, accountID); }
    keys := Keys(accessKey, secretKey);
  }

  lemma GrantCalls()
    ensures forall ak, sk ::
              && OnMinio(AddUser(ak, sk)) && !BestEffort(AddUser(ak, sk))
              && OperationOf(AddUser(ak, sk)) == Operation.GrantAccess
    ensures forall p, d ::
              && OnMinio(AddPolicy(p, d)) && !BestEffort(AddPolicy(p, d))
              && OperationOf(AddPolicy(p, d)) == Operation.GrantAccess
    ensures forall p, ak ::
              && OnMinio(AttachPolicy(p, ak)) && !BestEffort(AttachPolicy(p, ak))
              && OperationOf(AttachPolicy(p, ak)) == Operation.GrantAccess
  {
  }

  method GrantAccess(client: Client, digest: string -> M.Digest, bucketName: string, accountID: string,
                     accessType: string,
                     existingAccessKey: string, existingSecretKey: string) returns (keys: Keys, err: Option<Err>)
    modifies client
    ensures keys == ChooseKeys(digest, accountID, existingAccessKey, existingSecretKey)
    ensures Drive(old(client.Now()), GrantScript(bucketName, accountID, accessType, keys.accessKey, keys.secretKey),
                  client.plan, old(client.calls))
            == Driven(client.Now(), FailedAt(Operation.GrantAccess, err), client.calls)
  {
    hide Serve, CallError, OperationOf, EqualFold, M.PolicyName, ChooseKeys, Drive, OnMinio, BestEffort;
    GrantCalls();
    keys := PickKeys(digest, accountID, existingAccessKey, existingSecretKey);
    var policyName := M.PolicyName(bucketName, accountID);
    var user := AddUser(keys.accessKey, keys.secretKey);
    var policy := AddPolicy(policyName, M.Policy(bucketName, EqualFold(accessType, "ReadOnly")));
    var attach := AttachPolicy(policyName, keys.accessKey);

    DriveOne(client.Now(), user, Then(policy, Then(attach, End)), client.plan, client.calls);
    var r := client.Issue(user);
    if r.Refused? { return keys, Some(CallError(user, r.err)); }
    DriveOne(client.Now(), policy, Then(attach, End), client.plan, client.calls);
    r := client.Issue(policy);
    if r.Refused? { return keys, Some(CallError(policy, r.err)); }
    DriveOne(client.Now(), attach, End, client.plan, client.calls);
    r := client.Issue(attach);
    NothingToDrive(client.Now(), client.plan, client.calls);
    err := if r.Refused? then Some(CallError(attach, r.err)) else None;
  }

  // Failures are logged; the caller is told that all went well.
  method RevokeAccess(client: Client, bucketName: string, accountID: string, accessKey: string)
    modifies client
    ensures Drive(old(client.Now()), RevokeScript(bucketName, accountID, accessKey), client.plan, old(client.calls))
            == Driven(client.Now(), None, client.calls)
  {
    hide Serve, M.PolicyName, M.AccessKeyForAccount;
    var key := accessKey;
    if key == "" { key := M.AccessKeyForAccount(accountID); }
    var user := client.Issue(RemoveUser(key));
    assert Drive(old(client.Now()), RevokeScript(bucketName, accountID, accessKey), client.plan, old(client.calls))
        == Drive(client.Now(), Then(RemovePolicy(M.PolicyName(bucketName, accountID)), End), client.plan, client.calls);
    var policy := client.Issue(RemovePolicy(M.PolicyName(bucketName, accountID)));
    NothingToDrive(client.Now(), client.plan, client.calls);
  }
}
