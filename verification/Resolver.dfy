/** The provider cache (internal/backend/resolve/resolver.go) under concurrent calls and object updates. */
module Resolver {
  import opened Text
  import opened Backend

  datatype ObjectKind = SecretKind | ConfigMapKind
  datatype ObjectKey = ObjectKey(kind: ObjectKind, namespace: string, name: string)
  type Data = map<string, string>
  datatype Object = Object(resourceVersion: string, data: Data)

  datatype SecretRef = SecretRef(namespace: string, name: string)
  datatype PolicyRef = PolicyRef(kind: string, namespace: string, name: string, key: string)
  datatype Class = Class(backend: string, minioRef: Option<SecretRef>, awsRef: Option<SecretRef>,
                         policyRef: Option<PolicyRef>)

  datatype MinioConfig = MinioConfig(endpoint: string, accessKey: string, secretKey: string, useSSL: bool)
  datatype AwsConfig = AwsConfig(region: string, accessKeyID: string, secretAccessKey: string, s3Endpoint: string,
                                 iamEndpoint: string)

  // A client or provider is known by what it was built from.
  datatype Provider = DefaultMinio | Minio(config: MinioConfig) | Aws(awsConfig: AwsConfig, policy: string)

  datatype Failure = UnsupportedBackend | NoDefault | BadReference | ObjectNotFound | InvalidSecret
                   | BadPolicyKind | PolicyMissing | PolicyNotJson | BuildRefused

  datatype Outcome = Provides(provider: Provider) | Fails(failure: Failure)

  // The parts of the outside world that do not change: which JSON texts parse, which settings the client
  // libraries accept, and whether the operator was started with a default MinIO.
  datatype Env = Env(isJson: string -> bool, accepts: MinioConfig -> bool, acceptsAws: AwsConfig -> bool,
                     hasDefault: bool)

  /* Secrets to configurations */

  function FirstSecretString(data: Data, keys: seq<string>): string {
    if keys == [] then ""
    else if keys[0] in data && data[keys[0]] != "" then TrimSpace(data[keys[0]])
    else FirstSecretString(data, keys[1..])
  }

  function MinioConfigFrom(data: Data): Option<MinioConfig> {
    var endpoint := FirstSecretString(data, ["MINIO_ENDPOINT", "endpoint"]);
    var access := FirstSecretString(data, ["MINIO_ACCESS_KEY", "accessKey", "accessKeyID"]);
    var secret := FirstSecretString(data, ["MINIO_SECRET_KEY", "secretKey", "secretAccessKey"]);
    var ssl := FirstSecretString(data, ["MINIO_USE_SSL", "useSSL"]);
    if endpoint == "" || access == "" || secret == "" then None
    else Some(MinioConfig(endpoint, access, secret, ssl == "true" || ssl == "1" || EqualFold(ssl, "yes")))
  }

  function AwsConfigFrom(data: Data): Option<AwsConfig> {
    var region := FirstSecretString(data, ["AWS_REGION", "region"]);
    var access := FirstSecretString(data, ["AWS_ACCESS_KEY_ID", "accessKeyID"]);
    var secret := FirstSecretString(data, ["AWS_SECRET_ACCESS_KEY", "secretAccessKey", "secretAccessKeyID"]);
    if region == "" || access == "" || secret == "" then None
    else Some(AwsConfig(region, access, secret, FirstSecretString(data, ["AWS_S3_ENDPOINT", "s3Endpoint"]),
                        FirstSecretString(data, ["AWS_IAM_ENDPOINT", "iamEndpoint"])))
  }

  /* What a call reads, and the verdicts it reaches before it takes the lock */

  predicate Named(ref: Option<SecretRef>) { ref.Some? && ref.value.name != "" }

  predicate WantsPolicy(bc: Class) { bc.policyRef.Some? && TrimSpace(bc.policyRef.value.name) != "" }

  function PolicyKind(ref: PolicyRef): string {
    if TrimSpace(ref.kind) == "" then "ConfigMap" else TrimSpace(ref.kind)
  }

  function MinioSecretKey(bc: Class): ObjectKey
    requires Named(bc.minioRef)
  {
    ObjectKey(SecretKind, bc.minioRef.value.namespace, bc.minioRef.value.name)
  }

  function AwsSecretKey(bc: Class): ObjectKey
    requires Named(bc.awsRef)
  {
    ObjectKey(SecretKind, bc.awsRef.value.namespace, bc.awsRef.value.name)
  }

  function PolicyObjectKey(bc: Class): ObjectKey
    requires WantsPolicy(bc)
  {
    var ref := bc.policyRef.value;
    ObjectKey(if PolicyKind(ref) == "Secret" then SecretKind else ConfigMapKind, ref.namespace, ref.name)
  }

  // The document that a policy object holds for the class; ConfigMap entries are trimmed, Secret entries are not.
  function PolicyText(bc: Class, data: Data): string
    requires WantsPolicy(bc)
  {
    var ref := bc.policyRef.value;
    if ref.key !in data then ""
    else if PolicyKind(ref) == "Secret" then data[ref.key] else TrimSpace(data[ref.key])
  }

  function MinioSecretVerdict(env: Env, secret: Option<Object>): Option<Failure> {
    if secret.None? then Some(ObjectNotFound)
    else if MinioConfigFrom(secret.value.data).None? then Some(InvalidSecret)
    else None
  }

  // Checks between reading the AWS Secret and reading the policy object.
  function AwsSecretVerdict(bc: Class, secret: Option<Object>): Option<Failure> {
    if secret.None? then Some(ObjectNotFound)
    else if AwsConfigFrom(secret.value.data).None? then Some(InvalidSecret)
    else if !WantsPolicy(bc) then None
    else if TrimSpace(bc.policyRef.value.namespace) == "" || TrimSpace(bc.policyRef.value.key) == "" then
      Some(BadReference)
    else if PolicyKind(bc.policyRef.value) !in {"ConfigMap", "Secret"} then Some(BadPolicyKind)
    else None
  }

  function PolicyVerdict(env: Env, bc: Class, policy: Option<Object>): Option<Failure>
    requires WantsPolicy(bc)
  {
    if policy.None? then Some(ObjectNotFound)
    else if PolicyText(bc, policy.value.data) == "" then Some(PolicyMissing)
    else if !env.isJson(PolicyText(bc, policy.value.data)) then Some(PolicyNotJson)
    else None
  }

  // Checks on the class alone: the failure that stops a call before any read, or None to go on reading.
  function ClassVerdict(env: Env, bc: Class): Option<Outcome> {
    match KindOf(bc.backend)
    case None => Some(Fails(UnsupportedBackend))
    case Some(MinIO) =>
      if !Named(bc.minioRef) then Some(if env.hasDefault then Provides(DefaultMinio) else Fails(NoDefault))
      else if bc.minioRef.value.namespace == "" then Some(Fails(BadReference))
      else None
    case Some(AWS) =>
      if !Named(bc.awsRef) || bc.awsRef.value.namespace == "" then Some(Fails(BadReference)) else None
  }

  predicate UsesMinio(bc: Class) { KindOf(bc.backend) == Some(MinIO) }

  function BuildAws(env: Env, cfg: AwsConfig, doc: string): Outcome {
    if env.acceptsAws(cfg) then Provides(Aws(cfg, doc)) else Fails(BuildRefused)
  }

  /** The uncached resolver: the outcome for a class given what was read for it. */
  function Build(env: Env, bc: Class, secret: Option<Object>, policy: Option<Object>): Outcome {
    var first := ClassVerdict(env, bc);
    if first.Some? then first.value
    else if UsesMinio(bc) then
      var v := MinioSecretVerdict(env, secret);
      if v.Some? then Fails(v.value)
      else
        var cfg := MinioConfigFrom(secret.value.data).value;
        if env.accepts(cfg) then Provides(Minio(cfg)) else Fails(BuildRefused)
    else
      var v := AwsSecretVerdict(bc, secret);
      if v.Some? then Fails(v.value)
      else
        var cfg := AwsConfigFrom(secret.value.data).value;
        if !WantsPolicy(bc) then BuildAws(env, cfg, "")
        else
          var p := PolicyVerdict(env, bc, policy);
          if p.Some? then Fails(p.value) else BuildAws(env, cfg, PolicyText(bc, policy.value.data))
  }

  /* The caches */

  datatype Entry = Entry(resourceVersion: string, provider: Provider)

  type Cache = map<string, Entry>

  function MinioCacheKey(bc: Class): string
    requires Named(bc.minioRef)
  {
    bc.minioRef.value.namespace + "/" + bc.minioRef.value.name
  }

  function PolicyKeyText(bc: Class): string {
    if !WantsPolicy(bc) then ""
    else
      var ref := bc.policyRef.value;
      PolicyKind(ref) + ":" + (ref.namespace + "/" + (ref.name + "#" + ref.key))
  }

  function AwsCacheKey(bc: Class): string
    requires Named(bc.awsRef)
  {
    bc.awsRef.value.namespace + "/" + (bc.awsRef.value.name + "|" + PolicyKeyText(bc))
  }

  function CombinedVersion(secret: Object, policy: Option<Object>): string {
    secret.resourceVersion + "|" + (if policy.Some? then policy.value.resourceVersion else "")
  }

  // The section under the lock: use the entry of this version, or build and remember.
  function LookUp(cache: Cache, key: string, version: string, built: Outcome): (Cache, Outcome) {
    if key in cache && cache[key].resourceVersion == version then (cache, Provides(cache[key].provider))
    else if built.Provides? then (cache[key := Entry(version, built.provider)], built)
    else (cache, built)
  }

  class ResolverState {
    var cache: Cache
    var awsCache: Cache

    constructor ()
      ensures cache == map[] && awsCache == map[]
    {
      cache, awsCache := map[], map[];
    }

    // minioProviderForClass from the lock on; what was read has passed the checks.
    method MinioSection(env: Env, bc: Class, secret: Object) returns (r: Outcome)
      requires UsesMinio(bc) && ClassVerdict(env, bc).None? && MinioSecretVerdict(env, Some(secret)).None?
      modifies this`cache
      ensures (cache, r)
              == LookUp(old(cache), MinioCacheKey(bc), secret.resourceVersion, Build(env, bc, Some(secret), None))
    {
      var cacheKey := bc.minioRef.value.namespace + "/" + bc.minioRef.value.name;
      if cacheKey in cache && cache[cacheKey].resourceVersion == secret.resourceVersion {
        return Provides(cache[cacheKey].provider);
      }
      var cfg := MinioConfigFrom(secret.data).value;
      if !env.accepts(cfg) { return Fails(BuildRefused); }
      cache := cache[cacheKey := Entry(secret.resourceVersion, Minio(cfg))];
      r := Provides(Minio(cfg));
    }

    // awsProviderForClass from the lock on; what was read has passed the checks.
    method AwsSection(env: Env, bc: Class, secret: Object, policy: Option<Object>) returns (r: Outcome)
      requires !UsesMinio(bc) && ClassVerdict(env, bc).None? && AwsSecretVerdict(bc, Some(secret)).None?
      requires if WantsPolicy(bc) then PolicyVerdict(env, bc, policy).None? else policy.None?
      modifies this`awsCache
      ensures (awsCache, r)
              == LookUp(old(awsCache), AwsCacheKey(bc), CombinedVersion(secret, policy),
                        Build(env, bc, Some(secret), policy))
    {
      var policyKey, doc := "", "";
      if WantsPolicy(bc) {
        var pr := bc.policyRef.value;
        policyKey := PolicyKind(pr) + ":" + (pr.namespace + "/" + (pr.name + "#" + pr.key));
        doc := PolicyText(bc, policy.value.data);
      }
      var cacheKey := bc.awsRef.value.namespace + "/" + (bc.awsRef.value.name + "|" + policyKey);
      var combinedRV := secret.resourceVersion + "|" + (if policy.Some? then policy.value.resourceVersion else "");
      if cacheKey in awsCache && awsCache[cacheKey].resourceVersion == combinedRV {
        return Provides(awsCache[cacheKey].provider);
      }
      var cfg := AwsConfigFrom(secret.data).value;
      if !env.acceptsAws(cfg) { return Fails(BuildRefused); }
      var p := Aws(cfg, doc);
      awsCache := awsCache[cacheKey := Entry(combinedRV, p)];
      r := Provides(p);
    }
  }

  /* Composed strings can be taken apart again */

  lemma SplitUnique(a: string, b: string, c: string, d: string, sep: char)
    requires sep !in a && sep !in c && a + [sep] + b == c + [sep] + d
    ensures a == c && b == d
  {
    var s := a + [sep] + b;
    assert forall k :: 0 <= k < |a| ==> s[k] == a[k];
    assert s == c + [sep] + d;
    assert forall k :: 0 <= k < |c| ==> s[k] == c[k];
    assert s[|a|] == sep && s[|c|] == sep;
    assert a == s[..|a|] && c == s[..|c|];
    assert b == s[|a| + 1..] && d == s[|c| + 1..];
  }

  predicate NameChar(c: char) { 'a' <= c <= 'z' || '0' <= c <= '9' || c == '-' || c == '.' }
  predicate LegalName(s: string) { s != "" && forall i :: 0 <= i < |s| ==> NameChar(s[i]) }
  predicate LegalDataKey(s: string) { forall i :: 0 <= i < |s| ==> IsAlnum(s[i]) || s[i] in {'-', '_', '.'} }
  predicate LegalVersion(s: string) { forall i :: 0 <= i < |s| ==> '0' <= s[i] <= '9' }

  predicate LegalRef(ref: SecretRef) { LegalName(ref.namespace) && LegalName(ref.name) }

  predicate LegalPolicyRef(ref: PolicyRef) {
    LegalName(ref.namespace) && LegalName(ref.name) && LegalDataKey(ref.key)
      && PolicyKind(ref) in {"ConfigMap", "Secret"}
  }

  /** Two classes with legal references share an AWS cache key only if they name the same Secret and the same
      entry of the same policy object. */
  lemma AwsCacheKeyInjective(c: Class, d: Class)
    requires Named(c.awsRef) && Named(d.awsRef) && LegalRef(c.awsRef.value) && LegalRef(d.awsRef.value)
    requires WantsPolicy(c) ==> LegalPolicyRef(c.policyRef.value)
    requires WantsPolicy(d) ==> LegalPolicyRef(d.policyRef.value)
    ensures AwsCacheKey(c) == AwsCacheKey(d) <==>
              c.awsRef == d.awsRef && PolicyKeyText(c) == PolicyKeyText(d)
    ensures PolicyKeyText(c) == PolicyKeyText(d) ==>
              && WantsPolicy(c) == WantsPolicy(d)
              && (WantsPolicy(c) ==> PolicyObjectKey(c) == PolicyObjectKey(d)
                                     && PolicyKind(c.policyRef.value) == PolicyKind(d.policyRef.value)
                                     && c.policyRef.value.key == d.policyRef.value.key)
  {
    var cs, ds := c.awsRef.value, d.awsRef.value;
    if AwsCacheKey(c) == AwsCacheKey(d) {
      var cTail, dTail := cs.name + "|" + PolicyKeyText(c), ds.name + "|" + PolicyKeyText(d);
      assert cs.namespace + ['/'] + cTail == ds.namespace + ['/'] + dTail;
      SplitUnique(cs.namespace, cTail, ds.namespace, dTail, '/');
      assert cs.name + ['|'] + PolicyKeyText(c) == ds.name + ['|'] + PolicyKeyText(d);
      SplitUnique(cs.name, PolicyKeyText(c), ds.name, PolicyKeyText(d), '|');
    }
    if PolicyKeyText(c) == PolicyKeyText(d) && WantsPolicy(c) && WantsPolicy(d) {
      PolicyKeyTextInjective(c.policyRef.value, d.policyRef.value);
    }
  }

  lemma PolicyKeyTextInjective(p: PolicyRef, q: PolicyRef)
    requires LegalPolicyRef(p) && LegalPolicyRef(q)
    requires PolicyKind(p) + ":" + (p.namespace + "/" + (p.name + "#" + p.key))
          == PolicyKind(q) + ":" + (q.namespace + "/" + (q.name + "#" + q.key))
    ensures PolicyKind(p) == PolicyKind(q) && p.namespace == q.namespace && p.name == q.name && p.key == q.key
  {
    var p1, q1 := p.name + "#" + p.key, q.name + "#" + q.key;
    var p2, q2 := p.namespace + "/" + p1, q.namespace + "/" + q1;
    assert PolicyKind(p) + [':'] + p2 == PolicyKind(q) + [':'] + q2;
    SplitUnique(PolicyKind(p), p2, PolicyKind(q), q2, ':');
    assert p.namespace + ['/'] + p1 == q.namespace + ['/'] + q1;
    SplitUnique(p.namespace, p1, q.namespace, q1, '/');
    assert p.name + ['#'] + p.key == q.name + ['#'] + q.key;
    SplitUnique(p.name, p.key, q.name, q.key, '#');
  }

  lemma CombinedVersionInjective(a: Object, p: Option<Object>, b: Object, q: Option<Object>)
    requires LegalVersion(a.resourceVersion) && LegalVersion(b.resourceVersion)
    requires CombinedVersion(a, p) == CombinedVersion(b, q)
    ensures a.resourceVersion == b.resourceVersion
    ensures p.Some? && q.Some? ==> p.value.resourceVersion == q.value.resourceVersion
  {
    var x := if p.Some? then p.value.resourceVersion else "";
    var y := if q.Some? then q.value.resourceVersion else "";
    assert a.resourceVersion + ['|'] + x == b.resourceVersion + ['|'] + y;
    SplitUnique(a.resourceVersion, x, b.resourceVersion, y, '|');
  }

  lemma MinioCacheKeyInjective(c: Class, d: Class)
    requires Named(c.minioRef) && Named(d.minioRef) && LegalRef(c.minioRef.value) && LegalRef(d.minioRef.value)
    ensures MinioCacheKey(c) == MinioCacheKey(d) <==> c.minioRef == d.minioRef
  {
    var cs, ds := c.minioRef.value, d.minioRef.value;
    if MinioCacheKey(c) == MinioCacheKey(d) {
      assert cs.namespace + ['/'] + cs.name == ds.namespace + ['/'] + ds.name;
      SplitUnique(cs.namespace, cs.name, ds.namespace, ds.name, '/');
    }
  }
}
