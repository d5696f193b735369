/** Bucket policies and bucket hardening of the AWS provider (internal/backend/aws/provider.go). */
module BucketPolicy {
  import opened Text

  datatype Json = Null | Bool(b: bool) | Num(n: int) | Str(s: string) | Arr(items: seq<Json>)
    | Obj(fields: map<string, Json>)

  type Document = map<string, Json>

  // The optional document of a BucketClass, as bytes: none, not JSON, or JSON.
  datatype Raw = Absent | Malformed | Parsed(json: Json)

  datatype Result<+T> = Ok(value: T) | Fails

  // json.Unmarshal into a map: objects, and null for the empty map.
  function AsDocument(raw: Raw): Result<Document> {
    match raw
    case Parsed(Obj(fields)) => Ok(fields)
    case Parsed(Null) => Ok(map[])
    case _ => Fails
  }

  function Statements(doc: Document): Result<seq<Json>> {
    if "Statement" !in doc then Ok([])
    else match doc["Statement"]
      case Arr(items) => Ok(items)
      case _ => Fails
  }

  /* The meaning of a policy: explicit deny over allow over silence */

  datatype Request = Request(principal: string, action: string, resource: string, context: map<string, string>)

  datatype Decision = Deny | Allow | Silent

  function Join(a: Decision, b: Decision): Decision {
    if a == Deny || b == Deny then Deny else if a == Allow || b == Allow then Allow else Silent
  }

  // Pattern match of policy elements: '*' stands for any text, '?' for any character.
  predicate Glob(pattern: string, text: string)
    decreases |pattern| + |text|
  {
    if pattern == "" then text == ""
    else if pattern[0] == '*' then Glob(pattern[1..], text) || (text != "" && Glob(pattern, text[1..]))
    else text != "" && (pattern[0] == '?' || pattern[0] == text[0]) && Glob(pattern[1..], text[1..])
  }

  predicate GlobElement(element: Json, text: string) {
    match element
    case Str(p) => Glob(p, text)
    case Arr(items) => exists i :: 0 <= i < |items| && items[i].Str? && Glob(items[i].s, text)
    case _ => false
  }

  predicate PrincipalMatches(element: Json, principal: string) {
    match element
    case Str(p) => p == "*"
    case Obj(f) => "AWS" in f && (f["AWS"] == Str("*") || f["AWS"] == Str(principal)
                                  || (f["AWS"].Arr? && (Str("*") in f["AWS"].items
                                                        || Str(principal) in f["AWS"].items)))
    case _ => false
  }

  predicate BoolCondition(element: Json, context: map<string, string>) {
    element.Obj? && forall key | key in element.fields :: key in context && element.fields[key] == Str(context[key])
  }

  // The statement elements that this model evaluates itself.
  predicate Evaluated(st: Document) {
    && "NotPrincipal" !in st && "NotAction" !in st && "NotResource" !in st
    && "Principal" in st && "Action" in st && "Resource" in st
    && ("Condition" in st ==> st["Condition"].Obj? && st["Condition"].fields.Keys <= {"Bool"})
  }

  /** Whether a statement speaks about a request. Statements with other elements or condition operators are
      judged by `other`, which may be any function. */
  predicate Applies(st: Json, req: Request, other: (Json, Request) -> bool) {
    if st.Obj? && Evaluated(st.fields) then
      && PrincipalMatches(st.fields["Principal"], req.principal)
      && GlobElement(st.fields["Action"], req.action)
      && GlobElement(st.fields["Resource"], req.resource)
      && ("Condition" in st.fields && "Bool" in st.fields["Condition"].fields ==>
            BoolCondition(st.fields["Condition"].fields["Bool"], req.context))
    else other(st, req)
  }

  predicate Says(st: Json, effect: string, req: Request, other: (Json, Request) -> bool) {
    st.Obj? && "Effect" in st.fields && st.fields["Effect"] == Str(effect) && Applies(st, req, other)
  }

  predicate AnySays(sts: seq<Json>, effect: string, req: Request, other: (Json, Request) -> bool) {
    exists i :: 0 <= i < |sts| && Says(sts[i], effect, req, other)
  }

  function Decide(sts: seq<Json>, req: Request, other: (Json, Request) -> bool): Decision {
    if AnySays(sts, "Deny", req, other) then Deny
    else if AnySays(sts, "Allow", req, other) then Allow
    else Silent
  }

  // The decision of a whole document; one whose Statement is not an array decides nothing.
  function Verdict(doc: Document, req: Request, other: (Json, Request) -> bool): Decision {
    match Statements(doc)
    case Ok(sts) => Decide(sts, req, other)
    case Fails => Silent
  }

  /* Merging */

  // The specification of mergePolicyDocuments.
  function Merged(base: Document, raw: Raw): Result<Document> {
    if raw == Absent then Ok(base)
    else match (AsDocument(raw), Statements(base))
      case (Ok(user), Ok(baseSts)) =>
        (match Statements(user)
         case Ok(userSts) =>
           var version := if "Version" in user then user["Version"]
                          else if "Version" in base then base["Version"]
                          else Str("2012-10-17");
           var out := user["Version" := version];
           Ok(if baseSts + userSts == [] then out else out["Statement" := Arr(baseSts + userSts)])
         case Fails => Fails)
      case _ => Fails
  }

  method MergePolicyDocuments(base: Document, raw: Raw) returns (r: Result<Document>)
    ensures r == Merged(base, raw)
  {
    if raw == Absent { return Ok(base); }
    var parsed := AsDocument(raw);
    if parsed.Fails? { return Fails; }
    var user := parsed.value;
    var baseSt := Statements(base);
    if baseSt.Fails? { return Fails; }
    var userSt := Statements(user);
    if userSt.Fails? { return Fails; }
    var out: Document := map[];
    var keys := user.Keys;
    while keys != {}
      invariant keys <= user.Keys && out.Keys == user.Keys - keys
      invariant forall k | k in out :: out[k] == user[k]
      decreases keys
    {
      var k :| k in keys;
      out := out[k := user[k]];
      keys := keys - {k};
    }
    assert out == user;
    if "Version" !in out {
      if "Version" in base { out := out["Version" := base["Version"]]; }
      else { out := out["Version" := Str("2012-10-17")]; }
    }
    assert "Version" in user ==> user["Version" := user["Version"]] == user;
    if |baseSt.value| > 0 || |userSt.value| > 0 {
      out := out["Statement" := Arr(baseSt.value + userSt.value)];
    }
    r := Ok(out);
  }

  lemma AnySaysConcat(a: seq<Json>, b: seq<Json>, effect: string, req: Request, other: (Json, Request) -> bool)
    ensures AnySays(a + b, effect, req, other) <==> AnySays(a, effect, req, other) || AnySays(b, effect, req, other)
  {
    var ab := a + b;
    if AnySays(a, effect, req, other) {
      var i :| 0 <= i < |a| && Says(a[i], effect, req, other);
      assert Says(ab[i], effect, req, other);
    }
    if AnySays(b, effect, req, other) {
      var i :| 0 <= i < |b| && Says(b[i], effect, req, other);
      assert Says(ab[|a| + i], effect, req, other);
    }
    if AnySays(ab, effect, req, other) {
      var i :| 0 <= i < |ab| && Says(ab[i], effect, req, other);
      assert i < |a| ==> Says(a[i], effect, req, other);
      assert i >= |a| ==> Says(b[i - |a|], effect, req, other);
    }
  }

  lemma DecideConcat(a: seq<Json>, b: seq<Json>, req: Request, other: (Json, Request) -> bool)
    ensures Decide(a + b, req, other) == Join(Decide(a, req, other), Decide(b, req, other))
  {
    AnySaysConcat(a, b, "Deny", req, other);
    AnySaysConcat(a, b, "Allow", req, other);
  }

  /** On every request, a merged policy decides the join of the guardrails' decision and the user's own. */
  lemma MergeJoinsVerdicts(base: Document, raw: Raw, req: Request, other: (Json, Request) -> bool)
    requires raw != Absent && Merged(base, raw).Ok?
    ensures Verdict(Merged(base, raw).value, req, other)
         == Join(Verdict(base, req, other), Verdict(AsDocument(raw).value, req, other))
  {
    var user := AsDocument(raw).value;
    var a, b := Statements(base).value, Statements(user).value;
    DecideConcat(a, b, req, other);
    if a + b == [] {
      assert a == [] && b == [];
      assert Statements(Merged(base, raw).value) == Ok([]);
    }
  }

  /** A merge fails exactly when the user's document is no JSON object (or null) or one of the two Statement
      fields is not an array; otherwise it names a Version, and every other user field is kept. */
  lemma MergeKeepsUserFields(base: Document, raw: Raw)
    requires raw != Absent
    ensures Merged(base, raw).Ok? <==>
              AsDocument(raw).Ok? && Statements(base).Ok? && Statements(AsDocument(raw).value).Ok?
    ensures Merged(base, raw).Ok? ==>
              var user, out := AsDocument(raw).value, Merged(base, raw).value;
              && "Version" in out
              && ("Version" in user ==> out["Version"] == user["Version"])
              && (forall k | k in user && k != "Statement" :: k in out && out[k] == user[k])
              && out.Keys <= user.Keys + {"Version", "Statement"}
  {
    if Merged(base, raw).Ok? {
      var user, out := AsDocument(raw).value, Merged(base, raw).value;
      assert forall k | k in user && k != "Statement" :: k in out && out[k] == user[k];
    }
  }

  /* The TLS guardrail */

  function BucketArn(bucket: string): string { "arn:aws:s3:::" + bucket }

  function TlsStatement(bucket: string): Json {
    Obj(map[
      "Sid" := Str("DenyInsecureTransport"),
      "Effect" := Str("Deny"),
      "Principal" := Obj(map["AWS" := Str("*")]),
      "Action" := Arr([Str("s3:*")]),
      "Resource" := Arr([Str(BucketArn(bucket)), Str(BucketArn(bucket) + "/*")]),
      "Condition" := Obj(map["Bool" := Obj(map["aws:SecureTransport" := Str("false")])])])
  }

  function TlsOnlyBucketPolicy(bucket: string): Document {
    map["Version" := Str("2012-10-17"), "Statement" := Arr([TlsStatement(bucket)])]
  }

  lemma {:induction false} GlobStar(text: string)
    ensures Glob("*", text)
  {
    if text != "" { GlobStar(text[1..]); }
  }

  // A pattern matches the text it spells, whatever its characters.
  lemma {:induction false} GlobSelf(p: string, tail: string, rest: string)
    requires Glob(tail, rest)
    ensures Glob(p + tail, p + rest)
    decreases |p|
  {
    if p == "" {
      assert p + tail == tail && p + rest == rest;
    } else {
      GlobSelf(p[1..], tail, rest);
      assert (p + tail)[1..] == p[1..] + tail && (p + rest)[1..] == p[1..] + rest;
      if p[0] == '*' {
        GlobSkip(p[1..] + tail, (p + rest)[1..]);
        assert (p + tail)[0] == '*' && (p + tail)[1..] == p[1..] + tail;
        assert Glob(p + tail, (p + rest)[1..]);
      }
    }
  }

  lemma GlobSkip(pattern: string, text: string)
    requires Glob(pattern, text)
    ensures Glob("*" + pattern, text)
  {
    assert ("*" + pattern)[1..] == pattern;
  }

  // A request over a plain connection, to the bucket or to anything in it.
  predicate InsecureOn(bucket: string, req: Request) {
    && "s3:" <= req.action
    && "aws:SecureTransport" in req.context && req.context["aws:SecureTransport"] == "false"
    && (req.resource == BucketArn(bucket) || BucketArn(bucket) + "/" <= req.resource)
  }

  lemma ActionCovered(action: string)
    requires "s3:" <= action
    ensures GlobElement(Arr([Str("s3:*")]), action)
  {
    GlobStar(action[3..]);
    GlobSelf("s3:", "*", action[3..]);
    assert "s3:" + action[3..] == action;
    assert [Str("s3:*")][0].Str? && Glob([Str("s3:*")][0].s, action);
  }

  lemma ResourceCovered(arn: string, resource: string)
    requires resource == arn || arn + "/" <= resource
    ensures GlobElement(Arr([Str(arn), Str(arn + "/*")]), resource)
  {
    var items := [Str(arn), Str(arn + "/*")];
    if resource == arn {
      GlobSelf(arn, "", "");
      assert arn + "" == arn;
      assert items[0].Str? && Glob(items[0].s, resource);
    } else {
      var rest := resource[|arn| + 1..];
      GlobStar(rest);
      GlobSelf(arn + "/", "*", rest);
      assert arn + "/" + "*" == arn + "/*" && arn + "/" + rest == resource;
      assert items[1].Str? && Glob(items[1].s, resource);
    }
  }

  lemma GuardrailApplies(bucket: string, req: Request, other: (Json, Request) -> bool)
    requires InsecureOn(bucket, req)
    ensures Says(TlsStatement(bucket), "Deny", req, other)
  {
    ActionCovered(req.action);
    ResourceCovered(BucketArn(bucket), req.resource);
  }

  /** Whatever document the user supplies, if the merge succeeds then plain-text requests to the bucket are
      denied, for every reading of the statements this model does not evaluate. */
  lemma TlsGuardrailAlwaysHolds(bucket: string, raw: Raw, req: Request, other: (Json, Request) -> bool)
    requires Merged(TlsOnlyBucketPolicy(bucket), raw).Ok?
    requires InsecureOn(bucket, req)
    ensures Verdict(Merged(TlsOnlyBucketPolicy(bucket), raw).value, req, other) == Deny
  {
    var base := TlsOnlyBucketPolicy(bucket);
    GuardrailApplies(bucket, req, other);
    var sts := Statements(base).value;
    assert Says(sts[0], "Deny", req, other);
    assert Verdict(base, req, other) == Deny;
    if raw != Absent { MergeJoinsVerdicts(base, raw, req, other); }
  }

  /* ConfigureBucketSecurity */

  function ParseBool(s: string): Option<bool> {
    if s in {"1", "t", "T", "true", "TRUE", "True"} then Some(true)
    else if s in {"0", "f", "F", "false", "FALSE", "False"} then Some(false)
    else None
  }

  function ParamBool(parameters: map<string, string>, key: string, def: bool): Option<bool> {
    if key !in parameters || TrimSpace(parameters[key]) == "" then Some(def)
    else ParseBool(TrimSpace(parameters[key]))
  }

  function ParamString(parameters: map<string, string>, key: string, def: string): string {
    if key !in parameters || TrimSpace(parameters[key]) == "" then def else TrimSpace(parameters[key])
  }

  function ToUpperChar(c: char): char {
    if 'a' <= c <= 'z' then c - 'a' + 'A' else c
  }

  function ToUpper(s: string): string {
    seq(|s|, i requires 0 <= i < |s| => ToUpperChar(s[i]))
  }

  datatype Encryption = Aes256 | Kms(arn: string)

  // The encryption a class asks for: None for no change, Fails for a wrong or incomplete request.
  function WantedEncryption(parameters: map<string, string>): Result<Option<Encryption>> {
    var kind := ToUpper(ParamString(parameters, "security.defaultEncryption", "SSE-S3"));
    var arn := ParamString(parameters, "security.kmsKeyArn", "");
    if kind == "NONE" then Ok(None)
    else if kind == "SSE-S3" then Ok(Some(Aes256))
    else if kind == "SSE-KMS" then if TrimSpace(arn) == "" then Fails else Ok(Some(Kms(arn)))
    else Fails
  }

  // What becomes of a call: it works, or fails before or after it took effect.
  datatype Fate = Works | LostRequest | LostReply

  /** One S3 bucket as far as its hardening goes. `fate(n)` tells what becomes of the n-th call. */
  class S3Bucket {
    const name: string
    const fate: nat -> Fate
    var calls: nat
    var publicAccessBlocked: bool
    var ownerEnforced: bool
    var encryption: Option<Encryption>
    var policy: Option<Document>

    constructor (name: string, fate: nat -> Fate)
      ensures this.name == name && this.fate == fate && calls == 0
      ensures !publicAccessBlocked && !ownerEnforced && encryption == None && policy == None
    {
      this.name, this.fate, calls := name, fate, 0;
      publicAccessBlocked, ownerEnforced, encryption, policy := false, false, None, None;
    }

    /** Hardens the bucket. Success means that every protection the parameters ask for is in force, where a
        missing parameter asks for it; unreadable parameters are refused before anything is changed; and a
        failure half way, even of a call that took effect, never takes a protection away: what it may change is
        what was asked for. */
    method ConfigureBucketSecurity(parameters: map<string, string>, document: Raw) returns (ok: bool)
      modifies this
      ensures calls >= old(calls)
      ensures var block := ParamBool(parameters, "security.blockPublicAccess", true);
              var acls := ParamBool(parameters, "security.disableAcls", true);
              var tls := ParamBool(parameters, "security.tlsOnlyPolicy", true);
              if block.None? || acls.None? || tls.None? then !ok && calls == old(calls) && unchanged(this) else
              && (ok ==> publicAccessBlocked == (old(publicAccessBlocked) || block.value))
              && (ok ==> ownerEnforced == (old(ownerEnforced) || acls.value))
              && (ok ==> WantedEncryption(parameters).Ok?
                         && encryption == (if WantedEncryption(parameters).value.None? then old(encryption)
                                           else WantedEncryption(parameters).value))
              && (ok && !tls.value && document == Absent ==> policy == old(policy))
              && (ok && (tls.value || document != Absent) ==>
                    policy.Some? && Ok(policy.value) == Merged(Guardrails(name, tls.value), document))
      ensures old(publicAccessBlocked) ==> publicAccessBlocked
      ensures old(ownerEnforced) ==> ownerEnforced
      ensures !publicAccessBlocked || old(publicAccessBlocked)
              || ParamBool(parameters, "security.blockPublicAccess", true) == Some(true)
      ensures !ownerEnforced || old(ownerEnforced) || ParamBool(parameters, "security.disableAcls", true) == Some(true)
      ensures encryption == old(encryption) || (encryption.Some? && WantedEncryption(parameters) == Ok(encryption))
      ensures policy == old(policy)
              || (policy.Some? && ParamBool(parameters, "security.tlsOnlyPolicy", true).Some?
                  && Ok(policy.value)
                     == Merged(Guardrails(name, ParamBool(parameters, "security.tlsOnlyPolicy", true).value), document))
    {
      var block := ParamBool(parameters, "security.blockPublicAccess", true);
      if block.None? { return false; }
      var acls := ParamBool(parameters, "security.disableAcls", true);
      if acls.None? { return false; }
      var tls := ParamBool(parameters, "security.tlsOnlyPolicy", true);
      if tls.None? { return false; }
      var done: bool;

      if block.value {
        var served := Call();
        if !served.LostRequest? { publicAccessBlocked := true; }
        if !served.Works? { return false; }
      }
      if acls.value {
        var served := Call();
        if !served.LostRequest? { ownerEnforced := true; }
        if !served.Works? { return false; }
      }
      done := PutDefaultEncryption(parameters);
      if !done { return false; }
      ok := PutGuardrails(tls.value, document);
    }

    method PutDefaultEncryption(parameters: map<string, string>) returns (ok: bool)
      modifies this`calls, this`encryption
      ensures calls >= old(calls)
      ensures ok ==> WantedEncryption(parameters).Ok?
      ensures ok ==> encryption == (if WantedEncryption(parameters).value.None? then old(encryption)
                                    else WantedEncryption(parameters).value)
      ensures encryption == old(encryption) || (encryption.Some? && WantedEncryption(parameters) == Ok(encryption))
    {
      var defaultEnc := ToUpper(ParamString(parameters, "security.defaultEncryption", "SSE-S3"));
      var kmsKeyArn := ParamString(parameters, "security.kmsKeyArn", "");
      if defaultEnc == "NONE" {
        ok := true;
      } else if defaultEnc == "SSE-S3" {
        var served := Call();
        if !served.LostRequest? { encryption := Some(Aes256); }
        ok := served.Works?;
      } else if defaultEnc == "SSE-KMS" {
        if TrimSpace(kmsKeyArn) == "" { return false; }
        var served := Call();
        if !served.LostRequest? { encryption := Some(Kms(kmsKeyArn)); }
        ok := served.Works?;
      } else {
        ok := false;
      }
    }

    method PutGuardrails(tlsOnly: bool, document: Raw) returns (ok: bool)
      modifies this`calls, this`policy
      ensures calls >= old(calls)
      ensures !tlsOnly && document == Absent ==> ok
      ensures !tlsOnly && document == Absent ==> policy == old(policy)
      ensures policy == old(policy)
              || (policy.Some? && Ok(policy.value) == Merged(Guardrails(name, tlsOnly), document))
      ensures ok && (tlsOnly || document != Absent) ==>
                policy.Some? && Ok(policy.value) == Merged(Guardrails(name, tlsOnly), document)
    {
      if !tlsOnly && document == Absent { return true; }
      var merged := MergePolicyDocuments(Guardrails(name, tlsOnly), document);
      if merged.Fails? { return false; }
      var served := Call();
      if !served.LostRequest? { policy := Some(merged.value); }
      ok := served.Works?;
    }

    method Call() returns (served: Fate)
      modifies this`calls
      ensures calls == old(calls) + 1 && served == fate(old(calls))
    {
      served := fate(calls);
      calls := calls + 1;
    }
  }

  // The document that the user's one is merged into.
  function Guardrails(bucket: string, tlsOnly: bool): Document {
    if tlsOnly then TlsOnlyBucketPolicy(bucket) else map["Version" := Str("2012-10-17"), "Statement" := Arr([])]
  }

  /** A bucket hardened with default parameters turns away every plain-text request, whatever document the
      class adds and whatever became of the calls before the successful pass. */
  method HardenThenDeny(bucket: S3Bucket, parameters: map<string, string>, document: Raw,
                        req: Request, other: (Json, Request) -> bool) returns (ok: bool)
    requires ParamBool(parameters, "security.tlsOnlyPolicy", true) == Some(true)
    requires InsecureOn(bucket.name, req)
    modifies bucket
    ensures ok ==> bucket.policy.Some? && Verdict(bucket.policy.value, req, other) == Deny
  {
    ok := bucket.ConfigureBucketSecurity(parameters, document);
    if ok { TlsGuardrailAlwaysHolds(bucket.name, document, req, other); }
  }
}
