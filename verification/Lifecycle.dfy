/** Lifecycle rules on their way from a BucketClaim to MinIO and to AWS
    (internal/provisioning/provisioning.go, internal/backend/aws/provider.go). */
module Lifecycle {
  import opened Text

  // A rule of a BucketClaim spec.
  datatype ClaimRule = ClaimRule(id: string, status: string, prefix: string, expirationDays: int)

  // A rule of the MinIO client library, which is also what every provider receives.
  datatype Rule = Rule(id: string, status: string, filterPrefix: string, days: int)

  // A rule of the AWS SDK: absent parts are left out of the request.
  datatype AwsRule = AwsRule(id: Option<string>, enabled: bool, filterPrefix: Option<string>, days: Option<int>)

  // Go's conversion to int32.
  function Int32(x: int): (r: int)
    ensures -0x8000_0000 <= r < 0x8000_0000
    ensures -0x8000_0000 <= x < 0x8000_0000 ==> r == x
  {
    var low := x % 0x1_0000_0000;
    if low < 0x8000_0000 then low else low - 0x1_0000_0000
  }

  function ToRule(r: ClaimRule): Rule {
    Rule(r.id, r.status, r.prefix, r.expirationDays)
  }

  function ToAwsRule(r: Rule): AwsRule {
    AwsRule(
      if TrimSpace(r.id) != "" then Some(r.id) else None,
      true,
      if TrimSpace(r.filterPrefix) != "" then Some(r.filterPrefix) else None,
      if r.days > 0 then Some(Int32(r.days)) else None)
  }

  // The configuration that createBucketAndConfigure hands to the provider.
  method BuildConfiguration(rules: seq<ClaimRule>) returns (out: seq<Rule>)
    ensures |out| == |rules| && forall i :: 0 <= i < |rules| ==> out[i] == ToRule(rules[i])
  {
    out := [];
    for i := 0 to |rules|
      invariant |out| == i && forall k :: 0 <= k < i ==> out[k] == ToRule(rules[k])
    {
      var rule := rules[i];
      out := out + [Rule(rule.id, rule.status, rule.prefix, rule.expirationDays)];
    }
  }

  // The rules that the AWS provider puts into its request: same length, same order.
  method TranslateForAws(cfg: seq<Rule>) returns (rules: seq<AwsRule>)
    ensures |rules| == |cfg| && forall i :: 0 <= i < |cfg| ==> rules[i] == ToAwsRule(cfg[i])
  {
    rules := [];
    for i := 0 to |cfg|
      invariant |rules| == i && forall k :: 0 <= k < i ==> rules[k] == ToAwsRule(cfg[k])
    {
      var r := cfg[i];
      var rule := AwsRule(None, true, None, None);
      if TrimSpace(r.id) != "" { rule := rule.(id := Some(r.id)); }
      if TrimSpace(r.filterPrefix) != "" { rule := rule.(filterPrefix := Some(r.filterPrefix)); }
      if r.days > 0 { rule := rule.(days := Some(Int32(r.days))); }
      rules := rules + [rule];
    }
  }

  /* What the rules do to an object of the given age in days */

  predicate Expires(r: ClaimRule, key: string, age: nat) {
    r.status == "Enabled" && r.expirationDays > 0 && r.prefix <= key && age >= r.expirationDays
  }

  predicate AwsExpires(r: AwsRule, key: string, age: nat) {
    && r.enabled
    && (r.filterPrefix.Some? ==> r.filterPrefix.value <= key)
    && r.days.Some? && age >= r.days.value
  }

  ghost predicate SameMeaning(r: ClaimRule) {
    forall key, age: nat :: AwsExpires(ToAwsRule(ToRule(r)), key, age) <==> Expires(r, key, age)
  }

  // What a user can check on a rule before submitting it to a class with backend AWS.
  predicate Portable(r: ClaimRule) {
    || r.expirationDays <= 0
    || (&& r.status == "Enabled"
        && r.expirationDays < 0x8000_0000
        && (r.prefix == "" || !AllSpace(r.prefix)))
  }

  /** The AWS translation of a rule expires the same objects at the same age exactly for portable rules.
      A disabled rule is switched on, a prefix of spaces matches every key, and large day counts wrap. */
  lemma TranslationMeaning(r: ClaimRule)
    ensures SameMeaning(r) <==> Portable(r)
  {
    var aws := ToAwsRule(ToRule(r));
    TrimSpaceTrimmed(r.prefix);
    if Portable(r) && r.expirationDays > 0 {
      assert forall key, age: nat :: AwsExpires(aws, key, age) <==> Expires(r, key, age);
    }
    if !Portable(r) {
      var days := Int32(r.expirationDays);
      var age := if days < 0 then 0 else days;
      var key := if r.status == "Enabled" && r.expirationDays < 0x8000_0000 then "" else r.prefix;
      assert AwsExpires(aws, key, age) && !Expires(r, key, age);
    }
  }

  predicate AnyExpires(rules: seq<ClaimRule>, key: string, age: nat) {
    exists i :: 0 <= i < |rules| && Expires(rules[i], key, age)
  }

  predicate AnyAwsExpires(rules: seq<AwsRule>, key: string, age: nat) {
    exists i :: 0 <= i < |rules| && AwsExpires(rules[i], key, age)
  }

  /** End to end: the claim's rules, built for the provider and translated for AWS, keep their number and
      order, and a configuration of portable rules expires exactly the objects the claim asked for. */
  method ConfigureForAws(rules: seq<ClaimRule>) returns (aws: seq<AwsRule>)
    ensures |aws| == |rules|
    ensures forall i :: 0 <= i < |rules| && Portable(rules[i]) ==>
              forall key, age: nat :: AwsExpires(aws[i], key, age) <==> Expires(rules[i], key, age)
    ensures (forall i :: 0 <= i < |rules| ==> Portable(rules[i])) ==>
              forall key, age: nat :: AnyAwsExpires(aws, key, age) <==> AnyExpires(rules, key, age)
  {
    var cfg := BuildConfiguration(rules);
    aws := TranslateForAws(cfg);
    forall i | 0 <= i < |rules| && Portable(rules[i])
      ensures forall key, age: nat :: AwsExpires(aws[i], key, age) <==> Expires(rules[i], key, age)
    {
      TranslationMeaning(rules[i]);
      assert SameMeaning(rules[i]) && aws[i] == ToAwsRule(ToRule(rules[i]));
    }
  }
}
