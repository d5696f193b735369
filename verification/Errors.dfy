/** Provisioning errors and their retry classification (internal/provisioning/errors.go). */
module Errors {
  import opened Text

  datatype Operation = CreateBucket | ConfigureBucket | SetQuota | SetLifecycle | GrantAccess | RevokeAccess

  function OperationName(op: Operation): string {
    match op
    case CreateBucket => "create_bucket"
    case ConfigureBucket => "configure_bucket"
    case SetQuota => "set_quota"
    case SetLifecycle => "set_lifecycle"
    case GrantAccess => "grant_access"
    case RevokeAccess => "revoke_access"
  }

  // What a link of the error chain answers when it implements net.Error.
  datatype NetFlags = NetFlags(timeout: bool, temporary: bool)

  /** An error chain. `Wrapping` is any error with an Unwrap method; its own text may say anything.
      `Provisioning` is the operator's own wrapper, whose text is computed. */
  datatype Err =
    | Plain(text: string, net: Option<NetFlags>)
    | Wrapping(text: string, net: Option<NetFlags>, inner: Err)
    | Provisioning(op: Operation, bucket: string, inner: Err)

  function Message(e: Err): string {
    match e
    case Plain(text, _) => text
    case Wrapping(text, _, _) => text
    case Provisioning(op, bucket, inner) =>
      if bucket != "" then OperationName(op) + " failed for bucket " + bucket + ": " + Message(inner)
      else OperationName(op) + " failed: " + Message(inner)
  }

  // errors.As with a net.Error target: the outermost link that implements it.
  function NetLink(e: Err): Option<NetFlags> {
    match e
    case Plain(_, net) => net
    case Wrapping(_, net, inner) => if net.Some? then net else NetLink(inner)
    case Provisioning(_, _, inner) => NetLink(inner)
  }

  const TRANSIENT: seq<string> := [
    "timeout", "temporar", "connection reset", "connection refused",
    "broken pipe", "i/o timeout", "unexpected eof", "context deadline"]

  predicate HasTransientText(msg: string) {
    exists i :: 0 <= i < |TRANSIENT| && Contains(msg, TRANSIENT[i])
  }

  predicate IsTransient(e: Err) {
    match NetLink(e)
    case Some(flags) => flags.timeout || flags.temporary
    case None => HasTransientText(ToLower(Message(e)))
  }

  /* Occurrences cannot straddle the operator's own text */

  // sub cannot start at position i of p, whatever follows p: they differ within four characters.
  predicate ClashesAt(p: string, sub: string, i: nat) {
    && i < |p| && 4 <= |sub|
    && (|| p[i] != sub[0]
        || (i + 1 < |p| && (|| p[i + 1] != sub[1]
                            || (i + 2 < |p| && (|| p[i + 2] != sub[2]
                                                || (i + 3 < |p| && p[i + 3] != sub[3]))))))
  }

  lemma OccurrenceAfterPrefix(p: string, rest: string, sub: string)
    requires forall i :: 0 <= i < |p| ==> ClashesAt(p, sub, i)
    ensures Contains(p + rest, sub) <==> Contains(rest, sub)
  {
    var t, n := p + rest, |sub|;
    if Contains(t, sub) {
      var i :| 0 <= i <= |t| - n && OccursAt(t, sub, i);
      assert forall k :: 0 <= k < n ==> t[i + k] == t[i..i + n][k] == sub[k];
      assert i < |p| ==> !ClashesAt(p, sub, i);
      assert rest[i - |p|..i - |p| + n] == t[i..i + n];
      assert OccursAt(rest, sub, i - |p|);
    }
    if Contains(rest, sub) {
      var i :| 0 <= i <= |rest| - n && OccursAt(rest, sub, i);
      assert t[|p| + i..|p| + i + n] == rest[i..i + n];
      assert OccursAt(t, sub, |p| + i);
    }
  }

  lemma CharOfOccurrence(t: string, sub: string, i: int, k: nat)
    requires OccursAt(t, sub, i) && k < |sub|
    ensures t[i + k] == sub[k] && t[i + k] in sub
  {
    assert t[i..i + |sub|][k] == sub[k];
  }

  lemma AvoidsSeparator(a: string, sep: char, b: string, sub: string, i: int)
    requires sep !in sub && OccursAt(a + [sep] + b, sub, i)
    ensures i + |sub| <= |a| || i > |a|
  {
    if i <= |a| < i + |sub| {
      CharOfOccurrence(a + [sep] + b, sub, i, |a| - i);
      assert false;
    }
  }

  // A separator that sub does not contain cuts every text into two independent halves.
  lemma OccurrenceAroundSeparator(a: string, sep: char, b: string, sub: string)
    requires sub != [] && sep !in sub
    ensures Contains(a + [sep] + b, sub) <==> Contains(a, sub) || Contains(b, sub)
  {
    var t, n := a + [sep] + b, |sub|;
    if Contains(t, sub) {
      var i :| 0 <= i <= |t| - n && OccursAt(t, sub, i);
      AvoidsSeparator(a, sep, b, sub, i);
      if i + n <= |a| {
        assert a[i..i + n] == t[i..i + n];
        assert OccursAt(a, sub, i);
      } else {
        var j := i - |a| - 1;
        assert b[j..j + n] == t[i..i + n];
        assert OccursAt(b, sub, j);
      }
    }
    if Contains(a, sub) {
      var i :| 0 <= i <= |a| - n && OccursAt(a, sub, i);
      assert t[i..i + n] == a[i..i + n];
      assert OccursAt(t, sub, i);
    }
    if Contains(b, sub) {
      var i :| 0 <= i <= |b| - n && OccursAt(b, sub, i);
      var j := i + |a| + 1;
      assert t[j..j + n] == b[i..i + n];
      assert OccursAt(t, sub, j);
    }
  }

  lemma ToLowerConcat(a: string, b: string)
    ensures ToLower(a + b) == ToLower(a) + ToLower(b)
  {
  }

  // Every phrase is nonempty, has no colon and does not start with a space.
  lemma TransientShape(i: int)
    requires 0 <= i < |TRANSIENT|
    ensures 4 <= |TRANSIENT[i]| && ':' !in TRANSIENT[i] && TRANSIENT[i][0] != ' '
  {
  }

  lemma BucketStageClashes(op: Operation, i: nat, j: int)
    requires op.CreateBucket? || op.ConfigureBucket? || op.SetQuota?
    requires i < |OperationName(op)| && 0 <= j < |TRANSIENT|
    ensures ClashesAt(OperationName(op) + " failed", TRANSIENT[j], i)
  {
  }

  lemma AccessStageClashes(op: Operation, i: nat, j: int)
    requires op.SetLifecycle? || op.GrantAccess? || op.RevokeAccess?
    requires i < |OperationName(op)| && 0 <= j < |TRANSIENT|
    ensures ClashesAt(OperationName(op) + " failed", TRANSIENT[j], i)
  {
  }

  lemma ConnectiveClashes(i: nat, j: int)
    requires 0 <= j < |TRANSIENT|
    ensures i < |" failed for bucket "| ==> ClashesAt(" failed for bucket ", TRANSIENT[j], i)
    ensures i < |" failed"| ==> ClashesAt(" failed", TRANSIENT[j], i)
  {
  }

  // The operator's text in front of the bucket name is free of every phrase and cannot begin one.
  lemma LeadInClashes(op: Operation, named: bool, j: int)
    requires 0 <= j < |TRANSIENT|
    ensures forall i :: 0 <= i < |LeadIn(op, named)| ==> ClashesAt(LeadIn(op, named), TRANSIENT[j], i)
  {
    var name, sub, lead := OperationName(op), TRANSIENT[j], LeadIn(op, named);
    forall i | 0 <= i < |lead| ensures ClashesAt(lead, sub, i) {
      if i >= |name| {
        ConnectiveClashes(i - |name|, j);
        ClashShifts(name, Connective(named), sub, i);
      } else {
        if op.CreateBucket? || op.ConfigureBucket? || op.SetQuota? {
          BucketStageClashes(op, i, j);
        } else {
          AccessStageClashes(op, i, j);
        }
        ConnectiveStart(named);
        ClashExtends(name + " failed", lead, sub, i);
      }
    }
  }

  lemma ClashExtends(p: string, q: string, sub: string, i: nat)
    requires p <= q && ClashesAt(p, sub, i)
    ensures ClashesAt(q, sub, i)
  {
  }

  lemma ClashShifts(a: string, p: string, sub: string, i: nat)
    requires |a| <= i && ClashesAt(p, sub, i - |a|)
    ensures ClashesAt(a + p, sub, i)
  {
  }

  function Connective(named: bool): string {
    if named then " failed for bucket " else " failed"
  }

  lemma ConnectiveStart(named: bool)
    ensures " failed" <= Connective(named)
  {
  }

  function LeadIn(op: Operation, named: bool): string {
    OperationName(op) + Connective(named)
  }

  lemma LowerLeadIn(op: Operation, named: bool)
    ensures ToLower(LeadIn(op, named)) == LeadIn(op, named)
  {
    ToLowerConcat(OperationName(op), Connective(named));
    LowerOperationName(op);
    ToLowerFixed(Connective(named));
  }

  lemma LowerOperationName(op: Operation)
    ensures ToLower(OperationName(op)) == OperationName(op)
  {
    ToLowerFixed(OperationName(op));
  }

  lemma PhraseInText(lead: string, bucket: string, low: string, sub: string)
    requires forall i :: 0 <= i < |lead| ==> ClashesAt(lead, sub, i)
    requires 4 <= |sub| && ':' !in sub && sub[0] != ' '
    ensures Contains(lead + bucket + ": " + low, sub) <==> Contains(bucket, sub) || Contains(low, sub)
  {
    OccurrenceAfterPrefix(lead, bucket, sub);
    OccurrenceAroundSeparator(lead + bucket, ':', " " + low, sub);
    OccurrenceAfterPrefix(" ", low, sub);
    assert lead + bucket + [':'] + (" " + low) == lead + bucket + ": " + low;
  }

  lemma LowerWrapped(op: Operation, bucket: string, inner: Err)
    ensures ToLower(Message(Err.Provisioning(op, bucket, inner)))
         == LeadIn(op, bucket != "") + ToLower(bucket) + ": " + ToLower(Message(inner))
  {
    var lead := LeadIn(op, bucket != "");
    LowerLeadIn(op, bucket != "");
    ToLowerConcat(lead, bucket);
    ToLowerConcat(lead + bucket, ": ");
    ToLowerConcat(lead + bucket + ": ", Message(inner));
    ToLowerFixed(": ");
    assert Message(Err.Provisioning(op, bucket, inner)) == lead + bucket + ": " + Message(inner);
  }

  // One phrase: it occurs in the wrapped text iff it occurs in the bucket name or in the inner text.
  lemma PhraseInWrapped(op: Operation, bucket: string, inner: Err, j: int)
    requires 0 <= j < |TRANSIENT|
    ensures Contains(ToLower(Message(Err.Provisioning(op, bucket, inner))), TRANSIENT[j])
       <==> Contains(ToLower(bucket), TRANSIENT[j]) || Contains(ToLower(Message(inner)), TRANSIENT[j])
  {
    TransientShape(j);
    LeadInClashes(op, bucket != "", j);
    LowerWrapped(op, bucket, inner);
    PhraseInText(LeadIn(op, bucket != ""), ToLower(bucket), ToLower(Message(inner)), TRANSIENT[j]);
  }

  /** Wrapping an error in a ProvisioningError changes its retry class exactly when no link of the chain
      is a net.Error, the inner text is not transient and the bucket's own name reads like a transient
      failure. For every other error, operation and bucket the class is that of the inner error. */
  lemma WrappingKeepsRetryClass(op: Operation, bucket: string, inner: Err)
    ensures IsTransient(Err.Provisioning(op, bucket, inner))
       <==> IsTransient(inner) || (NetLink(inner).None? && HasTransientText(ToLower(bucket)))
  {
    if NetLink(inner).None? {
      forall j | 0 <= j < |TRANSIENT|
        ensures Contains(ToLower(Message(Err.Provisioning(op, bucket, inner))), TRANSIENT[j])
           <==> Contains(ToLower(bucket), TRANSIENT[j]) || Contains(ToLower(Message(inner)), TRANSIENT[j])
      {
        PhraseInWrapped(op, bucket, inner, j);
      }
    }
  }

  // A bucket called "app-timeout-logs" turns a permanent refusal into a retryable one.
  lemma BucketNameCanMislead()
    ensures var denied := Plain("access denied", None);
            !IsTransient(denied) && IsTransient(Err.Provisioning(CreateBucket, "app-timeout-logs", denied))
  {
    var denied := Plain("access denied", None);
    WrappingKeepsRetryClass(CreateBucket, "app-timeout-logs", denied);
    ToLowerFixed("app-timeout-logs");
    ToLowerFixed("access denied");
    assert OccursAt("app-timeout-logs", TRANSIENT[0], 4);
    forall j | 0 <= j < |TRANSIENT| ensures !Contains("access denied", TRANSIENT[j]) {
      AccessDeniedIsPlain(j);
    }
  }

  lemma AccessDeniedIsPlain(j: int)
    requires 0 <= j < |TRANSIENT|
    ensures !Contains("access denied", TRANSIENT[j])
  {
    assert forall i :: 0 <= i < |"access denied"| ==> ClashesAt("access denied", TRANSIENT[j], i);
    OccurrenceAfterPrefix("access denied", "", TRANSIENT[j]);
    assert "access denied" + "" == "access denied";
  }
}
