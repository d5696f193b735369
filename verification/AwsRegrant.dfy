/** A claim of the AWS provider that is provisioned again: its IAM user is granted access with the keys from the Secret,
    and what the provider answers then does not pass for complete credentials. */
module AwsRegrant {
  import opened Text
  import opened Errors
  import opened Kube
  import opened Cluster
  import opened Provisioning
  import opened Limits
  import C = ClaimMachine
  import I = IamAccounts

  // The provider's answer as the reconcile sees it.
  function AnswerOf(r: I.Result<I.Credentials>, err: Err): Reply {
    match r
    case Success(c) => Granted(c.accessKeyID, c.accessSecretKey, c.endpoint)
    case Failure => Refused(err)
  }

  lemma KeysAreRead(cfg: Config, k: Key, t: C.Thread, secret: Secret)
    requires t.pc.ReadKeys? && !UsesMinio(t.bc)
    ensures C.Resume(cfg, k, t, SecretIs(secret)).pc == C.Provision(ForeignGrant, End)
  {
    hide C.ChosenCreds, UsesMinio;
  }

  lemma FailureIsReported(cfg: Config, k: Key, t: C.Thread, err: Err)
    requires t.pc == C.Provision(ForeignGrant, End)
    ensures var next := C.Resume(cfg, k, t, Refused(err));
            next.pc.NoteFetch? && next.pc.after.Stop? && next.pc.note.phase != Bound
  {
  }

  lemma BlankEndpoint(endpoint: string)
    ensures AllSpace("") && (AllSpace(TrimSpace(endpoint)) <==> TrimSpace(endpoint) == "")
  {
    TrimSpaceTrimmed(endpoint);
    hide TrimSpace;
  }

  lemma TrimmedOnce(s: string)
    ensures TrimSpace(TrimSpace(s)) == TrimSpace(s)
  {
    TrimSpaceTrimmed(s);
    TrimSpaceFixed(TrimSpace(s));
    hide TrimSpace;
  }

  /** From the reading of the Secret to the answer of IAM, with any faults and from any state of IAM: the credentials
      are published exactly when the grant succeeds, no part of its answer is blank, and the Secret did not already
      hold both keys. So a claim that is provisioned again - after an edit, or because its first status write failed -
      is reported as failed, although its access is in place. */
  method GrantAgain(cfg: Config, iam: I.Iam, k: Key, t: C.Thread, secret: Secret, err: Err)
    returns (r: I.Result<I.Credentials>, next: C.Thread)
    requires iam.Valid() && t.pc.ReadKeys? && !UsesMinio(t.bc)
    modifies iam`calls, iam`users, iam`quotaRefusals
    ensures iam.Valid()
    ensures var existing := TrimSpace(Lookup(secret.data, AccessKeyID)) != ""
            && TrimSpace(Lookup(secret.data, AccessSecretKey)) != "";
            && (next.pc.FetchSecret? <==>
                  !existing && r.Success? && TrimSpace(iam.endpoint) != ""
                  && !AllSpace(r.value.accessKeyID) && !AllSpace(r.value.accessSecretKey))
            && (!next.pc.FetchSecret? ==> next.pc.NoteFetch? && next.pc.after.Stop? && next.pc.note.phase != Bound)
            && (existing && iam.Faultless() ==> r.Success?)
  {
    hide C.Resume, TrimSpace, AllSpace, UsesMinio, I.UserNameForAccount, I.PolicyName;
    KeysAreRead(cfg, k, t, secret);
    BlankEndpoint(iam.endpoint);
    TrimmedOnce(Lookup(secret.data, AccessKeyID));
    TrimmedOnce(Lookup(secret.data, AccessSecretKey));
    var u := C.Resume(cfg, k, t, SecretIs(secret));
    r := iam.GrantAccess(u.creds.bucket, Joined(k), t.claim.spec.accessType,
                         TrimSpace(Lookup(secret.data, AccessKeyID)), TrimSpace(Lookup(secret.data, AccessSecretKey)));
    next := C.Resume(cfg, k, u, AnswerOf(r, err));
    if r.Success? {
      StoredIffComplete(cfg, k, u, r.value.accessKeyID, r.value.accessSecretKey, r.value.endpoint);
    } else {
      FailureIsReported(cfg, k, u, err);
    }
  }
}
