/** What a call leaves alone. */
module Frames {
  import opened Kube
  import opened Cluster

  lemma ClaimsFrame(api: Api, call: Call)
    requires OnClaims(call)
    ensures var b := ServeClaims(api, call).0;
            b.secrets == api.secrets && b.accesses == api.accesses && b.classes == api.classes
              && b.cosiBuckets == api.cosiBuckets
  {
  }

  lemma SecretsFrame(api: Api, call: Call)
    requires OnSecrets(call)
    ensures var b := ServeSecrets(api, call).0;
            b.claims == api.claims && b.accesses == api.accesses && b.classes == api.classes
              && b.cosiBuckets == api.cosiBuckets
  {
  }

  lemma AccessesFrame(api: Api, call: Call)
    requires OnAccesses(call)
    ensures var b := ServeAccesses(api, call).0;
            b.claims == api.claims && b.secrets == api.secrets && b.classes == api.classes
              && b.cosiBuckets == api.cosiBuckets
  {
  }

  lemma CosiFrame(api: Api, call: Call)
    requires OnCosi(call)
    ensures var b := ServeCosi(api, call).0;
            b.claims == api.claims && b.secrets == api.secrets && b.accesses == api.accesses && b.classes == api.classes
  {
  }

  // Only the creation of an object by its user issues a uid, and versions only grow.
  lemma SecretVersionsGrow(api: Api, call: Call)
    requires OnSecrets(call)
    ensures ServeSecrets(api, call).0.uids == api.uids && api.version <= ServeSecrets(api, call).0.version
  {
  }

  lemma AccessVersionsGrow(api: Api, call: Call)
    requires OnAccesses(call)
    ensures ServeAccesses(api, call).0.uids == api.uids && api.version <= ServeAccesses(api, call).0.version
  {
  }

  lemma CosiVersionsGrow(api: Api, call: Call)
    requires OnCosi(call)
    ensures ServeCosi(api, call).0.uids == api.uids && api.version <= ServeCosi(api, call).0.version
  {
  }

  // A call is performed or has no effect.
  lemma ServeWorld(w: World, call: Call, c: Choice)
    ensures Serve(w, call, c).0 == w || Serve(w, call, c).0 == Perform(w, call, c).0
  {
    hide Perform;
  }

  // A call changes the maps it is about and no others.
  lemma Frame(w: World, call: Call, c: Choice)
    ensures var w' := Serve(w, call, c).0;
            && (!OnClaims(call) ==> w'.api.claims == w.api.claims)
            && (!OnSecrets(call) ==> w'.api.secrets == w.api.secrets)
            && (!OnAccesses(call) ==> w'.api.accesses == w.api.accesses)
            && (!OnCosi(call) ==> w'.api.cosiBuckets == w.api.cosiBuckets)
            && (!OnMinio(call) ==> w'.minio == w.minio)
            && w'.api.classes == w.api.classes
  {
    hide Serve, ServeClaims, ServeSecrets, ServeAccesses, ServeCosi, ServeMinio, ReplyOnly;
    ServeWorld(w, call, c);
    if OnClaims(call) { ClaimsFrame(w.api, call); }
    else if OnSecrets(call) { SecretsFrame(w.api, call); }
    else if OnAccesses(call) { AccessesFrame(w.api, call); }
    else if OnCosi(call) { CosiFrame(w.api, call); }
  }

  // Which part of the cluster answers a call.
  lemma Performs(w: World, call: Call, c: Choice)
    ensures OnClaims(call) ==> Perform(w, call, c) == WithApi(w, ServeClaims(w.api, call))
    ensures OnSecrets(call) ==> Perform(w, call, c) == WithApi(w, ServeSecrets(w.api, call))
    ensures OnAccesses(call) ==> Perform(w, call, c) == WithApi(w, ServeAccesses(w.api, call))
    ensures OnCosi(call) ==> Perform(w, call, c) == WithApi(w, ServeCosi(w.api, call))
    ensures OnMinio(call) ==> Perform(w, call, c) == WithMinio(w, ServeMinio(w.minio, call))
  {
    hide ServeClaims, ServeSecrets, ServeAccesses, ServeCosi, ServeMinio, ReplyOnly;
  }

  // A reply that is not an error is the reply of the performed call.
  lemma ServeReply(w: World, call: Call, c: Choice)
    ensures !Serve(w, call, c).1.Refused? ==> Serve(w, call, c) == Perform(w, call, c)
  {
    hide Perform;
  }

  // The status after a write of a claim, and in its reply.
  lemma WrittenStatus(api: Api, k: Key, c: Claim)
    ensures var (after, r) := WriteClaim(api, k, c);
            && (k in after.claims ==> k in api.claims && after.claims[k].status == api.claims[k].status)
            && (r.ClaimIs? ==> k in api.claims && r.claim.status == api.claims[k].status)
    ensures var (after, r) := WriteClaimStatus(api, k, c);
            && (k in after.claims ==>
                  k in api.claims
                  && (|| after.claims[k].status == api.claims[k].status
                      || (&& after.claims[k].status == c.status
                          && api.claims[k].uid == c.uid && api.claims[k].resourceVersion == c.resourceVersion)))
            && (r.ClaimIs? ==> r.claim.status == c.status)
  {
  }

  lemma ReadsChangeNothing(api: Api, call: Call)
    ensures call.GetClaim? ==>
              ServeClaims(api, call)
                == (api, if call.key in api.claims then ClaimIs(api.claims[call.key]) else NotFound)
    ensures call.GetSecret? ==>
              ServeSecrets(api, call)
                == (api, if call.key in api.secrets then SecretIs(api.secrets[call.key]) else NotFound)
    ensures call.GetAccess? ==>
              ServeAccesses(api, call)
                == (api, if call.key in api.accesses then AccessIs(api.accesses[call.key]) else NotFound)
  {
  }
}
