/** What both revisions of the plugin share about the link and its request: the `duplicate`
    action key, the anti-forgery scope (a link for post `id` carries a nonce minted for
    "duplicate_post_<id>", and the handler verifies the presented token against the scope rebuilt
    from the requested id), the two query parameters and the messages of the first checks. */
module Nonces {
  import opened Host
  import opened Decimal

  const ScopePrefix: string := "duplicate_post_"

  /** `'duplicate_post_' . $id`: the prefix, then digits that read back as the id. */
  function NonceScope(id: PostId): (s: string)
    ensures |s| > |ScopePrefix| && s[..|ScopePrefix|] == ScopePrefix
    ensures AllDigits(s[|ScopePrefix|..]) && ParseDigits(s[|ScopePrefix|..]) == id
  {
    ParseNatToString(id);
    var s := ScopePrefix + NatToString(id);
    assert s[|ScopePrefix|..] == NatToString(id);
    s
  }

  /** Different posts have different scopes. */
  lemma ScopeInjective(a: PostId, b: PostId)
    ensures NonceScope(a) == NonceScope(b) <==> a == b
  {
    if NonceScope(a) == NonceScope(b) {
      StripPrefix(ScopePrefix, NatToString(a), NatToString(b));
      NatToStringInjective(a, b);
    }
  }

  /** The key of the row action both revisions add. */
  const DuplicateKey: string := "duplicate"

  const NoPostMessage: string := "No post to duplicate has been supplied!"
  const SecurityMessage: string := "Security check failed"
  const PermissionMessage: string := "You do not have permission to duplicate this post."

  /** Both parameters `post` and `duplicate_nonce` present. */
  predicate HasInputs(req: Request) {
    req.post.Some? && req.nonce.Some?
  }

  /** The sanitized token verifies for the scope of the sanitized id. */
  predicate NonceValid(p: Platform, req: Request)
    requires HasInputs(req)
  {
    p.verifyNonce(p.sanitizeText(req.nonce.value), NonceScope(p.absint(req.post.value)))
  }

  /** What the model assumes of `wp_create_nonce` and `wp_verify_nonce`: a freshly minted token
      verifies for its own scope, and a token verifies for at most one scope. */
  ghost predicate NonceContract(p: Platform) {
    (forall s :: p.verifyNonce(p.createNonce(s), s)) &&
    (forall t, s1, s2 :: p.verifyNonce(t, s1) && p.verifyNonce(t, s2) ==> s1 == s2)
  }

  /** A token minted for post `a` verifies for post `b` exactly when `a == b`. */
  lemma TokenBoundToPost(p: Platform, a: PostId, b: PostId)
    requires NonceContract(p)
    ensures p.verifyNonce(p.createNonce(NonceScope(a)), NonceScope(b)) <==> a == b
  {
    ScopeInjective(a, b);
    assert p.verifyNonce(p.createNonce(NonceScope(a)), NonceScope(a));
  }
}
