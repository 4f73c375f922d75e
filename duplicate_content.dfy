/** The class-based revision of the plugin (class WP_Duplicate_Content in tests/test.php): the
    row-action link, the `duplicate_post` request handler and the copiers it runs. The class keeps
    no state of its own, so its methods are modelled as module members acting on the host. */
module DuplicateContent {
  import opened Host
  import opened Decimal
  import opened Nonces

  // ---------------------------------------------------------------------------------------------
  // Enabled post types and the row-action link.

  /** What `get_option('wp_duplicate_content_post_types', ...)` returns before the option is saved. */
  const DefaultEnabledTypes: seq<string> := ["post", "page"]

  function EnabledTypes(option: Option<seq<string>>): (r: seq<string>)
    ensures option.None? ==> r == DefaultEnabledTypes
    ensures option.Some? ==> r == option.value
  {
    option.GetOr(DefaultEnabledTypes)
  }

  /** The three conditions under which the link is offered. */
  predicate LinkShown(site: Site, id: PostId, post: Post)
    reads site
  {
    post.postType in EnabledTypes(site.enabledTypes) &&
    UserCan(site.user, "edit_posts", []) &&
    UserCan(site.user, "edit_post", [id])
  }

  /** Before the option is saved, the link is offered on posts and pages, and on no other type,
      exactly when the user may edit posts and this post. */
  lemma DefaultTypesGate(site: Site, id: PostId, post: Post)
    requires site.enabledTypes.None?
    ensures LinkShown(site, id, post) <==>
              (post.postType == "post" || post.postType == "page") &&
              UserCan(site.user, "edit_posts", []) && UserCan(site.user, "edit_post", [id])
  {
    assert EnabledTypes(site.enabledTypes) == ["post", "page"];
  }

  /** `add_duplicate_link($actions, $post)`: adds the `duplicate` action, a link carrying the post
      id and a nonce for its scope, when the post type is enabled and the user may edit posts and
      this post; every other key is left as it was. */
  function AddDuplicateLink(site: Site, p: Platform, actions: map<string, RowAction>, id: PostId,
                            post: Post): (r: map<string, RowAction>)
    reads site
    ensures forall k :: k != DuplicateKey ==> (k in r <==> k in actions)
    ensures forall k :: k != DuplicateKey && k in actions ==> r[k] == actions[k]
    ensures LinkShown(site, id, post) ==>
              DuplicateKey in r && r[DuplicateKey] == DuplicateLink(id, p.createNonce(NonceScope(id)))
    ensures !LinkShown(site, id, post) ==> r == actions
  {
    if LinkShown(site, id, post) then
      actions[DuplicateKey := DuplicateLink(id, p.createNonce(NonceScope(id)))]
    else
      actions
  }

  // ---------------------------------------------------------------------------------------------
  // The request checks of `duplicate_post_as_draft`, in the order the handler makes them.

  const CreationFailedMessage: string := "Post creation failed, could not create a new post."

  function CheckRequest(site: Site, p: Platform, req: Request): (r: Gate)
    reads site
    ensures r == Reject(NoPostMessage) <==> !HasInputs(req)
    ensures r == Reject(SecurityMessage) <==> HasInputs(req) && !NonceValid(p, req)
    ensures r == Reject(PermissionMessage) <==>
              HasInputs(req) && NonceValid(p, req) &&
              (p.absint(req.post.value) !in site.posts ||
               !UserCan(site.user, "edit_post", [p.absint(req.post.value)]))
    ensures r.Proceed? <==>
              HasInputs(req) && NonceValid(p, req) &&
              p.absint(req.post.value) in site.posts &&
              UserCan(site.user, "edit_post", [p.absint(req.post.value)])
    ensures r.Proceed? ==> r.id == p.absint(req.post.value)
  {
    if !HasInputs(req) then Reject(NoPostMessage)
    else
      var id := p.absint(req.post.value);
      if !NonceValid(p, req) then Reject(SecurityMessage)
      else if site.GetPost(id).None? || !UserCan(site.user, "edit_post", [id]) then Reject(PermissionMessage)
      else Proceed(id)
  }

  /** A link the gate added, followed by the same user, passes every check of the handler. */
  lemma LinkPassesHandlerChecks(site: Site, p: Platform, actions: map<string, RowAction>, id: PostId)
    requires NonceContract(p)
    requires id in site.posts && LinkShown(site, id, site.posts[id])
    requires p.absint(NatToString(id)) == id
    requires p.sanitizeText(p.createNonce(NonceScope(id))) == p.createNonce(NonceScope(id))
    ensures var link := AddDuplicateLink(site, p, actions, id, site.posts[id])[DuplicateKey];
            link.DuplicateLink? &&
            CheckRequest(site, p, Request(Some(NatToString(link.post)), Some(link.nonce))) == Proceed(id)
  {
    TokenBoundToPost(p, id, id);
  }

  /** A token minted for post `a`, presented with an id that sanitizes to another post, fails the
      security check, whatever the other post and the user's rights. */
  lemma ForeignTokenRejected(site: Site, p: Platform, a: PostId, postParam: string)
    requires NonceContract(p)
    requires p.absint(postParam) != a
    requires p.sanitizeText(p.createNonce(NonceScope(a))) == p.createNonce(NonceScope(a))
    ensures CheckRequest(site, p, Request(Some(postParam), Some(p.createNonce(NonceScope(a)))))
            == Reject(SecurityMessage)
  {
    TokenBoundToPost(p, a, p.absint(postParam));
  }

  // ---------------------------------------------------------------------------------------------
  // The field copier.

  const CopySuffix: string := "(Copy)"

  /** The `$new_post` array built from the source post: every field is given, so none is left to
      the host's defaults; the title gains " (Copy)" and the status is a draft. */
  function NewPostFrom(src: Post, author: User): (r: NewPost)
    ensures r.author.Some? && r.excerpt.Some? && r.commentStatus.Some? && r.pingStatus.Some?
    ensures r.password.Some? && r.parent.Some? && r.menuOrder.Some?
    ensures r.title == src.title + " (Copy)" && r.status == "draft"
  {
    NewPost(
      author := Some(author.id),
      title := src.title + " " + CopySuffix,
      content := src.content,
      excerpt := Some(src.excerpt),
      status := "draft",
      postType := src.postType,
      commentStatus := Some(src.commentStatus),
      pingStatus := Some(src.pingStatus),
      password := Some(src.password),
      parent := Some(src.parent),
      menuOrder := Some(src.menuOrder))
  }

  /** The post the host stores for the copy is the source post with exactly three fields changed:
      the title gets " (Copy)", the status becomes draft whatever it was, and the author becomes
      the current user. No host default reaches it. */
  lemma StoredCopy(src: Post, u: User, defaults: Post)
    ensures Materialize(NewPostFrom(src, u), defaults)
            == src.(title := src.title + " (Copy)", status := "draft", author := u.id)
  {
  }

  // ---------------------------------------------------------------------------------------------
  // The taxonomy copier.

  /** Each listed taxonomy of `dst` set to the slug set `src` has in it. */
  function CopiedTerms(dst: map<string, set<string>>, src: map<string, set<string>>,
                       taxes: seq<string>): map<string, set<string>>
    decreases |taxes|
  {
    if taxes == [] then dst
    else CopiedTerms(dst[taxes[0] := SlugsOf(src, taxes[0])], src, taxes[1..])
  }

  /** For every taxonomy of the source's type the copy ends with exactly the source's slugs (the
      old set is replaced, not added to); every other taxonomy of the copy is untouched. */
  lemma {:induction false} CopiedTermsExact(dst: map<string, set<string>>,
                                           src: map<string, set<string>>, taxes: seq<string>)
    ensures forall t :: SlugsOf(CopiedTerms(dst, src, taxes), t)
                        == if t in taxes then SlugsOf(src, t) else SlugsOf(dst, t)
    decreases |taxes|
  {
    if taxes != [] {
      CopiedTermsExact(dst[taxes[0] := SlugsOf(src, taxes[0])], src, taxes[1..]);
      forall t ensures t in taxes <==> t == taxes[0] || t in taxes[1..] {
        assert taxes == [taxes[0]] + taxes[1..];
      }
    }
  }

  /** `duplicate_post_taxonomies($post_id, $new_post_id)`. */
  method DuplicatePostTaxonomies(site: Site, src: PostId, dst: PostId)
    requires site.Valid() && src in site.posts && src != dst && dst < site.nextId
    modifies site`terms
    ensures site.Valid()
    ensures forall x :: TermsOf(site.terms, x) ==
              if x == dst then
                CopiedTerms(TermsOf(old(site.terms), dst), TermsOf(old(site.terms), src),
                            TaxonomiesFor(site.taxonomies, site.posts[src].postType))
              else TermsOf(old(site.terms), x)
  {
    var taxes := TaxonomiesFor(site.taxonomies, site.posts[src].postType);
    ghost var goal := CopiedTerms(TermsOf(site.terms, dst), TermsOf(site.terms, src), taxes);
    var i := 0;
    while i < |taxes|
      invariant 0 <= i <= |taxes|
      invariant site.Valid()
      invariant forall x :: x != dst ==> TermsOf(site.terms, x) == TermsOf(old(site.terms), x)
      invariant CopiedTerms(TermsOf(site.terms, dst), TermsOf(site.terms, src), taxes[i..]) == goal
    {
      var slugs := SlugsOf(TermsOf(site.terms, src), taxes[i]);
      site.SetObjectTerms(dst, slugs, taxes[i]);
      assert taxes[i..][1..] == taxes[i + 1..];
      i := i + 1;
    }
  }

  // ---------------------------------------------------------------------------------------------
  // The metadata copier.

  /** Lifecycle keys that are never copied. */
  const DenyList: set<string> := {"_wp_old_slug", "_edit_lock", "_edit_last"}

  /** The Yoast SEO keys copied again when WPSEO_VERSION is defined. */
  const SeoKeys: seq<string> := [
    "_yoast_wpseo_focuskw",
    "_yoast_wpseo_title",
    "_yoast_wpseo_metadesc",
    "_yoast_wpseo_linkdex",
    "_yoast_wpseo_metakeywords",
    "_yoast_wpseo_primary_category"]

  function Unserialized(u: string -> string, vs: seq<string>): (r: seq<string>)
    ensures |r| == |vs| && forall i :: 0 <= i < |vs| ==> r[i] == u(vs[i])
  {
    if vs == [] then [] else [u(vs[0])] + Unserialized(u, vs[1..])
  }

  /** The inner loop: every value of `vs`, unserialized, added under `k` in order. */
  function AppendValues(m: seq<MetaEntry>, k: string, vs: seq<string>, u: string -> string): (r: seq<MetaEntry>)
    ensures forall k' :: Values(r, k') == if k' == k then Values(m, k) + Unserialized(u, vs) else Values(m, k')
    ensures WellFormed(m) ==> WellFormed(r)
    decreases |vs|
  {
    if vs == [] then m else AppendValues(AddMeta(m, k, u(vs[0])), k, vs[1..], u)
  }

  /** The outer loop: every entry whose key is not denied, appended. */
  function AppendEntries(m: seq<MetaEntry>, es: seq<MetaEntry>, u: string -> string): (r: seq<MetaEntry>)
    ensures WellFormed(m) ==> WellFormed(r)
    decreases |es|
  {
    if es == [] then m
    else
      var next := if es[0].key in DenyList then m else AppendValues(m, es[0].key, es[0].values, u);
      AppendEntries(next, es[1..], u)
  }

  /** Every value of every key that is not denied reaches the copy, in order, after the values the
      copy already had; a denied key gets nothing. */
  lemma {:induction false} AppendEntriesMeaning(m: seq<MetaEntry>, es: seq<MetaEntry>, u: string -> string)
    requires WellFormed(es)
    ensures forall k :: Values(AppendEntries(m, es, u), k)
                        == Values(m, k) + (if k in DenyList then [] else Unserialized(u, Values(es, k)))
    decreases |es|
  {
    if es != [] {
      var e := es[0];
      var next := if e.key in DenyList then m else AppendValues(m, e.key, e.values, u);
      AppendEntriesMeaning(next, es[1..], u);
      ValuesOfMissingKey(es[1..], e.key);
    }
  }

  /** One key of the Yoast loop: a truthy source value replaces the copy's values. */
  function SeoWrite(m: seq<MetaEntry>, src: seq<MetaEntry>, k: string, u: string -> string): seq<MetaEntry> {
    var v := GetSingle(src, k, u);
    if Truthy(v) then UpdateMeta(m, k, v) else m
  }

  function SeoCopy(m: seq<MetaEntry>, src: seq<MetaEntry>, keys: seq<string>, u: string -> string): (r: seq<MetaEntry>)
    ensures WellFormed(m) ==> WellFormed(r)
    decreases |keys|
  {
    if keys == [] then m else SeoCopy(SeoWrite(m, src, keys[0], u), src, keys[1..], u)
  }

  /** A listed key whose source value is truthy ends with that value in every slot; every other
      key is left as it was. */
  lemma {:induction false} SeoCopyMeaning(m: seq<MetaEntry>, src: seq<MetaEntry>, keys: seq<string>,
                                         u: string -> string)
    ensures forall k :: Values(SeoCopy(m, src, keys, u), k) ==
              if k in keys && Truthy(GetSingle(src, k, u)) then Fill(Values(m, k), GetSingle(src, k, u))
              else Values(m, k)
    decreases |keys|
  {
    if keys != [] {
      var k0 := keys[0];
      SeoCopyMeaning(SeoWrite(m, src, k0, u), src, keys[1..], u);
      forall k ensures k in keys <==> k == k0 || k in keys[1..] {
        assert keys == [k0] + keys[1..];
      }
      forall k ensures Values(SeoCopy(m, src, keys, u), k) ==
                  if k in keys && Truthy(GetSingle(src, k, u)) then Fill(Values(m, k), GetSingle(src, k, u))
                  else Values(m, k)
      {
        if k == k0 && Truthy(GetSingle(src, k, u)) {
          FillFill(Values(m, k), GetSingle(src, k, u), GetSingle(src, k, u));
        }
      }
    }
  }

  /** The copy's metadata after `duplicate_post_meta`, from the copy's and the source's before. */
  function CopiedMeta(dst: seq<MetaEntry>, src: seq<MetaEntry>, p: Platform): seq<MetaEntry> {
    var appended := AppendEntries(dst, src, p.unserialize);
    if p.seoVersionDefined then SeoCopy(appended, src, SeoKeys, p.unserialize) else appended
  }

  /** The whole metadata copy, key by key. */
  lemma CopiedMetaMeaning(dst: seq<MetaEntry>, src: seq<MetaEntry>, p: Platform, k: string)
    requires WellFormed(src)
    ensures var appended := Values(dst, k) + (if k in DenyList then [] else Unserialized(p.unserialize, Values(src, k)));
            var single := GetSingle(src, k, p.unserialize);
            Values(CopiedMeta(dst, src, p), k) ==
              if p.seoVersionDefined && k in SeoKeys && Truthy(single) then Fill(appended, single) else appended
  {
    AppendEntriesMeaning(dst, src, p.unserialize);
    SeoCopyMeaning(AppendEntries(dst, src, p.unserialize), src, SeoKeys, p.unserialize);
  }

  /** `_wp_old_slug`, `_edit_lock` and `_edit_last` are never copied. */
  lemma DeniedKeysNotCopied(dst: seq<MetaEntry>, src: seq<MetaEntry>, p: Platform, k: string)
    requires WellFormed(src) && k in DenyList
    ensures Values(CopiedMeta(dst, src, p), k) == Values(dst, k)
  {
    CopiedMetaMeaning(dst, src, p, k);
    assert k !in SeoKeys;
  }

  /** `duplicate_post_meta($post_id, $new_post_id)`. */
  method DuplicatePostMeta(site: Site, p: Platform, src: PostId, dst: PostId)
    requires site.Valid() && src != dst && dst < site.nextId
    modifies site`meta
    ensures site.Valid()
    ensures forall x :: MetaOf(site.meta, x) ==
              if x == dst then CopiedMeta(MetaOf(old(site.meta), dst), MetaOf(old(site.meta), src), p)
              else MetaOf(old(site.meta), x)
  {
    var u := p.unserialize;
    var postMeta := MetaOf(site.meta, src);
    ghost var appended := AppendEntries(MetaOf(site.meta, dst), postMeta, u);
    if |postMeta| > 0 {
      var i := 0;
      while i < |postMeta|
        invariant 0 <= i <= |postMeta|
        invariant site.Valid()
        invariant forall x :: x != dst ==> MetaOf(site.meta, x) == MetaOf(old(site.meta), x)
        invariant AppendEntries(MetaOf(site.meta, dst), postMeta[i..], u) == appended
      {
        var e := postMeta[i];
        if e.key !in DenyList {
          AddValues(site, dst, e.key, e.values, u);
        }
        assert postMeta[i..][1..] == postMeta[i + 1..];
        i := i + 1;
      }
    }
    CopySeoMeta(site, p, src, dst);
  }

  /** The inner `foreach`: every value, unserialized, added under `key` with `add_post_meta`. */
  method AddValues(site: Site, dst: PostId, key: string, vs: seq<string>, u: string -> string)
    requires site.Valid() && dst < site.nextId
    modifies site`meta
    ensures site.Valid()
    ensures forall x :: MetaOf(site.meta, x) ==
              if x == dst then AppendValues(MetaOf(old(site.meta), dst), key, vs, u)
              else MetaOf(old(site.meta), x)
  {
    var j := 0;
    while j < |vs|
      invariant 0 <= j <= |vs|
      invariant site.Valid()
      invariant forall x :: x != dst ==> MetaOf(site.meta, x) == MetaOf(old(site.meta), x)
      invariant AppendValues(MetaOf(site.meta, dst), key, vs[j..], u)
                == AppendValues(MetaOf(old(site.meta), dst), key, vs, u)
    {
      site.AddPostMeta(dst, key, u(vs[j]));
      assert vs[j..][1..] == vs[j + 1..];
      j := j + 1;
    }
  }

  /** The `if (defined('WPSEO_VERSION'))` block: each Yoast key with a truthy source value is
      written with `update_post_meta`. */
  method CopySeoMeta(site: Site, p: Platform, src: PostId, dst: PostId)
    requires site.Valid() && src != dst && dst < site.nextId
    modifies site`meta
    ensures site.Valid()
    ensures forall x :: MetaOf(site.meta, x) ==
              if x == dst && p.seoVersionDefined then
                SeoCopy(MetaOf(old(site.meta), dst), MetaOf(old(site.meta), src), SeoKeys, p.unserialize)
              else MetaOf(old(site.meta), x)
  {
    if p.seoVersionDefined {
      var u := p.unserialize;
      ghost var srcMeta := MetaOf(site.meta, src);
      var k := 0;
      while k < |SeoKeys|
        invariant 0 <= k <= |SeoKeys|
        invariant site.Valid()
        invariant forall x :: x != dst ==> MetaOf(site.meta, x) == MetaOf(old(site.meta), x)
        invariant SeoCopy(MetaOf(site.meta, dst), srcMeta, SeoKeys[k..], u)
                  == SeoCopy(MetaOf(old(site.meta), dst), srcMeta, SeoKeys, u)
      {
        var key := SeoKeys[k];
        var value := GetSingle(MetaOf(site.meta, src), key, u);
        if Truthy(value) {
          site.UpdatePostMeta(dst, key, value);
        }
        assert SeoKeys[k..][1..] == SeoKeys[k + 1..];
        k := k + 1;
      }
    }
  }

  // ---------------------------------------------------------------------------------------------
  // The log line.

  /** The `sprintf` line of `log_duplication_action`: it opens with "Post ID " and the source id,
      and closes with the user id in parentheses. */
  function LogLine(src: PostId, newId: PostId, u: User): (r: string)
    ensures |r| > 8 + |NatToString(src)| && r[..8] == "Post ID " && r[8..8 + |NatToString(src)|] == NatToString(src)
    ensures var tail := " (ID: " + NatToString(u.id) + ")";
            |r| > |tail| && r[|r| - |tail|..] == tail
  {
    "Post ID " + NatToString(src) + " was duplicated to new Post ID " + NatToString(newId)
    + " by User " + u.login + " (ID: " + NatToString(u.id) + ")"
  }

  /** The log line names the source, the copy and the user (login and id) unambiguously. */
  lemma LogLineIdentifiesPosts(a: PostId, b: PostId, u: User, a2: PostId, b2: PostId, u2: User)
    requires LogLine(a, b, u) == LogLine(a2, b2, u2)
    ensures a == a2 && b == b2 && u.login == u2.login && u.id == u2.id
  {
    var t1, t2, w := LogLineShape(a, b, u);
    var t1', t2', w' := LogLineShape(a2, b2, u2);
    StripPrefix("Post ID ", NatToString(a) + t1, NatToString(a2) + t1');
    NumberThenText(a, t1, a2, t1');
    StripPrefix(" was duplicated to new Post ID ", NatToString(b) + t2, NatToString(b2) + t2');
    NumberThenText(b, t2, b2, t2');
    StripSuffix(w + NatToString(u.id), w' + NatToString(u2.id), ")");
    TextThenNumber(w, u.id, w', u2.id);
    StripSuffix(" by User " + u.login, " by User " + u2.login, " (ID: ");
    StripPrefix(" by User ", u.login, u2.login);
  }

  /** The log line cut where the two post ids end, and where the user id begins. */
  lemma LogLineShape(a: PostId, b: PostId, u: User) returns (t1: string, t2: string, w: string)
    ensures LogLine(a, b, u) == "Post ID " + (NatToString(a) + t1)
    ensures t1 == " was duplicated to new Post ID " + (NatToString(b) + t2)
    ensures |t2| > 0 && t2[0] == ' '
    ensures w == " by User " + u.login + " (ID: "
    ensures t2 == w + NatToString(u.id) + ")"
    ensures |w| > 0 && w[|w| - 1] == ' '
  {
    w := " by User " + u.login + " (ID: ";
    t2 := w + NatToString(u.id) + ")";
    t1 := " was duplicated to new Post ID " + (NatToString(b) + t2);
    assert LogLine(a, b, u) == "Post ID " + NatToString(a) + " was duplicated to new Post ID "
      + NatToString(b) + t2;
  }

  /** `log_duplication_action($post_id, $new_post_id)`. */
  method LogDuplicationAction(site: Site, src: PostId, newId: PostId)
    modifies site`log
    ensures site.log == old(site.log) + [LogLine(src, newId, site.user)]
  {
    site.ErrorLog(LogLine(src, newId, site.user));
  }

  // ---------------------------------------------------------------------------------------------
  // The handler.

  /** What the three steps after a created post leave behind, for the source `src` and the id `n`. */
  twostate predicate CopiedInto(site: Site, p: Platform, src: PostId, n: PostId)
    reads site
  {
    src in old(site.posts) &&
    (forall x :: TermsOf(site.terms, x) ==
       if x == n then
         CopiedTerms(TermsOf(old(site.terms), n), TermsOf(old(site.terms), src),
                     TaxonomiesFor(old(site.taxonomies), old(site.posts)[src].postType))
       else TermsOf(old(site.terms), x)) &&
    (forall x :: MetaOf(site.meta, x) ==
       if x == n then CopiedMeta(MetaOf(old(site.meta), n), MetaOf(old(site.meta), src), p)
       else MetaOf(old(site.meta), x)) &&
    site.log == old(site.log) + [LogLine(src, n, old(site.user))]
  }

  /** Taxonomies, then metadata, then the log line. */
  method CopyInto(site: Site, p: Platform, src: PostId, n: PostId)
    requires site.Valid() && src in site.posts && src != n && n < site.nextId
    modifies site`meta, site`terms, site`log
    ensures site.Valid()
    ensures CopiedInto(site, p, src, n)
  {
    DuplicatePostTaxonomies(site, src, n);
    DuplicatePostMeta(site, p, src, n);
    LogDuplicationAction(site, src, n);
  }

  /** `is_wp_error` never sees a failure when `wp_insert_post` is called without `$wp_error`:
      the failure value is the id 0, which is not an error object. */
  lemma FailureUnnoticedWithoutWpError()
    ensures !IsWpError(FailureValue(false)) && FailureValue(false) == PostIdResult(0)
    ensures IsWpError(FailureValue(true))
  {
  }

  /** `duplicate_post_as_draft()` as written: the insert is made without `$wp_error`, so when the
      host rejects the post the handler still copies terms and metadata onto id 0, logs it and
      redirects to the editor of post 0. */
  method DuplicatePostAsDraft(site: Site, p: Platform, req: Request) returns (o: Outcome)
    requires site.Valid()
    modifies site`posts, site`nextId, site`meta, site`terms, site`log
    ensures site.Valid()
    ensures old(CheckRequest(site, p, req)).Reject? ==>
              o == Die(old(CheckRequest(site, p, req)).message) && unchanged(site)
    ensures old(CheckRequest(site, p, req)).Proceed? ==>
              var src := old(CheckRequest(site, p, req)).id;
              o.Redirect? && CopiedInto(site, p, src, o.target) &&
              (|| (o.target == old(site.nextId) && site.nextId == old(site.nextId) + 1 &&
                   MetaOf(old(site.meta), o.target) == [] && TermsOf(old(site.terms), o.target) == map[] &&
                   (forall k :: k in DenyList ==> Values(MetaOf(site.meta, o.target), k) == []) &&
                   site.posts == old(site.posts)[o.target :=
                     Materialize(NewPostFrom(old(site.posts)[src], old(site.user)), old(site.InsertDefaults()))])
               || (o.target == 0 && site.posts == old(site.posts) && site.nextId == old(site.nextId)))
  {
    var gate := CheckRequest(site, p, req);
    if gate.Reject? {
      return Die(gate.message);
    }
    var src := gate.id;
    var post := site.GetPost(src).value;
    var newPost := NewPostFrom(post, site.user);
    var r := site.InsertPost(newPost, false);
    if !IsWpError(r) {
      CopyInto(site, p, src, r.id);
      if r.id == old(site.nextId) {
        ghost var srcMeta := MetaOf(old(site.meta), src);
        assert WellFormed(srcMeta);
        forall k | k in DenyList
          ensures Values(MetaOf(site.meta, r.id), k) == []
        {
          DeniedKeysNotCopied([], srcMeta, p, k);
        }
      }
      o := Redirect(r.id);
    } else {
      o := Die(CreationFailedMessage);
    }
  }

  /** The handler as its else-branch intends: with `$wp_error = true` a rejected insert ends in
      "Post creation failed…" and no taxonomy, metadata or log step runs. */
  method DuplicatePostAsDraftReportingErrors(site: Site, p: Platform, req: Request) returns (o: Outcome)
    requires site.Valid()
    modifies site`posts, site`nextId, site`meta, site`terms, site`log
    ensures site.Valid()
    ensures old(CheckRequest(site, p, req)).Reject? ==>
              o == Die(old(CheckRequest(site, p, req)).message) && unchanged(site)
    ensures old(CheckRequest(site, p, req)).Proceed? ==>
              var src := old(CheckRequest(site, p, req)).id;
              || (o == Die(CreationFailedMessage) && unchanged(site))
              || (o == Redirect(old(site.nextId)) && site.nextId == old(site.nextId) + 1 &&
                  CopiedInto(site, p, src, o.target) &&
                  MetaOf(old(site.meta), o.target) == [] && TermsOf(old(site.terms), o.target) == map[] &&
                  (forall k :: k in DenyList ==> Values(MetaOf(site.meta, o.target), k) == []) &&
                  site.posts == old(site.posts)[o.target :=
                    Materialize(NewPostFrom(old(site.posts)[src], old(site.user)), old(site.InsertDefaults()))])
  {
    var gate := CheckRequest(site, p, req);
    if gate.Reject? {
      return Die(gate.message);
    }
    var src := gate.id;
    var post := site.GetPost(src).value;
    var newPost := NewPostFrom(post, site.user);
    var r := site.InsertPost(newPost, true);
    if !IsWpError(r) {
      CopyInto(site, p, src, r.id);
      if r.id == old(site.nextId) {
        ghost var srcMeta := MetaOf(old(site.meta), src);
        assert WellFormed(srcMeta);
        forall k | k in DenyList
          ensures Values(MetaOf(site.meta, r.id), k) == []
        {
          DeniedKeysNotCopied([], srcMeta, p, k);
        }
      }
      o := Redirect(r.id);
    } else {
      o := Die(CreationFailedMessage);
    }
  }
}
