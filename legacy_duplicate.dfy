/** The earlier, function-based revision of the plugin (wp-duplicate-content.php): the same link
    and handler, with looser checks, a shorter field list, a metadata copy of first values only
    through `update_post_meta`, and no check of what `wp_insert_post` returned. */
module LegacyDuplicate {
  import opened Host
  import opened Decimal
  import opened Nonces

  // ---------------------------------------------------------------------------------------------
  // The row-action link.

  /** The link is offered under the same two capability checks the handler repeats before it
      loads the post; the post type is not consulted. */
  predicate LinkShown(site: Site, id: PostId)
    reads site
  {
    Authorized(site, id)
  }

  /** `add_duplicate_link($actions, $post)`. */
  function AddDuplicateLink(site: Site, p: Platform, actions: map<string, RowAction>, id: PostId)
    : (r: map<string, RowAction>)
    reads site
    ensures forall k :: k != DuplicateKey ==> (k in r <==> k in actions)
    ensures forall k :: k != DuplicateKey && k in actions ==> r[k] == actions[k]
    ensures LinkShown(site, id) ==>
              DuplicateKey in r && r[DuplicateKey] == DuplicateLink(id, p.createNonce(NonceScope(id)))
    ensures !LinkShown(site, id) ==> r == actions
  {
    if LinkShown(site, id) then
      actions[DuplicateKey := DuplicateLink(id, p.createNonce(NonceScope(id)))]
    else
      actions
  }

  // ---------------------------------------------------------------------------------------------
  // The request checks of `duplicate_post_as_draft`.

  const NotFoundPrefix: string := "Post creation failed, could not find original post: "

  /** The message names the missing id: what follows the prefix reads back as the id. */
  function NotFoundMessage(id: PostId): (r: string)
    ensures |r| > |NotFoundPrefix| && r[..|NotFoundPrefix|] == NotFoundPrefix
    ensures AllDigits(r[|NotFoundPrefix|..]) && ParseDigits(r[|NotFoundPrefix|..]) == id
  {
    ParseNatToString(id);
    var r := NotFoundPrefix + NatToString(id);
    assert r[|NotFoundPrefix|..] == NatToString(id);
    r
  }

  /** `current_user_can('edit_posts', $id) && current_user_can('manage_options')`. */
  predicate Authorized(site: Site, id: PostId)
    reads site
  {
    UserCan(site.user, "edit_posts", [id]) && UserCan(site.user, "manage_options", [])
  }

  /** Missing parameters, then the nonce, then the capabilities (before the post is loaded), then
      the post itself. */
  function CheckRequest(site: Site, p: Platform, req: Request): (r: Gate)
    reads site
    ensures r == Reject(NoPostMessage) <==> !HasInputs(req)
    ensures r == Reject(SecurityMessage) <==> HasInputs(req) && !NonceValid(p, req)
    ensures r == Reject(PermissionMessage) <==>
              HasInputs(req) && NonceValid(p, req) && !Authorized(site, p.absint(req.post.value))
    ensures HasInputs(req) ==>
              (r == Reject(NotFoundMessage(p.absint(req.post.value))) <==>
               NonceValid(p, req) && Authorized(site, p.absint(req.post.value)) &&
               p.absint(req.post.value) !in site.posts)
    ensures r.Proceed? <==>
              HasInputs(req) && NonceValid(p, req) && Authorized(site, p.absint(req.post.value)) &&
              p.absint(req.post.value) in site.posts
    ensures r.Proceed? ==> r.id == p.absint(req.post.value)
  {
    if !HasInputs(req) then Reject(NoPostMessage)
    else
      var id := p.absint(req.post.value);
      if !NonceValid(p, req) then Reject(SecurityMessage)
      else if !Authorized(site, id) then Reject(PermissionMessage)
      else if site.GetPost(id).None? then Reject(NotFoundMessage(id))
      else Proceed(id)
  }

  /** A link the gate added, followed by the same user, passes every check of the handler for an
      existing post. */
  lemma LinkPassesHandlerChecks(site: Site, p: Platform, actions: map<string, RowAction>, id: PostId)
    requires NonceContract(p)
    requires id in site.posts && LinkShown(site, id)
    requires p.absint(NatToString(id)) == id
    requires p.sanitizeText(p.createNonce(NonceScope(id))) == p.createNonce(NonceScope(id))
    ensures var link := AddDuplicateLink(site, p, actions, id)[DuplicateKey];
            link.DuplicateLink? &&
            CheckRequest(site, p, Request(Some(NatToString(link.post)), Some(link.nonce))) == Proceed(id)
  {
    TokenBoundToPost(p, id, id);
  }

  /** A token minted for post `a` fails the security check for any other requested post. */
  lemma ForeignTokenRejected(site: Site, p: Platform, a: PostId, postParam: string)
    requires NonceContract(p)
    requires p.absint(postParam) != a
    requires p.sanitizeText(p.createNonce(NonceScope(a))) == p.createNonce(NonceScope(a))
    ensures CheckRequest(site, p, Request(Some(postParam), Some(p.createNonce(NonceScope(a)))))
            == Reject(SecurityMessage)
  {
    TokenBoundToPost(p, a, p.absint(postParam));
  }

  // ---------------------------------------------------------------------------------------------
  // The new post.

  /** The four-field `$new_post` array: title, content, status and type are given, every other
      field is left to the host. */
  function NewPostFrom(src: Post): (r: NewPost)
    ensures r.author.None? && r.excerpt.None? && r.commentStatus.None? && r.pingStatus.None?
    ensures r.password.None? && r.parent.None? && r.menuOrder.None?
    ensures r.title == src.title + " (Copy)" && r.content == src.content
    ensures r.status == "draft" && r.postType == src.postType
  {
    NewPost(
      author := None,
      title := src.title + " (Copy)",
      content := src.content,
      excerpt := None,
      status := "draft",
      postType := src.postType,
      commentStatus := None,
      pingStatus := None,
      password := None,
      parent := None,
      menuOrder := None)
  }

  /** The stored copy takes title, content, status and type from the request and every other
      field from the host's defaults; the author is thus the current user, whom the host fills in. */
  lemma StoredCopy(site: Site, src: Post)
    ensures Materialize(NewPostFrom(src), site.InsertDefaults())
            == site.defaults.(title := src.title + " (Copy)", content := src.content, status := "draft",
                              postType := src.postType, author := site.user.id)
  {
  }

  // ---------------------------------------------------------------------------------------------
  // The metadata copy.

  /** `$value[0]`; a key listed by `get_post_meta` always has a value. */
  function FirstValue(vs: seq<string>): string {
    if vs == [] then "" else vs[0]
  }

  /** The value the loop writes for one entry. */
  function Written(p: Platform, e: MetaEntry): string {
    p.sanitizeText(p.unserialize(FirstValue(e.values)))
  }

  /** The `foreach ($meta_data ...)` loop: one `update_post_meta` per source key, in order. */
  function UpdateEntries(m: seq<MetaEntry>, es: seq<MetaEntry>, p: Platform): (r: seq<MetaEntry>)
    ensures WellFormed(m) ==> WellFormed(r)
    decreases |es|
  {
    if es == [] then m
    else UpdateEntries(UpdateMeta(m, p.sanitizeKey(es[0].key), Written(p, es[0])), es[1..], p)
  }

  /** The value of the last source entry whose sanitized key is `k`, if any. */
  function LastWrite(es: seq<MetaEntry>, k: string, p: Platform): Option<string>
    decreases |es|
  {
    if es == [] then None
    else
      var later := LastWrite(es[1..], k, p);
      if later.Some? then later
      else if p.sanitizeKey(es[0].key) == k then Some(Written(p, es[0]))
      else None
  }

  /** A key the loop writes ends with the last written value in every slot (the update replaces,
      it does not accumulate); a key it does not write is left alone. */
  lemma {:induction false} UpdateEntriesMeaning(m: seq<MetaEntry>, es: seq<MetaEntry>, p: Platform, k: string)
    ensures Values(UpdateEntries(m, es, p), k) ==
              match LastWrite(es, k, p)
              case None => Values(m, k)
              case Some(v) => Fill(Values(m, k), v)
    decreases |es|
  {
    if es != [] {
      var m' := UpdateMeta(m, p.sanitizeKey(es[0].key), Written(p, es[0]));
      UpdateEntriesMeaning(m', es[1..], p, k);
      if p.sanitizeKey(es[0].key) == k {
        var later := LastWrite(es[1..], k, p);
        if later.Some? {
          FillFill(Values(m, k), Written(p, es[0]), later.value);
        }
      }
    }
  }

  /** There is no deny-list: every source key, sanitized, is written. */
  lemma {:induction false} EveryKeyWritten(es: seq<MetaEntry>, p: Platform, i: nat)
    requires i < |es|
    ensures LastWrite(es, p.sanitizeKey(es[i].key), p).Some?
    decreases |es|
  {
    if i > 0 {
      EveryKeyWritten(es[1..], p, i - 1);
    }
  }

  /** Only the first value of each key matters. */
  lemma {:induction false} OnlyFirstValuesMatter(m: seq<MetaEntry>, es1: seq<MetaEntry>, es2: seq<MetaEntry>,
                                                p: Platform)
    requires |es1| == |es2|
    requires forall i :: 0 <= i < |es1| ==>
               es1[i].key == es2[i].key && FirstValue(es1[i].values) == FirstValue(es2[i].values)
    ensures UpdateEntries(m, es1, p) == UpdateEntries(m, es2, p)
    decreases |es1|
  {
    if es1 != [] {
      assert Written(p, es1[0]) == Written(p, es2[0]);
      OnlyFirstValuesMatter(UpdateMeta(m, p.sanitizeKey(es1[0].key), Written(p, es1[0])), es1[1..], es2[1..], p);
    }
  }

  /** Running the copy a second time changes no key's values. */
  lemma UpdateEntriesIdempotent(m: seq<MetaEntry>, es: seq<MetaEntry>, p: Platform, k: string)
    ensures Values(UpdateEntries(UpdateEntries(m, es, p), es, p), k) == Values(UpdateEntries(m, es, p), k)
  {
    UpdateEntriesMeaning(m, es, p, k);
    UpdateEntriesMeaning(UpdateEntries(m, es, p), es, p, k);
    if LastWrite(es, k, p).Some? {
      FillFill(Values(m, k), LastWrite(es, k, p).value, LastWrite(es, k, p).value);
    }
  }

  /** The Yoast SEO keys of this revision: no primary category. */
  const SeoKeys: seq<string> := [
    "_yoast_wpseo_focuskw",
    "_yoast_wpseo_title",
    "_yoast_wpseo_metadesc",
    "_yoast_wpseo_linkdex",
    "_yoast_wpseo_metakeywords"]

  /** The string `sanitize_key` leaves as it is: lower-case letters, digits, `_` and `-`. */
  predicate IsSanitizedKey(s: string) {
    forall i :: 0 <= i < |s| ==> 'a' <= s[i] <= 'z' || '0' <= s[i] <= '9' || s[i] == '_' || s[i] == '-'
  }

  /** What the model assumes of `sanitize_key`: it does not change an already sanitized key. */
  ghost predicate SanitizeKeyKeepsClean(p: Platform) {
    forall s :: IsSanitizedKey(s) ==> p.sanitizeKey(s) == s
  }

  function SeoWrite(m: seq<MetaEntry>, src: seq<MetaEntry>, k: string, p: Platform): seq<MetaEntry> {
    var v := GetSingle(src, k, p.unserialize);
    if Truthy(v) then UpdateMeta(m, p.sanitizeKey(k), p.sanitizeText(v)) else m
  }

  function SeoCopy(m: seq<MetaEntry>, src: seq<MetaEntry>, keys: seq<string>, p: Platform): (r: seq<MetaEntry>)
    ensures WellFormed(m) ==> WellFormed(r)
    decreases |keys|
  {
    if keys == [] then m else SeoCopy(SeoWrite(m, src, keys[0], p), src, keys[1..], p)
  }

  /** With clean keys, a listed key whose source value is truthy ends with that value, sanitized,
      in every slot; every other key is left as it was. */
  lemma {:induction false} SeoCopyMeaning(m: seq<MetaEntry>, src: seq<MetaEntry>, keys: seq<string>,
                                         p: Platform, k: string)
    requires forall j :: 0 <= j < |keys| ==> p.sanitizeKey(keys[j]) == keys[j]
    ensures var v := GetSingle(src, k, p.unserialize);
            Values(SeoCopy(m, src, keys, p), k) ==
              if k in keys && Truthy(v) then Fill(Values(m, k), p.sanitizeText(v)) else Values(m, k)
    decreases |keys|
  {
    if keys != [] {
      var k0 := keys[0];
      assert p.sanitizeKey(keys[0]) == k0;
      SeoCopyMeaning(SeoWrite(m, src, k0, p), src, keys[1..], p, k);
      assert k in keys <==> k == k0 || k in keys[1..] by {
        assert keys == [k0] + keys[1..];
      }
      var v := GetSingle(src, k, p.unserialize);
      if k == k0 && Truthy(v) {
        FillFill(Values(m, k), p.sanitizeText(v), p.sanitizeText(v));
      }
    }
  }

  lemma SeoKeysAreClean()
    ensures forall j :: 0 <= j < |SeoKeys| ==> IsSanitizedKey(SeoKeys[j])
  {
  }

  /** The copy's metadata after lines 60-82, from the copy's and the source's before. */
  function CopiedMeta(dst: seq<MetaEntry>, src: seq<MetaEntry>, p: Platform): seq<MetaEntry> {
    var updated := UpdateEntries(dst, src, p);
    if p.seoMetaClassExists then SeoCopy(updated, src, SeoKeys, p) else updated
  }

  /** The whole metadata copy, key by key, for a `sanitize_key` that keeps clean keys. */
  lemma CopiedMetaMeaning(dst: seq<MetaEntry>, src: seq<MetaEntry>, p: Platform, k: string)
    requires SanitizeKeyKeepsClean(p)
    ensures var looped := match LastWrite(src, k, p)
                          case None => Values(dst, k)
                          case Some(v) => Fill(Values(dst, k), v);
            var single := GetSingle(src, k, p.unserialize);
            Values(CopiedMeta(dst, src, p), k) ==
              if p.seoMetaClassExists && k in SeoKeys && Truthy(single) then Fill(looped, p.sanitizeText(single))
              else looped
  {
    UpdateEntriesMeaning(dst, src, p, k);
    SeoKeysAreClean();
    SeoCopyMeaning(UpdateEntries(dst, src, p), src, SeoKeys, p, k);
  }

  /** The meta loop of `duplicate_post_as_draft`. */
  method CopyMeta(site: Site, p: Platform, src: PostId, dst: PostId)
    requires site.Valid() && src != dst && dst < site.nextId
    modifies site`meta
    ensures site.Valid()
    ensures forall x :: MetaOf(site.meta, x) ==
              if x == dst then UpdateEntries(MetaOf(old(site.meta), dst), MetaOf(old(site.meta), src), p)
              else MetaOf(old(site.meta), x)
  {
    var metaData := MetaOf(site.meta, src);
    var i := 0;
    while i < |metaData|
      invariant 0 <= i <= |metaData|
      invariant site.Valid()
      invariant forall x :: x != dst ==> MetaOf(site.meta, x) == MetaOf(old(site.meta), x)
      invariant UpdateEntries(MetaOf(site.meta, dst), metaData[i..], p)
                == UpdateEntries(MetaOf(old(site.meta), dst), metaData, p)
    {
      var sanitizedKey := p.sanitizeKey(metaData[i].key);
      var sanitizedValue := p.unserialize(FirstValue(metaData[i].values));
      site.UpdatePostMeta(dst, sanitizedKey, p.sanitizeText(sanitizedValue));
      assert metaData[i..][1..] == metaData[i + 1..];
      i := i + 1;
    }
  }

  /** The `if (class_exists('WPSEO_Meta'))` block. */
  method CopySeoMeta(site: Site, p: Platform, src: PostId, dst: PostId)
    requires site.Valid() && src != dst && dst < site.nextId
    modifies site`meta
    ensures site.Valid()
    ensures forall x :: MetaOf(site.meta, x) ==
              if x == dst && p.seoMetaClassExists then
                SeoCopy(MetaOf(old(site.meta), dst), MetaOf(old(site.meta), src), SeoKeys, p)
              else MetaOf(old(site.meta), x)
  {
    if p.seoMetaClassExists {
      ghost var srcMeta := MetaOf(site.meta, src);
      var k := 0;
      while k < |SeoKeys|
        invariant 0 <= k <= |SeoKeys|
        invariant site.Valid()
        invariant forall x :: x != dst ==> MetaOf(site.meta, x) == MetaOf(old(site.meta), x)
        invariant SeoCopy(MetaOf(site.meta, dst), srcMeta, SeoKeys[k..], p)
                  == SeoCopy(MetaOf(old(site.meta), dst), srcMeta, SeoKeys, p)
      {
        var key := SeoKeys[k];
        var value := GetSingle(MetaOf(site.meta, src), key, p.unserialize);
        if Truthy(value) {
          site.UpdatePostMeta(dst, p.sanitizeKey(key), p.sanitizeText(value));
        }
        assert SeoKeys[k..][1..] == SeoKeys[k + 1..];
        k := k + 1;
      }
    }
  }

  // ---------------------------------------------------------------------------------------------
  // The log line.

  /** The `error_log` line: it opens with "Post ID " and the source id, and closes with the user id. */
  function LogLine(src: PostId, newId: PostId, userId: nat): (r: string)
    ensures |r| > 8 + |NatToString(src)| && r[..8] == "Post ID " && r[8..8 + |NatToString(src)|] == NatToString(src)
    ensures |r| > |NatToString(userId)| && r[|r| - |NatToString(userId)|..] == NatToString(userId)
  {
    "Post ID " + NatToString(src) + " was duplicated to new Post ID " + NatToString(newId)
    + " by User ID " + NatToString(userId)
  }

  /** The log line cut where the ids end. */
  lemma LogLineShape(a: PostId, b: PostId, uid: nat) returns (t1: string, t2: string)
    ensures LogLine(a, b, uid) == "Post ID " + (NatToString(a) + t1)
    ensures t1 == " was duplicated to new Post ID " + (NatToString(b) + t2)
    ensures t2 == " by User ID " + NatToString(uid)
    ensures |t2| > 0 && t2[0] == ' '
  {
    t2 := " by User ID " + NatToString(uid);
    t1 := " was duplicated to new Post ID " + (NatToString(b) + t2);
  }

  /** The log line names the source, the copy and the user unambiguously. */
  lemma LogLineIdentifies(a: PostId, b: PostId, uid: nat, a2: PostId, b2: PostId, uid2: nat)
    requires LogLine(a, b, uid) == LogLine(a2, b2, uid2)
    ensures a == a2 && b == b2 && uid == uid2
  {
    var t1, t2 := LogLineShape(a, b, uid);
    var t1', t2' := LogLineShape(a2, b2, uid2);
    StripPrefix("Post ID ", NatToString(a) + t1, NatToString(a2) + t1');
    NumberThenText(a, t1, a2, t1');
    StripPrefix(" was duplicated to new Post ID ", NatToString(b) + t2, NatToString(b2) + t2');
    NumberThenText(b, t2, b2, t2');
    StripPrefix(" by User ID ", NatToString(uid), NatToString(uid2));
    NatToStringInjective(uid, uid2);
  }

  /** `log_duplication_action($post_id, $new_post_id)`: logs only where `error_log` exists. */
  method LogDuplicationAction(site: Site, p: Platform, src: PostId, newId: PostId)
    modifies site`log
    ensures site.log == old(site.log) + (if p.errorLogExists then [LogLine(src, newId, site.user.id)] else [])
  {
    if p.errorLogExists {
      site.ErrorLog(LogLine(src, newId, site.user.id));
    }
  }

  // ---------------------------------------------------------------------------------------------
  // The handler.

  twostate predicate CopiedInto(site: Site, p: Platform, src: PostId, n: PostId)
    reads site
  {
    (forall x :: MetaOf(site.meta, x) ==
       if x == n then CopiedMeta(MetaOf(old(site.meta), n), MetaOf(old(site.meta), src), p)
       else MetaOf(old(site.meta), x)) &&
    site.log == old(site.log) + (if p.errorLogExists then [LogLine(src, n, old(site.user).id)] else [])
  }

  /** The metadata loop, then the Yoast loop, then the log line. */
  method CopyInto(site: Site, p: Platform, src: PostId, n: PostId)
    requires site.Valid() && src != n && n < site.nextId
    modifies site`meta, site`log
    ensures site.Valid()
    ensures CopiedInto(site, p, src, n)
  {
    CopyMeta(site, p, src, n);
    CopySeoMeta(site, p, src, n);
    LogDuplicationAction(site, p, src, n);
  }

  /** `duplicate_post_as_draft()`: whatever `wp_insert_post` returns (the new id, or 0 when the
      host rejects the post) is used for the metadata copy, the log line and the redirect. */
  method DuplicatePostAsDraft(site: Site, p: Platform, req: Request) returns (o: Outcome)
    requires site.Valid()
    modifies site`posts, site`nextId, site`meta, site`log
    ensures site.Valid()
    ensures old(CheckRequest(site, p, req)).Reject? ==>
              o == Die(old(CheckRequest(site, p, req)).message) && unchanged(site)
    ensures old(CheckRequest(site, p, req)).Proceed? ==>
              var src := old(CheckRequest(site, p, req)).id;
              o.Redirect? && CopiedInto(site, p, src, o.target) &&
              (|| (o.target == old(site.nextId) && site.nextId == old(site.nextId) + 1 &&
                   MetaOf(old(site.meta), o.target) == [] &&
                   site.posts == old(site.posts)[o.target :=
                     Materialize(NewPostFrom(old(site.posts)[src]), old(site.InsertDefaults()))])
               || (o.target == 0 && site.posts == old(site.posts) && site.nextId == old(site.nextId)))
  {
    var gate := CheckRequest(site, p, req);
    if gate.Reject? {
      return Die(gate.message);
    }
    var postId := gate.id;
    var post := site.GetPost(postId).value;
    var newPost := NewPostFrom(post);
    var r := site.InsertPost(newPost, false);
    var newPostId := r.id;
    CopyInto(site, p, postId, newPostId);
    o := Redirect(newPostId);
  }
}
