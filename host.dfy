/** The WordPress host as the plugin sees it: post records, per-post metadata, per-post term
    assignments, the current user, and the primitives the plugin calls. None of this is the
    plugin's own code; the contracts here are the small promises the plugin relies on. */
module Host {

  datatype Option<T> = None | Some(value: T) {
    function GetOr(default: T): T {
      match this
      case Some(v) => v
      case None => default
    }
  }

  type PostId = nat

  /** The fields of a post that the plugin reads or writes. */
  datatype Post = Post(
    title: string,
    content: string,
    excerpt: string,
    status: string,
    postType: string,
    author: nat,
    commentStatus: string,
    pingStatus: string,
    password: string,
    parent: PostId,
    menuOrder: int)

  /** One question put to `current_user_can`: a capability name and its extra arguments. */
  datatype CapQuery = CapQuery(cap: string, args: seq<nat>)

  /** The current user (`wp_get_current_user()`); `grants` is every capability question the host
      answers with true for this user. */
  datatype User = User(id: nat, login: string, grants: set<CapQuery>)

  predicate UserCan(u: User, cap: string, args: seq<nat>) {
    CapQuery(cap, args) in u.grants
  }

  /** The array handed to `wp_insert_post`; a field left `None` is not in the array, and the host
      fills it with its default. */
  datatype NewPost = NewPost(
    author: Option<nat>,
    title: string,
    content: string,
    excerpt: Option<string>,
    status: string,
    postType: string,
    commentStatus: Option<string>,
    pingStatus: Option<string>,
    password: Option<string>,
    parent: Option<PostId>,
    menuOrder: Option<int>)

  /** The post the host stores for a request: every field given in the request, the host's
      default for every other field. */
  function Materialize(req: NewPost, defaults: Post): (p: Post)
    ensures p.title == req.title && p.content == req.content
    ensures p.status == req.status && p.postType == req.postType
    ensures p.author == req.author.GetOr(defaults.author)
    ensures p.excerpt == req.excerpt.GetOr(defaults.excerpt)
    ensures p.commentStatus == req.commentStatus.GetOr(defaults.commentStatus)
    ensures p.pingStatus == req.pingStatus.GetOr(defaults.pingStatus)
    ensures p.password == req.password.GetOr(defaults.password)
    ensures p.parent == req.parent.GetOr(defaults.parent)
    ensures p.menuOrder == req.menuOrder.GetOr(defaults.menuOrder)
  {
    Post(req.title, req.content, req.excerpt.GetOr(defaults.excerpt), req.status, req.postType,
         req.author.GetOr(defaults.author), req.commentStatus.GetOr(defaults.commentStatus),
         req.pingStatus.GetOr(defaults.pingStatus), req.password.GetOr(defaults.password),
         req.parent.GetOr(defaults.parent), req.menuOrder.GetOr(defaults.menuOrder))
  }

  /** What `wp_insert_post` returns: a post id (0 on a failure reported without `$wp_error`) or
      a `WP_Error` object. */
  datatype InsertResult = PostIdResult(id: nat) | WpError

  /** The value `wp_insert_post` returns when the host rejects the post: a `WP_Error` only when
      the caller passed `$wp_error = true`, the id 0 otherwise. */
  function FailureValue(wpError: bool): (r: InsertResult)
    ensures r.WpError? <==> wpError
    ensures r.PostIdResult? ==> r.id == 0
  {
    if wpError then WpError else PostIdResult(0)
  }

  predicate IsWpError(r: InsertResult) {
    r.WpError?
  }

  // ---------------------------------------------------------------------------------------------
  // Post metadata. `get_post_meta($id)` lists a post's keys, each with all of its values, in the
  // order the rows were stored; a post's metadata is modelled as that list.

  datatype MetaEntry = MetaEntry(key: string, values: seq<string>)

  function KeysOf(es: seq<MetaEntry>): set<string> {
    if es == [] then {} else {es[0].key} + KeysOf(es[1..])
  }

  /** What a well-formed metadata list looks like: every key once, every key with a value. */
  predicate WellFormed(es: seq<MetaEntry>) {
    es == [] || (es[0].values != [] && es[0].key !in KeysOf(es[1..]) && WellFormed(es[1..]))
  }

  /** All values stored under `k` (`get_post_meta($id, $k)`); empty when the key is absent. */
  function Values(es: seq<MetaEntry>, k: string): seq<string> {
    if es == [] then [] else if es[0].key == k then es[0].values else Values(es[1..], k)
  }

  lemma {:induction false} ValuesOfMissingKey(es: seq<MetaEntry>, k: string)
    requires k !in KeysOf(es)
    ensures Values(es, k) == []
  {
    if es != [] {
      ValuesOfMissingKey(es[1..], k);
    }
  }

  /** `add_post_meta`: one more value under `k`, after the ones already there. */
  function AddMeta(es: seq<MetaEntry>, k: string, v: string): (r: seq<MetaEntry>)
    ensures forall k' :: Values(r, k') == if k' == k then Values(es, k) + [v] else Values(es, k')
    ensures KeysOf(r) == KeysOf(es) + {k}
    ensures WellFormed(es) ==> WellFormed(r)
  {
    if es == [] then [MetaEntry(k, [v])]
    else if es[0].key == k then [MetaEntry(k, es[0].values + [v])] + es[1..]
    else [es[0]] + AddMeta(es[1..], k, v)
  }

  /** What `update_post_meta` (no previous value given) leaves under a key: every stored value
      becomes `v`, and a key with no value gets `v` once. */
  function Fill(vs: seq<string>, v: string): (r: seq<string>)
    ensures |r| == if vs == [] then 1 else |vs|
    ensures forall i :: 0 <= i < |r| ==> r[i] == v
  {
    if vs == [] then [v] else seq(|vs|, _ => v)
  }

  /** Updating twice keeps only the second value, and nothing accumulates. */
  lemma FillFill(vs: seq<string>, a: string, b: string)
    ensures Fill(Fill(vs, a), b) == Fill(vs, b)
  {
  }

  /** `update_post_meta`: the values under `k` are replaced, not added to. */
  function UpdateMeta(es: seq<MetaEntry>, k: string, v: string): (r: seq<MetaEntry>)
    ensures forall k' :: Values(r, k') == if k' == k then Fill(Values(es, k), v) else Values(es, k')
    ensures KeysOf(r) == KeysOf(es) + {k}
    ensures WellFormed(es) ==> WellFormed(r)
  {
    if es == [] then [MetaEntry(k, [v])]
    else if es[0].key == k then [MetaEntry(k, Fill(es[0].values, v))] + es[1..]
    else [es[0]] + UpdateMeta(es[1..], k, v)
  }

  /** `get_post_meta($id, $k, true)`: the first value, passed through `maybe_unserialize`, or the
      empty string when the key has no value. */
  function GetSingle(es: seq<MetaEntry>, k: string, unserialize: string -> string): (r: string)
    ensures Values(es, k) == [] ==> r == ""
    ensures Values(es, k) != [] ==> r == unserialize(Values(es, k)[0])
  {
    var vs := Values(es, k);
    if vs == [] then "" else unserialize(vs[0])
  }

  /** PHP truthiness of a string: only "" and "0" are false. */
  predicate Truthy(v: string) {
    v != "" && v != "0"
  }

  function MetaOf(meta: map<PostId, seq<MetaEntry>>, id: PostId): seq<MetaEntry> {
    if id in meta then meta[id] else []
  }

  // ---------------------------------------------------------------------------------------------
  // Term assignments: for each post, taxonomy name -> set of term slugs.

  function TermsOf(terms: map<PostId, map<string, set<string>>>, id: PostId): map<string, set<string>> {
    if id in terms then terms[id] else map[]
  }

  /** `wp_get_object_terms($id, $tax, ['fields' => 'slugs'])`. */
  function SlugsOf(t: map<string, set<string>>, tax: string): set<string> {
    if tax in t then t[tax] else {}
  }

  /** `get_object_taxonomies($type)`: the taxonomies registered for a post type. */
  function TaxonomiesFor(registry: map<string, seq<string>>, postType: string): seq<string> {
    if postType in registry then registry[postType] else []
  }

  // ---------------------------------------------------------------------------------------------

  /** The host functions whose internals are not part of this model, and the feature probes. */
  datatype Platform = Platform(
    absint: string -> nat,                    // absint() of a request string
    sanitizeKey: string -> string,            // sanitize_key()
    sanitizeText: string -> string,           // sanitize_text_field()
    unserialize: string -> string,            // maybe_unserialize() of a stored value
    createNonce: string -> string,            // wp_create_nonce(scope)
    verifyNonce: (string, string) -> bool,    // wp_verify_nonce(token, scope)
    seoVersionDefined: bool,                  // defined('WPSEO_VERSION')
    seoMetaClassExists: bool,                 // class_exists('WPSEO_Meta')
    errorLogExists: bool)                     // function_exists('error_log')

  /** Row action values: the markup the list view already holds, or the duplicate link the plugin
      adds, reduced to the post id and nonce it carries. */
  datatype RowAction = Markup(html: string) | DuplicateLink(post: PostId, nonce: string)

  /** The query parameters `post` and `duplicate_nonce`; `None` when not set. */
  datatype Request = Request(post: Option<string>, nonce: Option<string>)

  /** How a handler's request checks end: a message to die with, or the id of the post to copy. */
  datatype Gate = Reject(message: string) | Proceed(id: PostId)

  /** How a request ends: `wp_die(message)` or `wp_safe_redirect` to the editor of a post, then exit. */
  datatype Outcome = Die(message: string) | Redirect(target: nat)

  /** The content store of one WordPress site, as far as the plugin reads and changes it. */
  class Site {
    var posts: map<PostId, Post>
    var nextId: PostId
    var meta: map<PostId, seq<MetaEntry>>
    var terms: map<PostId, map<string, set<string>>>
    var taxonomies: map<string, seq<string>>
    var enabledTypes: Option<seq<string>>      // option wp_duplicate_content_post_types, if saved
    var user: User
    var defaults: Post
    var log: seq<string>                       // lines passed to error_log

    ghost predicate Valid()
      reads this
    {
      0 < nextId &&
      (forall id :: id in posts ==> 0 < id < nextId) &&
      (forall id :: id in meta ==> id < nextId && WellFormed(meta[id])) &&
      (forall id :: id in terms ==> id < nextId)
    }

    constructor (posts: map<PostId, Post>, meta: map<PostId, seq<MetaEntry>>,
                 terms: map<PostId, map<string, set<string>>>, taxonomies: map<string, seq<string>>,
                 enabledTypes: Option<seq<string>>, user: User, defaults: Post, nextId: PostId)
      requires 0 < nextId && forall id :: id in posts ==> 0 < id < nextId
      requires forall id :: id in meta ==> id < nextId && WellFormed(meta[id])
      requires forall id :: id in terms ==> id < nextId
      ensures Valid()
      ensures this.posts == posts && this.meta == meta && this.terms == terms
      ensures this.taxonomies == taxonomies && this.enabledTypes == enabledTypes
      ensures this.user == user && this.defaults == defaults && this.nextId == nextId
      ensures log == []
    {
      this.posts, this.meta, this.terms := posts, meta, terms;
      this.taxonomies, this.enabledTypes := taxonomies, enabledTypes;
      this.user, this.defaults, this.nextId := user, defaults, nextId;
      this.log := [];
    }

    /** `get_post($id)`. */
    function GetPost(id: PostId): (r: Option<Post>)
      reads this
      ensures r.Some? <==> id in posts
      ensures r.Some? ==> r.value == posts[id]
    {
      if id in posts then Some(posts[id]) else None
    }

    /** The defaults `wp_insert_post` fills in: the site's defaults, with the current user as the
        author. */
    function InsertDefaults(): (d: Post)
      reads this
      ensures d.author == user.id
    {
      defaults.(author := user.id)
    }

    /** `wp_insert_post($req, $wpError)`: either the host stores the post under a fresh id, which
        has no metadata and no terms yet, and returns that id, or it stores nothing and returns its
        failure value. Which one happens is the host's business. */
    method InsertPost(req: NewPost, wpError: bool) returns (r: InsertResult)
      requires Valid()
      modifies this`posts, this`nextId
      ensures Valid()
      ensures
        || (r == PostIdResult(old(nextId)) && old(nextId) !in old(posts)
            && old(nextId) !in meta && old(nextId) !in terms
            && posts == old(posts)[old(nextId) := Materialize(req, InsertDefaults())]
            && nextId == old(nextId) + 1)
        || (r == FailureValue(wpError) && posts == old(posts) && nextId == old(nextId))
    {
      var stored: bool :| true;
      if stored {
        r := PostIdResult(nextId);
        posts := posts[nextId := Materialize(req, InsertDefaults())];
        nextId := nextId + 1;
      } else {
        r := FailureValue(wpError);
      }
    }

    /** `add_post_meta($id, $k, $v)`. */
    method AddPostMeta(id: PostId, k: string, v: string)
      requires Valid() && id < nextId
      modifies this`meta
      ensures Valid()
      ensures meta == old(meta)[id := AddMeta(MetaOf(old(meta), id), k, v)]
    {
      meta := meta[id := AddMeta(MetaOf(meta, id), k, v)];
    }

    /** `update_post_meta($id, $k, $v)`. */
    method UpdatePostMeta(id: PostId, k: string, v: string)
      requires Valid() && id < nextId
      modifies this`meta
      ensures Valid()
      ensures meta == old(meta)[id := UpdateMeta(MetaOf(old(meta), id), k, v)]
    {
      meta := meta[id := UpdateMeta(MetaOf(meta, id), k, v)];
    }

    /** `wp_set_object_terms($id, $slugs, $tax, false)`: the slug set replaces the old one. */
    method SetObjectTerms(id: PostId, slugs: set<string>, tax: string)
      requires Valid() && id < nextId
      modifies this`terms
      ensures Valid()
      ensures terms == old(terms)[id := TermsOf(old(terms), id)[tax := slugs]]
    {
      terms := terms[id := TermsOf(terms, id)[tax := slugs]];
    }

    /** `error_log($line)`. */
    method ErrorLog(line: string)
      modifies this`log
      ensures log == old(log) + [line]
    {
      log := log + [line];
    }
  }
}
