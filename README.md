# WP Duplicate Content, modelled in Dafny

WP Duplicate Content is a WordPress plugin. It adds a "Duplicate" row action to the admin list of
posts and pages. It also handles the `admin_action_duplicate_post` request that the link sends: it
checks the request, creates a draft copy of the post, copies the post's taxonomy terms and
metadata (Yoast SEO fields included), logs the duplication and redirects to the editor of the
copy.

The repository holds two revisions of the plugin, and both are modelled, each in its own module
against the same abstract host:

- `DuplicateContent` (`duplicate_content.dfy`) models the class `WP_Duplicate_Content` in
  `tests/test.php`. Despite its path, this is the complete, class-based plugin.
- `LegacyDuplicate` (`legacy_duplicate.dfy`) models the older function-based plugin in
  `wp-duplicate-content.php`.

Shared modules:

- `Host` (`host.dfy`) is the WordPress host as the plugin sees it:
  - post records, and the request array for `wp_insert_post` together with the defaults the host fills in (the current user as author, the site's defaults for the rest);
  - per-post metadata, with `add_post_meta` (appends a value) and `update_post_meta` (replaces every stored value);
  - per-post, per-taxonomy term-slug sets;
  - the enabled-types option, the current user with their granted capability questions, and the `error_log` sink.
  
  The state lives in a class `Site`. Its methods (`InsertPost`, `AddPostMeta`, `UpdatePostMeta`,
  `SetObjectTerms`, `ErrorLog`) change only the field they name.

  Primitives whose internals belong to WordPress are arrow-typed fields of a `Platform` value:
  `absint`, `sanitize_key`, `sanitize_text_field`, `maybe_unserialize`, `wp_create_nonce` and
  `wp_verify_nonce`. The feature probes `defined('WPSEO_VERSION')`, `class_exists('WPSEO_Meta')`
  and `function_exists('error_log')` are also fields of `Platform`.

- `Nonces` (`nonces.dfy`) holds what both revisions share about the link and its request: the `duplicate` action key, the two query parameters, the messages of the first checks and the scope `duplicate_post_<id>`. It states the promise the plugin
  relies on from the nonce functions: a minted token verifies for its own scope, and a token verifies
  for at most one scope.
- `Decimal` (`decimal.dfy`) renders an id as PHP's decimal string and proves that rendering
  injective. Ids are concatenated into scopes, messages and log lines, so this matters.

A post's metadata is an ordered list of `(key, values)` entries with distinct keys. This is what
`get_post_meta($id)` returns. Keeping the order makes the legacy loop deterministic when two keys
sanitize to the same key: the last writer wins.

`wp_insert_post` either stores the post under a fresh id or rejects it. Which one happens is the
host's choice. On rejection it returns a `WP_Error` only when the caller asked for one
(`$wp_error = true`), and the id 0 otherwise, as WordPress does.

Some host members are definitions that the contracts below build on; their own `ensures`
clauses only spell out their bodies:

- `Host.Materialize` is how the host turns a `wp_insert_post` request into a stored post: a given field is taken as given, and a missing field takes the host default. `DuplicateContent.StoredCopy` and `LegacyDuplicate.StoredCopy` are stated over it.
- `Host.FailureValue` is what a rejected insert returns: a `WP_Error` when `$wp_error` was asked for, the id 0 otherwise. `DuplicateContent.FailureUnnoticedWithoutWpError` and both handlers are stated over it.
- `Host.Site.InsertDefaults` is what `wp_insert_post` fills in for a field the request leaves out: the current user as author, the site's defaults for the rest. `Host.Site.InsertPost` and `LegacyDuplicate.StoredCopy` are stated over it.
- `Host.GetSingle` is `get_post_meta($id, $k, true)`: the first of the key's values, unserialized, or "" when the key has none. `DuplicateContent.SeoCopyMeaning`, `LegacyDuplicate.SeoCopyMeaning` and both `CopiedMetaMeaning` lemmas are stated over it.
- `Host.Truthy` is PHP's truthiness of a string: only "" and "0" are false. The same four lemmas use it as the Yoast filter.
- `Decimal.NatToString` is PHP's conversion of an integer id to its decimal string, without sign or leading zeros. `Decimal.ParseNatToString` and `Decimal.NatToStringInjective` state what it means.
- `Host.Values` is `get_post_meta($id, $k)`: all values stored under the key, in order, and none for a key that is absent. `Host.AddMeta`, `Host.UpdateMeta` and the metadata lemmas of both revisions are stated over it.
- `Host.SlugsOf` is `wp_get_object_terms($id, $tax, ['fields' => 'slugs'])`: the slug set of one taxonomy, empty when the post has none. `DuplicateContent.CopiedTermsExact` is stated over it.
- `Host.TaxonomiesFor` is `get_object_taxonomies($type)`: the taxonomies registered for a post type, none for an unregistered type. `DuplicateContent.DuplicatePostTaxonomies` and `DuplicateContent.CopiedInto` apply `DuplicateContent.CopiedTerms` to this list.
- `Host.IsWpError` is `is_wp_error`: true only of a `WP_Error`, never of an id. `DuplicateContent.FailureUnnoticedWithoutWpError` and both handlers use it.
- `Host.Site.GetPost` is `get_post`. It finds exactly the stored posts, and both `CheckRequest` functions use it.
- `DuplicateContent.EnabledTypes` reads the saved option, or `post` and `page` when none is saved. `DuplicateContent.DefaultTypesGate` states what that default means for the gate.

## Model

| member | source | states |
|---|---|---|
| Decimal.ParseNatToString | tests/test.php:183-187 | Parsing the decimal rendering of an id gives back the id. |
| Decimal.NatToStringInjective | tests/test.php:73 | Two ids render to the same string exactly when they are equal. |
| Decimal.TextThenNumber | tests/test.php:183-187 | Text ending with a non-digit, followed by an id's digits, determines both the text and the id. |
| Decimal.NumberThenText | tests/test.php:182-188 | An id's digits followed by text that starts with a non-digit determine both the id and that text. |
| Nonces.NonceScope | tests/test.php:73 | The scope is `duplicate_post_` followed by digits that read back as the post id. |
| Nonces.ScopeInjective | tests/test.php:73 | The scopes `duplicate_post_<a>` and `duplicate_post_<b>` are equal exactly when `a == b`. |
| Nonces.TokenBoundToPost | tests/test.php:92 | With the nonce promise, a token minted for post `a` verifies for the scope of post `b` exactly when `a == b`. |
| Host.AddMeta | tests/test.php:155 | `add_post_meta` puts the value after the key's existing values, leaves every other key alone, adds the key to the key set and keeps the list well-formed. |
| Host.UpdateMeta | tests/test.php:173 | `update_post_meta` sets every stored value of the key to the new one (a missing key gets it once), leaves every other key alone and keeps the list well-formed. |
| Host.FillFill | wp-duplicate-content.php:64 | Two updates of the same key leave what the second alone would leave. |
| Host.ValuesOfMissingKey | tests/test.php:148 | A key that is not in the list has no values. |
| Host.Site.InsertPost | tests/test.php:119 | On success, the request is stored as `Materialize(request, InsertDefaults())` under the fresh id `nextId` and the counter advances. That id has no metadata and, in this model, no terms yet. On failure, the failure value is returned and nothing changes. |
| Host.Site.AddPostMeta | tests/test.php:155 | Only the target post's metadata changes, as `AddMeta` says. |
| Host.Site.UpdatePostMeta | tests/test.php:173 | Only the target post's metadata changes, as `UpdateMeta` says. |
| Host.Site.SetObjectTerms | tests/test.php:142 | Only the target post's slug set in the given taxonomy changes, and it becomes exactly the given set (`append = false`). |
| Host.Site.ErrorLog | tests/test.php:189 | The log gets exactly one more line. |
| DuplicateContent.DefaultTypesGate | tests/test.php:71-72 | Before the option is saved, the link is offered exactly on `post` and `page` rows, and then only when the user has `edit_posts` and `edit_post` for the id. |
| DuplicateContent.AddDuplicateLink | tests/test.php:70-78 | The `duplicate` action is added exactly when the type is enabled and the user has `edit_posts` and `edit_post` for the id. It carries the id and a nonce for `duplicate_post_<id>`. No other key changes, and without the three conditions the actions come back unchanged. |
| DuplicateContent.CheckRequest | tests/test.php:84-100 | Missing parameters die with "No post to duplicate…" before anything else. Otherwise a nonce failure dies with "Security check failed". Otherwise a missing post or no `edit_post` dies with "You do not have permission…". The handler proceeds, with the absint of the request id, exactly when all checks pass. Each outcome is stated as an if-and-only-if. |
| DuplicateContent.LinkPassesHandlerChecks | tests/test.php:73-98 | A link the gate added, sent back by the same user for an existing post, passes every check of the handler. |
| DuplicateContent.ForeignTokenRejected | tests/test.php:88-94 | A token minted for post `a` presented with a request for any other id dies with "Security check failed". |
| DuplicateContent.NewPostFrom | tests/test.php:105-117 | The request gives every field, so none is left to the host's defaults. The title gains " (Copy)" and the status is `draft`. |
| DuplicateContent.StoredCopy | tests/test.php:105-117 | The stored copy has title + " (Copy)", status `draft` and the current user as author. Every other field is the source's, and no host default is used. |
| DuplicateContent.CopiedTermsExact | tests/test.php:138-144 | For every taxonomy of the source's type, the copy's slug set is exactly the source's. Other taxonomies are untouched. |
| DuplicateContent.DuplicatePostTaxonomies | tests/test.php:138-144 | The loop leaves the copy's terms as `CopiedTerms` says and changes no other post's terms. |
| DuplicateContent.Unserialized | tests/test.php:154-155 | Each value is passed through `maybe_unserialize`, in order, one for one. |
| DuplicateContent.AppendValues | tests/test.php:154-156 | The unserialized values come after the key's existing values. Other keys are unchanged and the list stays well-formed. |
| DuplicateContent.AppendEntriesMeaning | tests/test.php:147-158 | A denied key gets nothing. For every other key, all its source values, unserialized and in order, are appended after the copy's values. |
| DuplicateContent.SeoCopyMeaning | tests/test.php:170-175 | A listed Yoast key whose single source value is truthy ends with that value in every slot (replaced, not appended). Every other key is left as it was. |
| DuplicateContent.CopiedMetaMeaning | tests/test.php:147-177 | The whole metadata copy, key by key: the append step, followed by the Yoast replacement only when `WPSEO_VERSION` is defined, the key is among the six and the value is truthy. |
| DuplicateContent.DeniedKeysNotCopied | tests/test.php:151-153 | `_wp_old_slug`, `_edit_lock` and `_edit_last` keep the copy's own values. On a freshly inserted copy that means none at all, as both handlers state. |
| DuplicateContent.DuplicatePostMeta | tests/test.php:147-177 | The nested loops and the Yoast loop leave the copy's metadata as `CopiedMeta` says, change no other post's metadata and keep every list well-formed. |
| DuplicateContent.AddValues | tests/test.php:154-156 | The inner loop appends the unserialized values of one key, as `AppendValues` says. |
| DuplicateContent.CopySeoMeta | tests/test.php:161-176 | The Yoast loop runs only when `WPSEO_VERSION` is defined and leaves the copy's metadata as `SeoCopy` says. |
| DuplicateContent.LogLine | tests/test.php:182-188 | The line opens with "Post ID " and the source id, and closes with " (ID: " + the user id + ")". |
| DuplicateContent.LogLineIdentifiesPosts | tests/test.php:180-190 | Equal log lines name the same source id, new id, user login and user id. |
| DuplicateContent.LogDuplicationAction | tests/test.php:180-190 | Exactly one line is logged, naming the source, the copy and the current user's login and id. |
| DuplicateContent.CopyInto | tests/test.php:123-127 | Taxonomies, then metadata, then the log, with the combined effect `CopiedInto`. |
| DuplicateContent.FailureUnnoticedWithoutWpError | tests/test.php:119-121 | Without `$wp_error` the failure value is the id 0, which `is_wp_error` does not flag. With it, the failure is flagged. |
| DuplicateContent.DuplicatePostAsDraft | tests/test.php:81-135 | The handler as written. A rejected request dies with the check's message and changes nothing. Otherwise it redirects. Either the copy was stored under the fresh id, which had no metadata or terms before, the id counter advanced by one, and the copy carries none of the three denied keys; or the insert failed, and then the posts and the id counter are unchanged, the redirect goes to post 0 and the copy steps ran on id 0. In both cases terms, metadata and log are as `CopiedInto` says. |
| DuplicateContent.DuplicatePostAsDraftReportingErrors | tests/test.php:119-134 | The handler with `$wp_error = true`. A failed insert dies with "Post creation failed, could not create a new post." and changes nothing. A successful one stores the copy under the fresh id, which had no metadata or terms before, and advances the id counter by one. It then copies and logs, and redirects there; the copy carries none of the three denied keys. |
| LegacyDuplicate.AddDuplicateLink | wp-duplicate-content.php:18-26 | The `duplicate` action is added exactly when the user has `edit_posts` for the id and `manage_options`; the post type is not consulted. It carries a nonce for `duplicate_post_<id>`, and no other key changes. |
| LegacyDuplicate.CheckRequest | wp-duplicate-content.php:32-50 | Missing parameters give "No post…". Then the nonce is checked. Then the capabilities are checked, before the post is loaded. Then a missing post gives "Post creation failed, could not find original post: " followed by the id. Each outcome is stated as an if-and-only-if. |
| LegacyDuplicate.NotFoundMessage | wp-duplicate-content.php:91 | The message is "Post creation failed, could not find original post: " followed by digits that read back as the id. |
| LegacyDuplicate.LinkPassesHandlerChecks | wp-duplicate-content.php:21-48 | A link this gate added passes every check of this handler for an existing post. |
| LegacyDuplicate.ForeignTokenRejected | wp-duplicate-content.php:36-42 | A token minted for post `a` fails the security check for every other id. |
| LegacyDuplicate.NewPostFrom | wp-duplicate-content.php:51-56 | The request gives title + " (Copy)", the source's content and type, and status `draft`. Author, excerpt and every other field are left to the host. |
| LegacyDuplicate.StoredCopy | wp-duplicate-content.php:51-58 | The stored copy has title + " (Copy)", the source's content and type, and status `draft`. The author is the current user, filled in by the host, and every other field is the site's default. |
| LegacyDuplicate.UpdateEntriesMeaning | wp-duplicate-content.php:60-65 | A sanitized key written by the loop ends with the last value written to it, in every slot: replaced, not accumulated. A key it does not write is unchanged. |
| LegacyDuplicate.EveryKeyWritten | wp-duplicate-content.php:61-64 | There is no deny-list: every source key, sanitized, is written. |
| LegacyDuplicate.OnlyFirstValuesMatter | wp-duplicate-content.php:63 | Two sources with the same keys and the same first values give the same copy. Later values are ignored. |
| LegacyDuplicate.UpdateEntriesIdempotent | wp-duplicate-content.php:60-65 | Running the copy loop a second time changes no key's values. |
| LegacyDuplicate.SeoCopyMeaning | wp-duplicate-content.php:76-81 | With keys that `sanitize_key` keeps, a listed key whose value is truthy ends with the sanitized value in every slot. Every other key is unchanged. |
| LegacyDuplicate.SeoKeysAreClean | wp-duplicate-content.php:69-75 | The five Yoast keys consist only of characters `sanitize_key` keeps: lower-case letters, digits, `_` and `-`. |
| LegacyDuplicate.CopiedMetaMeaning | wp-duplicate-content.php:60-82 | The whole metadata copy, key by key: the last-write step, then the Yoast replacement only when `WPSEO_Meta` exists, the key is among the five (no primary category) and the value is truthy. |
| LegacyDuplicate.CopyMeta | wp-duplicate-content.php:60-65 | The loop leaves the copy's metadata as `UpdateEntries` says and changes no other post. |
| LegacyDuplicate.CopySeoMeta | wp-duplicate-content.php:68-82 | The Yoast loop runs only when `WPSEO_Meta` exists and leaves the copy's metadata as `SeoCopy` says. |
| LegacyDuplicate.LogLine | wp-duplicate-content.php:100 | The line opens with "Post ID " and the source id, and ends with the user id. |
| LegacyDuplicate.LogLineIdentifies | wp-duplicate-content.php:100 | Equal log lines name the same source id, new id and user id. |
| LegacyDuplicate.LogDuplicationAction | wp-duplicate-content.php:97-102 | One line is logged when `error_log` exists, and none otherwise. |
| LegacyDuplicate.CopyInto | wp-duplicate-content.php:60-85 | The metadata loop, the Yoast loop and the log, with the combined effect `CopiedInto`. |
| LegacyDuplicate.DuplicatePostAsDraft | wp-duplicate-content.php:28-93 | A rejected request dies with the check's message and changes nothing. Otherwise the insert result is not checked. The metadata copy, the Yoast copy, the log and the redirect all use the returned id: the fresh id, which had no metadata before, with the id counter advanced by one; or 0 when the host rejected the post, with the posts and the id counter unchanged. |

## Left out

- The settings page (`register_settings`, `add_settings_page`, `render_settings_page`), apart from the option's default value. It is hook registration and HTML output.
- Hook wiring (`add_action`, `add_filter`) and the global instantiation of the class. These are framework dispatch.
- The internals of `wp_create_nonce`, `wp_verify_nonce`, the capability system, `sanitize_key`, `sanitize_text_field`, `maybe_unserialize`, `absint` and `admin_url`. They are uninterpreted functions with the small promises stated where they are used. A nonce's binding to the user session and its expiry is part of these internals.
- The HTML markup of the link, `esc_url`, `esc_attr__` and `__()` translation. The link is modelled as the id and nonce it carries, and the " (Copy)" suffix as its untranslated text.
- `wp_die`, `wp_safe_redirect` and `exit`. They are modelled only as the terminal outcomes `Die(message)` and `Redirect(id)`.
- The `error_log` sink. The formatted line is appended to a list of strings.
- Concurrent requests and database transactions, which the host owns. The unused `global $wpdb` is also left out.
- Post timestamps, GUIDs, slugs and every other post field the plugin neither reads nor writes.
- The enabled-types option holding something other than an array of strings.
- PHP's loose `in_array` comparison. Types and keys are compared as exact strings.
- Metadata values that are not strings, and PHP truthiness of non-string values. Values are strings, and only "" and "0" are falsy.
- `Host.Site.InsertPost`, `DuplicateContent.StoredCopy` and `LegacyDuplicate.StoredCopy` store the request as it is. WordPress first runs it through `sanitize_post`, with the kses filters for users without `unfiltered_html`, and through `wp_unslash`. A backslash or filtered markup in the source's title or content can therefore differ in the copy, and the lemmas do not capture that.
- `Host.Site.AddPostMeta`, `Host.Site.UpdatePostMeta` and `Host.Site.SetObjectTerms` never fail. The plugin ignores their return values, so a failed write in WordPress leaves a partial copy. The exact final state stated by `DuplicateContent.DuplicatePostMeta`, `DuplicateContent.DuplicatePostTaxonomies`, `DuplicateContent.CopiedInto`, `LegacyDuplicate.CopyMeta`, `LegacyDuplicate.CopySeoMeta` and `LegacyDuplicate.CopiedInto` holds only for a host whose writes succeed.
- `Host.Site.InsertPost` assigns no default category and no default terms. WordPress's `wp_insert_post` puts a non-auto-draft `post` in the `default_category` and gives each of the type's taxonomies that has a `default_term` that term. The class revision replaces every taxonomy of the source's type afterwards, so `DuplicateContent.CopiedInto` still describes WordPress for those taxonomies. `LegacyDuplicate.DuplicatePostAsDraft` copies no terms, so in WordPress its copy of a `post` is in "Uncategorized" (and holds any other default terms), while the model's copy has no terms at all.
- `Host.Site.AddPostMeta` and `Host.Site.UpdatePostMeta` store the key and value exactly as given. WordPress's `add_metadata` and `update_metadata` first run both through `wp_unslash` and the value through `maybe_serialize`. In WordPress a backslash in a copied value, such as JSON, is lost in the copy in both revisions; the model does not show that.
- `LegacyDuplicate.StoredCopy` takes comment and ping status from the site's fixed defaults. WordPress takes them from the post type's defaults.
- Metadata writes to post id 0. WordPress refuses them, but the model stores them under id 0, so the failure path of both handlers shows the copy steps landing on id 0. The meta API's own guards against empty keys are also left out.
- `LegacyDuplicate.SeoCopyMeaning` and `LegacyDuplicate.CopiedMetaMeaning` assume that `sanitize_key` leaves an already lower-case key unchanged. Without that assumption the Yoast writes go to whatever key `sanitize_key` returns.
- `LegacyDuplicate.FirstValue` returns "" for a key with no values. `get_post_meta` never lists such a key, so the PHP `$value[0]` never sees one.

## Findings

| source | as written | input that shows it | evidently intended | confidence | as-written member | corrected member |
|---|---|---|---|---|---|---|
| tests/test.php:119-134 | `wp_insert_post($new_post)` is called without `$wp_error = true`, so a rejected insert returns 0 and `is_wp_error(0)` is false. The "Post creation failed, could not create a new post." branch can never run: the handler copies terms and metadata onto id 0, logs it and redirects to post 0. | A valid request whose insert the host rejects, e.g. a failing database write. `FailureValue(false) == PostIdResult(0)`. | Pass `true` as the second argument so a failed insert ends in "Post creation failed…" with nothing copied, logged or redirected. | not executed | DuplicateContent.DuplicatePostAsDraft with DuplicateContent.FailureUnnoticedWithoutWpError | DuplicateContent.DuplicatePostAsDraftReportingErrors |
