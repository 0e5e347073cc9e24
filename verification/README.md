# VMC Simple Cache, modelled in Dafny

VMC Simple Cache is a WordPress plugin that caches whole rendered pages as files. This project models its core and proves properties of that model:

- **`Store`** (`store.dfy`) models the file store, `Cache_Manager`.
  - The cache directory is an object, `CacheDir`. It holds a map from file names to what each file holds. The managers that the admin screen, the page controller and the deactivation hook each create all share it.
  - A key's file name (`md5(key) . '.cache'`) is an injective constructor.
  - The clock is a parameter `now`.
  - `get` serves a record up to and including its `expires` second, because the source tests with a strict `<`.
  - `get` deletes a stale record. A record that lacks a field, or fails to decode, is a miss that stays on disk.
  - `set` and `delete` fail only where the file is a sub-directory. Other I/O failures (permissions, a full disk) are not modelled.
  - `clear_cache` unlinks every regular file except the `.htaccess` marker.
- **`Controller`** (`controller.dfy`) models the page controller, `Post_Cache`:
  - Eligibility (`should_cache`) and the key a request is stored under (`get_cache_key`). WordPress's conditional tags can hold together, so a request is a record of flags.
  - Output capture (`start_cache` / `end_cache`) over a small model of PHP's output layer.
  - The invalidation cascade after a post changes (`clear_post_cache`, `clear_related_caches`), proved equal to deleting one set of keys.
  - The options merge (`update_options`).
- **`Settings`** (`settings.dfy`) models the admin actions, `Admin`:
  - Saving the options form. The TTL goes through `absint` and is clamped to [60, 86400]. Each flag is on exactly when its field was submitted.
  - Clearing the cache.
  - Both actions are refused to a user who lacks `manage_options` or whose request fails the referer check.
- **`Bootstrap`** (`bootstrap.dfy`) models the main plugin file: the class autoloader's file mapping, the activation marker and the wipe on deactivation.
- **`Php`** (`php.dfy`) gives exact definitions of the PHP primitives the logic depends on:
  - the decimal form of an integer;
  - `(int)` of a string;
  - ASCII `strtolower`;
  - one-character `str_replace`;
  - `empty()` on a string, which is true for `""` and for `"0"`.

The code never reads the store when serving a page. `start_cache` only opens an output buffer, and `end_cache` stores what was captured and sends it. So a page is re-rendered on every request, and the stored copy is never served by this plugin. The plugin header (`vmc-simple-cache.php:5`) describes it as a caching solution for the front page, blog page and posts, but no code path serves a stored page. This model follows the code: `PostCache.HandleRequest` writes the store and never reads it, and its contract says so.

The cascade deletes date archives under the zero-padded month and day (`date('m')`, `date('d')`). But a month archive is keyed by the query variable, which has no padding. The two texts differ for months and days below 10. So the archive for May 2024 is stored under `vmc_cache_date_2024_5`, while a change to a post dated 2024-05-20 deletes `vmc_cache_date_2024_05`. `Controller.MonthArchiveMissed` proves this for that input. From 10 up the texts agree. `Controller.CascadeCoversPages` covers only year-level date archives.

## Model

| member | source | states |
|---|---|---|
| Php.DecimalString | includes/class-post-cache.php:135 | the text an ID becomes in a key is non-empty, all decimal digits, and starts with `0` only for 0 |
| Php.DecimalRoundTrip | includes/class-post-cache.php:135 | reading an ID's decimal text back gives the ID |
| Php.DecimalInjective | includes/class-post-cache.php:135-138 | distinct IDs give distinct decimal texts |
| Php.IntVal | includes/class-admin.php:83 | `(int)` of a string is negative only after a `-` sign, and is 0 when, after leading whitespace, the text starts with neither a digit nor a sign (PHP reads a leading `.` as well: see "## Left out") |
| Php.IntValOfDecimal | includes/class-admin.php:83 | `(int)` of an unsigned decimal, followed by text that starts with no digit, `.`, `e` or `E`, gives that number |
| Php.IntValOfNegatedDecimal | includes/class-admin.php:83 | `(int)` of `-` and a decimal, followed by such text, gives the negated number |
| Php.Abs | includes/class-admin.php:83 | `absint` gives a non-negative value equal to the input or its negation |
| Store.Served | includes/class-cache-manager.php:68-88 | `get` returns content exactly when the file holds a record with both fields and `now <= expires`; the content is the record's |
| Store.ExpirationOf | includes/class-cache-manager.php:45-60 | `get_expiration_time` returns the stored `expires` exactly when the record has one, even when it has passed |
| Store.EvictTwice | includes/class-cache-manager.php:113-121 | deleting one set of keys and then another is deleting their union |
| Store.SetThenGet | includes/class-cache-manager.php:97-105 | after `set`, `get` at time `t` serves the new content exactly when `t <= now + expiration`, and no other key's record changes |
| Store.SetThenGetNow | includes/class-cache-manager.php:97-105 | with a non-negative expiration, an immediate `get` after `set` returns the content |
| Store.StaleReadRemoves | includes/class-cache-manager.php:82-85 | a `get` that finds an expired record serves nothing and removes that file only |
| Store.UnusableRecordKept | includes/class-cache-manager.php:78-80 | a record lacking `expires` or `content` is a miss and is left in place |
| Store.DeleteThenGet | includes/class-cache-manager.php:113-121 | after `delete`, nothing is served under the key, other keys are untouched, and deleting again changes nothing |
| Store.ClearedServesNothing | includes/class-cache-manager.php:128-138 | after `clear_cache` no key is served, the `.htaccess` marker is kept unchanged, and only the marker and sub-directories remain |
| Store.CacheManager.constructor | includes/class-cache-manager.php:8 | a new manager has a 3600-second expiration |
| Store.CacheManager.SetExpiration | includes/class-cache-manager.php:26-28 | the expiration becomes the given seconds |
| Store.CacheManager.GetExpiration | includes/class-cache-manager.php:35-37 | returns the current expiration |
| Store.CacheManager.GetExpirationTime | includes/class-cache-manager.php:45-60 | returns `ExpirationOf` of the directory and changes nothing |
| Store.CacheManager.Get | includes/class-cache-manager.php:68-88 | returns `Served` and leaves the directory as `AfterGet`: only a stale record is deleted |
| Store.CacheManager.Set | includes/class-cache-manager.php:97-105 | writes the record `{now + expiration, content}` under the key; reports failure exactly when the file is a directory |
| Store.CacheManager.Delete | includes/class-cache-manager.php:113-121 | removes the key's file if present; reports success unless the file is a directory |
| Store.CacheManager.ClearCache | includes/class-cache-manager.php:128-138 | loops over the listing and leaves exactly `Cleared` of the old directory; always reports success |
| Controller.ShouldCache | includes/class-post-cache.php:84-121 | a request is eligible exactly when one of the five rules holds: front page with `cache_home`, blog index with `cache_blog`, a single post that is neither front page nor blog index, any archive with `cache_archive`, or a static non-front page with `cache_page` |
| Controller.CacheKey | includes/class-post-cache.php:123-169 | every key starts with `vmc_cache_` |
| Controller.PaginationSuffix | includes/class-post-cache.php:163-166 | the key has no page suffix exactly when `paged <= 1`; page 0 and page 1 share a key |
| Controller.UnmatchedRequestKey | includes/class-post-cache.php:129-161 | a request that matches no page type is keyed by the bare prefix |
| Controller.EligibleRequestIsTagged | includes/class-post-cache.php:84-161 | every eligible request has a non-empty page-type tag in its key |
| Controller.FrontPageEligibleViaBlog | includes/class-post-cache.php:86-92 | a front page that is also the blog index is cached through `cache_blog` even with `cache_home` off, under the `home` key |
| Controller.ShouldCacheMonotone | includes/class-post-cache.php:84-109 | turning more page types on never makes an eligible request ineligible |
| Controller.SinglePostKey | includes/class-post-cache.php:134-135 | a single post's first page is keyed `vmc_cache_post_<id>` |
| Controller.SinglePostKeysDistinct | includes/class-post-cache.php:134-135 | two single posts with different IDs never share a key, on any page numbers |
| Controller.PostKeyInjective | includes/class-post-cache.php:177 | different post IDs give different post keys |
| Controller.TaxonomyKeysTagLetter | includes/class-post-cache.php:229-236 | every taxonomy key's tag starts with `t` |
| Controller.ArchiveKeysTagLetter | includes/class-post-cache.php:201-240 | no archive key's tag starts with `p` |
| Controller.RelatedKeysTagLetter | includes/class-post-cache.php:187-241 | no key of the related cascade has a tag starting with `p` |
| Controller.OtherPostPagesSurvive | includes/class-post-cache.php:171-185 | the cascade for one post never deletes another post's page; in particular, when `comment_post` passes a comment ID, the commented post's page survives |
| Controller.CascadeCoversPages | includes/class-post-cache.php:123-241 | the first page of the post itself, of an enabled front page or blog index (for a `post`), and of every enabled category, tag, author, year, taxonomy-term or post-type archive that lists the post through a term directly assigned to it, is in `InvalidatedKeys`, the set the intended cascade deletes; for a tagged post with archives on, the source deletes none of these archive keys (see "## Left out") |
| Controller.ArchiveRequestKey | includes/class-post-cache.php:136-158 | an archive request that is not front page, blog index or single post is keyed by its archive tag |
| Controller.ArchiveKeyCovered | includes/class-post-cache.php:201-240 | an archive request listing the post is keyed by one of the post's archive keys |
| Controller.ArchiveTagCovered | includes/class-post-cache.php:137-158 | the archive tag of an archive listing the post is in `ArchiveKeys`, the set the intended cascade deletes for archives |
| Controller.TaxonomyKeysContain | includes/class-post-cache.php:229-236 | every term of every taxonomy of the post has its archive key in `TaxonomyKeys`, the set the intended cascade deletes |
| Controller.MonthArchiveMissed | includes/class-post-cache.php:143-150 | the May 2024 archive is keyed `..._2024_5`, and the cascade for a post dated 2024-05-20 does not delete it |
| Controller.StaticPageKeyKept | includes/class-post-cache.php:159-160 | a static page, keyed `page_<id>`, is never deleted by the cascade for its own ID, on any page number |
| Controller.StaticFrontPageKept | includes/class-post-cache.php:130-131 | the front page is keyed `home`, and the cascade for an item whose type is not `post` never deletes that key |
| Controller.BlogFrontPageKept | includes/class-post-cache.php:90-92 | a front page that is also the blog index, with `cache_home` off and `cache_blog` on, is eligible and keyed `home`, and the cascade never deletes that key |
| Controller.DateArchiveKeysCollide | includes/class-post-cache.php:143-150 | a date archive with a day but no month and the month archive of the same number and year share one key |
| Controller.MergeFullOrEmpty | includes/class-post-cache.php:243-244 | merging a patch that gives every key yields that record; merging an empty patch changes nothing |
| Controller.MergeIdempotent | includes/class-post-cache.php:243-244 | merging the same patch twice is merging it once; the TTL is the patch's if given, else the current one |
| Controller.Output.Write | includes/class-post-cache.php:52-62 | text goes into the open buffer, otherwise straight to the client |
| Controller.Output.Open | includes/class-post-cache.php:52 | opens an empty buffer; nothing is sent |
| Controller.Output.TakeClean | includes/class-post-cache.php:62 | returns the captured text and closes the buffer |
| Controller.Output.Emit | includes/class-post-cache.php:76 | appends a chunk to what the client receives |
| Controller.PostCache.constructor | includes/class-post-cache.php:8-21 | options are the stored record or the defaults (all off, TTL 3600), and the manager's expiration is the options' TTL |
| Controller.PostCache.StartCache | includes/class-post-cache.php:34-53 | capture opens exactly for an anonymous visitor on an eligible page; otherwise only the debug notice is sent |
| Controller.PostCache.EndCache | includes/class-post-cache.php:55-82 | without a buffer nothing happens; empty or `"0"` content is dropped; other content is stored under the request's key, then sent, then followed by the debug notice, which is never stored |
| Controller.PostCache.HandleRequest | includes/class-post-cache.php:34-82 | an ineligible request is passed through; an eligible one stores the whole page and sends it once; the store is never read |
| Controller.PostCache.ClearPostCache | includes/class-post-cache.php:171-181 | with `update` false nothing changes; otherwise exactly the post key and the related keys are deleted |
| Controller.PostCache.ClearPostCacheById | includes/class-post-cache.php:183-185 | the same as `ClearPostCache` with `update` true |
| Controller.PostCache.ClearRelatedCaches | includes/class-post-cache.php:187-241 | deletes exactly `RelatedKeys`: home and blog for a `post` when enabled, then the archive keys when archives are on |
| Controller.PostCache.ClearArchives | includes/class-post-cache.php:202-240 | deletes exactly the post's archive keys, in the source's order |
| Controller.PostCache.ClearCategoryArchives | includes/class-post-cache.php:204-207 | deletes exactly the category keys of the given IDs |
| Controller.PostCache.ClearTagArchives | includes/class-post-cache.php:210-213 | deletes exactly the tag keys of the given IDs |
| Controller.PostCache.ClearTaxonomyArchives | includes/class-post-cache.php:230-236 | deletes exactly the term keys of every taxonomy |
| Controller.PostCache.ClearTermArchives | includes/class-post-cache.php:232-235 | deletes exactly the term keys of one taxonomy |
| Controller.PostCache.UpdateOptions | includes/class-post-cache.php:243-249 | the options become the merge of the patch over the old ones, and the manager's expiration becomes the merged TTL |
| Settings.Clamp | includes/class-admin.php:84 | the result lies in [60, 86400], equals the input inside that range, and is the nearest bound outside it |
| Settings.SanitizedTtl | includes/class-admin.php:83-84 | the saved TTL lies in [60, 86400] and is 3600 when the field is missing |
| Settings.SanitizedOptions | includes/class-admin.php:86-93 | each flag is on exactly when its field was submitted; the TTL is in range |
| Settings.AbsIntOfDecimal | includes/class-admin.php:83 | `absint` of a decimal, signed or not and followed by text that starts with no digit, `.`, `e` or `E`, is the number |
| Settings.SubmittedTtl | includes/class-admin.php:83-84 | submitting `n` in decimal saves `n` clamped |
| Settings.TtlClampExamples | includes/class-admin.php:84 | `5` is saved as 60 and `999999` as 86400 |
| Settings.FlagValuesIgnored | includes/class-admin.php:87-91 | forms with the same fields and the same TTL text save the same options, whatever the flag values |
| Settings.Admin.constructor | includes/class-admin.php:9-20 | a fresh manager with expiration 3600 and a fresh controller, both over the shared directory; options are the stored record or the defaults |
| Settings.Admin.HandleClearCache | includes/class-admin.php:62-73 | refused without `manage_options` or a valid referer, and then nothing changes; otherwise the directory is `Cleared` |
| Settings.Admin.HandleSaveSettings | includes/class-admin.php:75-101 | refused as above with nothing changed; otherwise the controller's options, the admin's options and both managers' expirations hold the sanitised values |
| Bootstrap.FoldedName | vmc-simple-cache.php:47 | same length, no `_` and no ASCII capital left, backslashes and other characters kept |
| Bootstrap.ClassFile | vmc-simple-cache.php:32-47 | a file is named exactly for classes in the `VMC_Simple_Cache\` namespace: `includes/class-<folded name>.php` |
| Bootstrap.Autoload | vmc-simple-cache.php:32-53 | requires that file exactly when the class is in the namespace and the file exists |
| Bootstrap.KnownClassFiles | vmc-simple-cache.php:32-53 | `Cache_Manager`, `Post_Cache` and `Admin` resolve to `class-cache-manager.php`, `class-post-cache.php` and `class-admin.php` |
| Bootstrap.MarkerLifecycle | vmc-simple-cache.php:72-91 | activation leaves a marker and never overwrites one; deactivation keeps it; activating again changes nothing |
| Bootstrap.Activate | vmc-simple-cache.php:72-84 | writes the deny-all marker only when it is absent |
| Bootstrap.Deactivate | vmc-simple-cache.php:86-91 | a fresh manager clears the directory |

## Left out

- Hook registration (`init` of each class, `Cache_Manager::init`, `vmc_simple_cache_init`) is not modelled. WordPress's dispatch of actions is not modelled either. The model calls the handlers directly.
- Creating the cache directory (`wp_mkdir_p`) is not modelled. The directory is always taken to exist.
- `md5` is an injective constructor on keys.
- The file layout is flattened into one directory. In the source, the directory constant has no trailing slash. The marker is written inside that directory (`vmc-simple-cache.php:79`). The cache files are named by appending the hash to the constant, so they sit beside the directory, not in it (`includes/class-cache-manager.php:147`). So the marker never guards the cache files. `clear_cache`'s `glob` lists the cache files and any other sibling whose name starts with the same prefix, never the marker, and `glob` skips dotfiles anyway. The model keeps all of these in one map, and `Cleared` keeps the marker by name. That gives the same resulting files, but the model does not capture that the marker protects nothing.
- JSON is not modelled. A file is a decoded record with optional fields, or text that does not decode. A `json_encode` failure in `set` is not modelled.
- Values stored under `expires` and `content` are taken as an integer and a string. PHP's loose comparison of other JSON types is not modelled.
- The text of the debug comment is not modelled. That covers the page description, the date formatting and `get_current_page_info`. A notice is the pair (status, key).
- The admin page markup (`render_admin_page`), the menu entries and the redirect URLs are not modelled. `uninstall.php` is not part of this model.
- Persisting options (`get_option`, `update_option`) is not modelled. A stored record is handed to the constructors. A stored record missing some keys is not modelled.
- Nonce verification is a boolean: the referer check passed or it did not.
- WordPress lookups are inputs:
  - the post's type, categories, tags, author, date parts and taxonomies. The author is the text of the `post_author` field: the author's ID in decimal, or empty when the ID names no item. The `comment_post` path passes a comment's ID. That ID may name no item, and the cascade then deletes `vmc_cache_author_`. It may also name an unrelated item (a post, revision, attachment or menu item), and the cascade then runs with that item's type, terms, author and date;
  - the queried object;
  - query variables, which are non-negative integers.
- Controller.PostCache.ClearTagArchives: takes tag IDs. The source concatenates the `WP_Term` objects `wp_get_post_tags` returns (`includes/class-post-cache.php:210-212`), and PHP cannot turn those into strings. So for a post with at least one tag, while `cache_archive` is on, the source stops with a fatal error at line 212, before the first tag delete. No tag key is deleted, the author, date, taxonomy and post-type deletes (lines 216-239) never run, and the `save_post` or `comment_post` request dies. The model deletes the tag keys and carries on.
- Controller.PostCache.ClearArchives: for a tagged post, models the intended cascade, not the code as written, which stops at the first tag, after the category deletes (see `ClearTagArchives`).
- Controller.PostCache.ClearRelatedCaches: likewise, for a tagged post with `cache_archive` on.
- Controller.PostCache.ClearPostCache: likewise; the request that saves a tagged post ends in an error in the source.
- Php.IntVal: reads only the sign and the digit run. Since PHP 7.1, `(int)` also reads a fraction and an exponent, so `(int)"6e2"` is 600 and `(int)"-1e3"` is -1000, where `IntVal` gives 6 and -1. Text that starts with `.` is read too, so `(int)".5e3"` is 500, where `IntVal` gives 0. PHP's integer width and the saturation of very long digit strings are not modelled either. `IntValOfDecimal`, `IntValOfNegatedDecimal`, `Settings.AbsIntOfDecimal` and `Settings.SubmittedTtl` therefore require that the text after the digits starts with no digit, `.`, `e` or `E`.
- Settings.SanitizedTtl: inherits the `IntVal` gap. A TTL field submitted as `6e2` or `.5e3` is saved as 60 in the model and as 600 or 500 by PHP.
- Controller.PostCache.StartCache: requires that no buffer is open yet. The hook runs once per request, and buffers opened by other plugins are not modelled.
- Controller.CascadeCoversPages: covers only single posts, year-level date archives and first pages, and states the intended cascade. The cascade misses several cached pages:
  - for a post with at least one tag, while `cache_archive` is on: every tag, author, date, taxonomy and post-type archive, because the source stops with a fatal error before its first tag delete (see `ClearTagArchives`);
  - month and day archives for months and days below 10 (see `MonthArchiveMissed`);
  - later pages, whose keys carry `_page_<n>`;
  - a static page's own entry, which is keyed `page_<id>` while only `post_<id>` is deleted (see `StaticPageKeyKept`);
  - the `home` entry when the saved item is not of type `post`, such as the static page shown as the front page (see `StaticFrontPageKept`);
  - the `home` entry of a front page that is also the blog index, cached through `cache_blog` while `cache_home` is off, since `home` is deleted only when `cache_home` is on (see `BlogFrontPageKept`);
  - the archives of parent categories and ancestor terms of hierarchical taxonomies. These also list the post, but `wp_get_post_categories` and `wp_get_post_terms` return only the directly assigned terms.
- Concurrency between requests is not modelled. Each operation runs to completion.
