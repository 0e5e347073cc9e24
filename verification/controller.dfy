/** The page cache controller (`Post_Cache`): which requests are eligible, the key a
    request is stored under, the capture of rendered output into the store, the
    cascade of deletions that follows a content change, and the options merge.
    WordPress's conditional tags overlap (a page can be both the front page and the
    blog index), so a request is a record of flags rather than one variant. */
module Controller {
  import opened Php
  import opened Store

  datatype Options = Options(
    cacheHome: bool,
    cacheBlog: bool,
    cacheArchive: bool,
    cachePage: bool,
    debugMode: bool,
    cacheTtl: int)

  /** The record used when no options have been saved. */
  const Defaults: Options := Options(false, false, false, false, false, 3600)

  /** What WordPress reports about the current request. Numeric query variables are
      non-negative integers, as WordPress's query parser leaves them; a post type of
      `false` is the empty string, which is what it concatenates as. */
  datatype Request = Request(
    loggedIn: bool,
    frontPage: bool,
    home: bool,
    single: bool,
    page: bool,
    archive: bool,
    category: bool,
    tag: bool,
    author: bool,
    date: bool,
    tax: bool,
    postTypeArchive: bool,
    postId: nat,
    queriedId: nat,
    year: nat,
    monthnum: nat,
    day: nat,
    taxonomy: string,
    termId: nat,
    postType: string,
    paged: nat)

  predicate IsArchivePage(r: Request) {
    r.archive || r.category || r.tag || r.author || r.date || r.tax || r.postTypeArchive
  }

  /** Eligibility, tested in the order the controller tests it. */
  predicate ShouldCache(r: Request, o: Options)
    ensures ShouldCache(r, o) <==>
      || (r.frontPage && o.cacheHome)
      || (r.home && o.cacheBlog)
      || (r.single && !r.frontPage && !r.home)
      || (o.cacheArchive && IsArchivePage(r))
      || (o.cachePage && r.page && !r.frontPage)
  {
    if r.frontPage && o.cacheHome then true
    else if r.home && o.cacheBlog then true
    else if r.single && !r.frontPage && !r.home then true
    else if o.cacheArchive && IsArchivePage(r) then true
    else if o.cachePage && r.page && !r.frontPage then true
    else false
  }

  const KeyPrefix: string := "vmc_cache_"

  function ArchiveTag(r: Request): string {
    if r.category then "category_" + DecimalString(r.queriedId)
    else if r.tag then "tag_" + DecimalString(r.queriedId)
    else if r.author then "author_" + DecimalString(r.queriedId)
    else if r.date then
      "date_" + DecimalString(r.year)
      + (if r.monthnum != 0 then "_" + DecimalString(r.monthnum) else "")
      + (if r.day != 0 then "_" + DecimalString(r.day) else "")
    else if r.tax then "tax_" + r.taxonomy + "_" + DecimalString(r.termId)
    else if r.postTypeArchive then "archive_" + r.postType
    else "archive"
  }

  /** The page-type part of the key: front page, then blog index, then single post,
      then archives, then static page; nothing when no tag matches. */
  function PageTag(r: Request): string {
    if r.frontPage then "home"
    else if r.home then "blog"
    else if r.single then "post_" + DecimalString(r.postId)
    else if IsArchivePage(r) then ArchiveTag(r)
    else if r.page then "page_" + DecimalString(r.postId)
    else ""
  }

  function PageSuffix(paged: nat): string {
    if paged > 1 then "_page_" + DecimalString(paged) else ""
  }

  function CacheKey(r: Request): (k: string)
    ensures |KeyPrefix| <= |k| && k[..|KeyPrefix|] == KeyPrefix
  {
    KeyPrefix + PageTag(r) + PageSuffix(r.paged)
  }

  /** A page number of 0 or 1 leaves the key bare; a larger one is always visible. */
  lemma PaginationSuffix(r: Request)
    ensures CacheKey(r) == KeyPrefix + PageTag(r) <==> r.paged <= 1
    ensures CacheKey(r.(paged := 0)) == CacheKey(r.(paged := 1))
  {
    if r.paged > 1 {
      assert |CacheKey(r)| > |KeyPrefix + PageTag(r)|;
    }
  }

  /** A request that matches no page type is keyed by the prefix alone. */
  lemma UnmatchedRequestKey(r: Request)
    requires !r.frontPage && !r.home && !r.single && !IsArchivePage(r) && !r.page
    requires r.paged <= 1
    ensures CacheKey(r) == KeyPrefix
  {
  }

  /** Every eligible request gets a page-type tag, so its key is never the bare prefix. */
  lemma EligibleRequestIsTagged(r: Request, o: Options)
    requires ShouldCache(r, o)
    ensures PageTag(r) != ""
  {
  }

  /** The front page is eligible through `cache_blog` when it is also the blog index,
      even with `cache_home` off; it is then stored under the `home` key. */
  lemma FrontPageEligibleViaBlog(r: Request, o: Options)
    requires r.frontPage && r.home && !o.cacheHome && o.cacheBlog
    ensures ShouldCache(r, o)
    ensures PageTag(r) == "home"
  {
  }

  /** Turning more page types on never makes an eligible request ineligible. */
  lemma ShouldCacheMonotone(r: Request, o: Options, o': Options)
    requires o.cacheHome ==> o'.cacheHome
    requires o.cacheBlog ==> o'.cacheBlog
    requires o.cacheArchive ==> o'.cacheArchive
    requires o.cachePage ==> o'.cachePage
    requires ShouldCache(r, o)
    ensures ShouldCache(r, o')
  {
  }

  /** A single post, not shown as the front page or blog index, on its first page is
      keyed by its ID alone. */
  lemma SinglePostKey(r: Request)
    requires r.single && !r.frontPage && !r.home && r.paged <= 1
    ensures CacheKey(r) == PostKey(r.postId)
  {
  }

  /** Two single posts with different IDs never share a key, on any pages: the digits
      after `post_` end where the key ends or at the `_` of the page suffix. */
  lemma SinglePostKeysDistinct(r: Request, r': Request)
    requires r.single && !r.frontPage && !r.home
    requires r'.single && !r'.frontPage && !r'.home
    requires r.postId != r'.postId
    ensures CacheKey(r) != CacheKey(r')
  {
    var head := KeyPrefix + "post_";
    var t, t' := PostTail(r.postId, r.paged), PostTail(r'.postId, r'.paged);
    SinglePostKeyTail(r);
    SinglePostKeyTail(r');
    if head + t == head + t' {
      assert t == (head + t)[|head|..];
      assert t' == (head + t')[|head|..];
      PostTailInjective(r.postId, r.paged, r'.postId, r'.paged);
    }
  }

  /** A single post's key is the prefix, `post_`, then the ID and the page suffix. */
  lemma SinglePostKeyTail(r: Request)
    requires r.single && !r.frontPage && !r.home
    ensures CacheKey(r) == KeyPrefix + "post_" + PostTail(r.postId, r.paged)
  {
  }

  /** What follows `post_` in a single post's key. */
  function PostTail(id: nat, paged: nat): string {
    DecimalString(id) + PageSuffix(paged)
  }

  /** The ID is read back from the text after `post_`: its digits stop at the end or
      at the `_` of a page suffix. */
  lemma PostTailInjective(m: nat, p: nat, n: nat, q: nat)
    requires PostTail(m, p) == PostTail(n, q)
    ensures m == n
  {
    DigitPrefixAppend(DecimalString(m), PageSuffix(p));
    DigitPrefixAppend(DecimalString(n), PageSuffix(q));
    DecimalInjective(m, n);
  }

  // ---------------------------------------------------------------------------
  // Invalidation

  /** A taxonomy attached to the post's type, with the IDs of the post's terms in it. */
  datatype TaxonomyTerms = TaxonomyTerms(name: string, termIds: seq<nat>)

  /** What WordPress reports about the item whose ID is handed to the cascade.
      The author and the date parts are text as WordPress returns them: the
      `post_author` field (the author's ID in decimal, or empty when the ID names no
      item) and the formatted `Y`, zero-padded `m` and `d`. When a comment's ID is
      passed, it may name no item or an unrelated one, whose data is used. */
  datatype PostInfo = PostInfo(
    postType: string,
    categories: seq<nat>,
    tags: seq<nat>,
    author: string,
    year: string,
    month: string,
    day: string,
    taxonomies: seq<TaxonomyTerms>)

  const HomeKey: string := KeyPrefix + "home"
  const BlogKey: string := KeyPrefix + "blog"

  function PostKey(id: nat): string {
    KeyPrefix + "post_" + DecimalString(id)
  }

  lemma PostKeyInjective(m: nat, n: nat)
    ensures PostKey(m) == PostKey(n) ==> m == n
  {
    if PostKey(m) == PostKey(n) {
      var p := KeyPrefix + "post_";
      assert PostKey(m)[|p|..] == DecimalString(m);
      assert PostKey(n)[|p|..] == DecimalString(n);
      DecimalInjective(m, n);
    }
  }

  function CategoryKey(id: nat): string {
    KeyPrefix + "category_" + DecimalString(id)
  }

  function TagKey(id: nat): string {
    KeyPrefix + "tag_" + DecimalString(id)
  }

  function AuthorKey(author: string): string {
    KeyPrefix + "author_" + author
  }

  function TaxKey(taxonomy: string, termId: nat): string {
    KeyPrefix + "tax_" + taxonomy + "_" + DecimalString(termId)
  }

  function PostTypeArchiveKey(postType: string): string {
    KeyPrefix + "archive_" + postType
  }

  function DateKeys(year: string, month: string, day: string): set<string> {
    { KeyPrefix + "date_" + year,
      KeyPrefix + "date_" + year + "_" + month,
      KeyPrefix + "date_" + year + "_" + month + "_" + day }
  }

  function CategoryKeys(ids: seq<nat>): set<string> {
    set id | id in ids :: CategoryKey(id)
  }

  function TagKeys(ids: seq<nat>): set<string> {
    set id | id in ids :: TagKey(id)
  }

  function TermKeys(taxonomy: string, ids: seq<nat>): set<string> {
    set id | id in ids :: TaxKey(taxonomy, id)
  }

  function TaxonomyKeys(taxes: seq<TaxonomyTerms>): set<string> {
    if taxes == [] then {}
    else (TaxonomyKeys(taxes[..|taxes| - 1])
          + TermKeys(taxes[|taxes| - 1].name, taxes[|taxes| - 1].termIds))
  }

  /** The archive keys the cascade is meant to delete when archive caching is on. For
      a post with tags the source stops before its first tag delete, so of these it
      deletes only the category keys. */
  function ArchiveKeys(info: PostInfo): set<string> {
    CategoryKeys(info.categories)
    + TagKeys(info.tags)
    + {AuthorKey(info.author)}
    + DateKeys(info.year, info.month, info.day)
    + TaxonomyKeys(info.taxonomies)
    + {PostTypeArchiveKey(info.postType)}
  }

  /** The front page and blog index keys the cascade deletes for a `post`. */
  function ListingKeys(o: Options, info: PostInfo): set<string> {
    (if info.postType == "post" && o.cacheHome then {HomeKey} else {})
    + (if info.postType == "post" && o.cacheBlog then {BlogKey} else {})
  }

  /** Every key `clear_related_caches` deletes. */
  function RelatedKeys(o: Options, info: PostInfo): set<string> {
    ListingKeys(o, info) + (if o.cacheArchive then ArchiveKeys(info) else {})
  }

  /** Every key an updated save of post `postId` deletes. */
  function InvalidatedKeys(o: Options, postId: nat, info: PostInfo): set<string> {
    {PostKey(postId)} + RelatedKeys(o, info)
  }

  /** The character right after the prefix tells the key kinds apart: no related key
      starts its tag with `p`. */
  lemma {:induction false} TaxonomyKeysTagLetter(taxes: seq<TaxonomyTerms>, k: string)
    requires k in TaxonomyKeys(taxes)
    ensures |k| > |KeyPrefix| && k[|KeyPrefix|] == 't'
  {
    if k !in TermKeys(taxes[|taxes| - 1].name, taxes[|taxes| - 1].termIds) {
      TaxonomyKeysTagLetter(taxes[..|taxes| - 1], k);
    }
  }

  lemma RelatedKeysTagLetter(o: Options, info: PostInfo, k: string)
    requires k in RelatedKeys(o, info)
    ensures |k| > |KeyPrefix| && k[|KeyPrefix|] != 'p'
  {
    if k in ArchiveKeys(info) {
      ArchiveKeysTagLetter(info, k);
    }
  }

  /** Archive tags start with `c`ategory, `t`ag or `t`ax, `a`uthor or `a`rchive, or `d`ate. */
  predicate ArchiveLetter(c: char) {
    c == 'c' || c == 't' || c == 'a' || c == 'd'
  }

  lemma ArchiveKeysTagLetter(info: PostInfo, k: string)
    requires k in ArchiveKeys(info)
    ensures |k| > |KeyPrefix| && ArchiveLetter(k[|KeyPrefix|])
  {
    if k in TaxonomyKeys(info.taxonomies) {
      TaxonomyKeysTagLetter(info.taxonomies, k);
    } else if k in CategoryKeys(info.categories) {
      var id :| id in info.categories && k == CategoryKey(id);
    } else if k in TagKeys(info.tags) {
      var id :| id in info.tags && k == TagKey(id);
    }
  }

  /** The cascade for post `postId` deletes no other post's page: in particular, when
      a comment's ID is passed in place of the commented post's ID, that post's page
      survives. */
  lemma OtherPostPagesSurvive(o: Options, postId: nat, info: PostInfo, other: nat)
    requires other != postId
    ensures PostKey(other) !in InvalidatedKeys(o, postId, info)
  {
    var k := PostKey(other);
    assert k[|KeyPrefix|] == 'p';
    if k in RelatedKeys(o, info) {
      RelatedKeysTagLetter(o, info, k);
    }
    PostKeyInjective(other, postId);
  }

  /** The pages the cascade is meant to refresh: the post's own page, and, with the
      matching option on, the front page and blog index for a `post`, and the
      category, tag, author, year, taxonomy-term and post-type archives it appears in
      through its directly assigned terms. */
  lemma CascadeCoversPages(r: Request, o: Options, postId: nat, info: PostInfo)
    requires r.paged <= 1
    requires
      || (r.single && !r.frontPage && !r.home && r.postId == postId)
      || (r.frontPage && info.postType == "post" && o.cacheHome)
      || (!r.frontPage && r.home && info.postType == "post" && o.cacheBlog)
      || (!r.frontPage && !r.home && !r.single && o.cacheArchive && ListsPost(r, info))
    ensures CacheKey(r) in InvalidatedKeys(o, postId, info)
  {
    if r.single && !r.frontPage && !r.home && r.postId == postId {
      SinglePostKey(r);
    } else if r.frontPage {
      assert CacheKey(r) == HomeKey;
    } else if r.home {
      assert CacheKey(r) == BlogKey;
    } else {
      ArchiveKeyCovered(r, info);
      assert ArchiveKeys(info) <= RelatedKeys(o, info);
    }
  }

  lemma ArchiveRequestKey(r: Request)
    requires r.paged <= 1 && !r.frontPage && !r.home && !r.single && IsArchivePage(r)
    ensures CacheKey(r) == KeyPrefix + ArchiveTag(r)
  {
  }

  /** An archive that lists the post is keyed by one of the post's archive keys. */
  lemma ArchiveKeyCovered(r: Request, info: PostInfo)
    requires r.paged <= 1 && !r.frontPage && !r.home && !r.single && ListsPost(r, info)
    ensures CacheKey(r) in ArchiveKeys(info)
  {
    ArchiveRequestKey(r);
    ArchiveTagCovered(r, info);
  }

  lemma ArchiveTagCovered(r: Request, info: PostInfo)
    requires ListsPost(r, info)
    ensures KeyPrefix + ArchiveTag(r) in ArchiveKeys(info)
  {
    var k := KeyPrefix + ArchiveTag(r);
    if r.category {
      assert k in CategoryKeys(info.categories) by {
        assert k == CategoryKey(r.queriedId);
      }
    } else if r.tag {
      assert k in TagKeys(info.tags) by {
        assert k == TagKey(r.queriedId);
      }
    } else if r.author {
      assert k == KeyPrefix + "author_" + DecimalString(r.queriedId);
    } else if r.date {
      assert k in DateKeys(info.year, info.month, info.day) by {
        assert k == KeyPrefix + "date_" + info.year;
      }
    } else if r.tax {
      assert k in TaxonomyKeys(info.taxonomies) by {
        assert k == TaxKey(r.taxonomy, r.termId);
        TaxonomyKeysContain(info.taxonomies, r.taxonomy, r.termId);
      }
    } else {
      assert k == PostTypeArchiveKey(info.postType);
    }
  }

  /** The archive request `r` lists the post described by `info` through a term
      assigned to it directly; a parent category or ancestor term, whose archive
      also lists the post, is not included. Only the year-level date archive is
      included: see `MonthArchiveMissed`. */
  predicate ListsPost(r: Request, info: PostInfo) {
    || (r.category && r.queriedId in info.categories)
    || (!r.category && r.tag && r.queriedId in info.tags)
    || (!r.category && !r.tag && r.author && DecimalString(r.queriedId) == info.author)
    || (!r.category && !r.tag && !r.author && r.date && r.monthnum == 0 && r.day == 0
        && DecimalString(r.year) == info.year)
    || (!r.category && !r.tag && !r.author && !r.date && r.tax
        && exists t :: t in info.taxonomies && t.name == r.taxonomy && r.termId in t.termIds)
    || (!r.category && !r.tag && !r.author && !r.date && !r.tax && r.postTypeArchive
        && r.postType == info.postType)
  }

  lemma {:induction false} TaxonomyKeysContain(taxes: seq<TaxonomyTerms>, name: string, id: nat)
    requires exists t :: t in taxes && t.name == name && id in t.termIds
    ensures TaxKey(name, id) in TaxonomyKeys(taxes)
  {
    var last := taxes[|taxes| - 1];
    if !(last.name == name && id in last.termIds) {
      var t :| t in taxes && t.name == name && id in t.termIds;
      assert t in taxes[..|taxes| - 1] by {
        var i :| 0 <= i < |taxes| && taxes[i] == t;
        assert i != |taxes| - 1;
      }
      TaxonomyKeysContain(taxes[..|taxes| - 1], name, id);
    }
  }

  /** The month archive is keyed by the unpadded month number, while the cascade
      deletes the zero-padded one: the archive for May 2024 is not refreshed when a
      post dated 2024-05-20 changes. */
  lemma MonthArchiveMissed(r: Request, o: Options, postId: nat)
    requires !r.frontPage && !r.home && !r.single
    requires !r.category && !r.tag && !r.author && r.date
    requires r.year == 2024 && r.monthnum == 5 && r.day == 0 && r.paged <= 1
    requires o.cacheArchive
    ensures var info := PostInfo("post", [], [], "1", "2024", "05", "20", []);
      CacheKey(r) == KeyPrefix + "date_2024_5"
      && CacheKey(r) !in InvalidatedKeys(o, postId, info)
  {
    MayArchiveKey(r);
    MayArchiveKeyKept(o, postId);
  }

  lemma MayArchiveKey(r: Request)
    requires !r.frontPage && !r.home && !r.single
    requires !r.category && !r.tag && !r.author && r.date
    requires r.year == 2024 && r.monthnum == 5 && r.day == 0 && r.paged <= 1
    ensures CacheKey(r) == KeyPrefix + "date_2024_5"
  {
  }

  lemma MayArchiveKeyKept(o: Options, postId: nat)
    ensures KeyPrefix + "date_2024_5"
      !in InvalidatedKeys(o, postId, PostInfo("post", [], [], "1", "2024", "05", "20", []))
  {
    var k := KeyPrefix + "date_2024_5";
    assert k[|KeyPrefix|] == 'd';
    assert k != PostKey(postId);
    assert k != HomeKey && k != BlogKey;
    assert k != AuthorKey("1") && k != PostTypeArchiveKey("post");
    assert k !in DateKeys("2024", "05", "20") by {
      assert |k| == 21;
      assert |KeyPrefix + "date_2024"| == 19;
      assert |KeyPrefix + "date_2024_05"| == 22;
      assert |KeyPrefix + "date_2024_05_20"| == 25;
    }
  }

  /** A static page is keyed `page_<id>`, but the cascade deletes only `post_<id>`:
      saving a page never clears its own cached copy, on any page number. */
  lemma StaticPageKeyKept(r: Request, o: Options, info: PostInfo)
    requires r.page && !r.frontPage && !r.home && !r.single && !IsArchivePage(r)
    ensures CacheKey(r) !in InvalidatedKeys(o, r.postId, info)
  {
    var k := CacheKey(r);
    assert k == KeyPrefix + "page_" + DecimalString(r.postId) + PageSuffix(r.paged);
    assert k[|KeyPrefix|] == 'p' && k[|KeyPrefix| + 1] == 'a';
    assert PostKey(r.postId)[|KeyPrefix| + 1] == 'o';
    if k in RelatedKeys(o, info) {
      RelatedKeysTagLetter(o, info, k);
    }
  }

  /** The front page key is deleted only for an item of type `post`: saving any other
      item, such as the static page shown as the front page, leaves it cached. */
  lemma StaticFrontPageKept(r: Request, o: Options, postId: nat, info: PostInfo)
    requires r.frontPage && r.paged <= 1 && info.postType != "post"
    ensures CacheKey(r) == HomeKey
    ensures HomeKey !in InvalidatedKeys(o, postId, info)
  {
    assert HomeKey[|KeyPrefix|] == 'h';
    assert PostKey(postId)[|KeyPrefix|] == 'p';
    if HomeKey in ArchiveKeys(info) {
      ArchiveKeysTagLetter(info, HomeKey);
    }
  }

  /** A front page that is also the blog index, cached through `cache_blog` with
      `cache_home` off, is stored under `home`, which the cascade deletes only when
      `cache_home` is on: that entry is never refreshed. */
  lemma BlogFrontPageKept(r: Request, o: Options, postId: nat, info: PostInfo)
    requires r.frontPage && r.home && r.paged <= 1 && !o.cacheHome && o.cacheBlog
    ensures ShouldCache(r, o)
    ensures CacheKey(r) == HomeKey
    ensures HomeKey !in InvalidatedKeys(o, postId, info)
  {
    assert HomeKey[|KeyPrefix|] == 'h';
    assert PostKey(postId)[|KeyPrefix|] == 'p';
    assert BlogKey[|KeyPrefix|] == 'b';
    if HomeKey in ArchiveKeys(info) {
      ArchiveKeysTagLetter(info, HomeKey);
    }
  }

  /** A day archive with no month and the month archive of the same number in the same
      year share a key: `?year=2024&day=11` and November 2024 are one cache entry. */
  lemma DateArchiveKeysCollide(r: Request, r': Request)
    requires !r.frontPage && !r.home && !r.single && !r.category && !r.tag && !r.author && r.date
    requires !r'.frontPage && !r'.home && !r'.single && !r'.category && !r'.tag && !r'.author && r'.date
    requires r.year == r'.year && r.paged == r'.paged
    requires r.monthnum == 0 && r.day != 0 && r'.monthnum == r.day && r'.day == 0
    ensures CacheKey(r) == CacheKey(r')
  {
    assert ArchiveTag(r) == "date_" + DecimalString(r.year) + "_" + DecimalString(r.day);
    assert ArchiveTag(r') == "date_" + DecimalString(r.year) + "_" + DecimalString(r.day);
  }

  // ---------------------------------------------------------------------------
  // Options

  /** The keys handed to `update_options`, each possibly absent. */
  datatype OptionsPatch = OptionsPatch(
    cacheHome: Option<bool>,
    cacheBlog: Option<bool>,
    cacheArchive: Option<bool>,
    cachePage: Option<bool>,
    debugMode: Option<bool>,
    cacheTtl: Option<int>)

  function Pick<T>(given: Option<T>, kept: T): T {
    if given.Some? then given.value else kept
  }

  /** `wp_parse_args(patch, current)`: given keys override, the others are kept. */
  function Merge(patch: OptionsPatch, current: Options): Options {
    Options(
      Pick(patch.cacheHome, current.cacheHome),
      Pick(patch.cacheBlog, current.cacheBlog),
      Pick(patch.cacheArchive, current.cacheArchive),
      Pick(patch.cachePage, current.cachePage),
      Pick(patch.debugMode, current.debugMode),
      Pick(patch.cacheTtl, current.cacheTtl))
  }

  /** A patch that gives every key. */
  function FullPatch(o: Options): OptionsPatch {
    OptionsPatch(Some(o.cacheHome), Some(o.cacheBlog), Some(o.cacheArchive),
                 Some(o.cachePage), Some(o.debugMode), Some(o.cacheTtl))
  }

  /** A patch that gives every key replaces the whole record; an empty patch changes
      nothing. */
  lemma MergeFullOrEmpty(current: Options, o: Options)
    ensures Merge(FullPatch(o), current) == o
    ensures Merge(OptionsPatch(None, None, None, None, None, None), current) == current
  {
  }

  /** Merging keeps the TTL the patch leaves out and takes the one it gives, and
      merging the same patch twice is merging it once. */
  lemma MergeIdempotent(patch: OptionsPatch, current: Options)
    ensures Merge(patch, Merge(patch, current)) == Merge(patch, current)
    ensures Merge(patch, current).cacheTtl == Pick(patch.cacheTtl, current.cacheTtl)
  {
  }

  // ---------------------------------------------------------------------------
  // Output capture

  /** A piece of the response: page text, or the debug comment (status and key). */
  datatype Chunk = Html(text: string) | Debug(status: string, key: string)

  function Htmls(parts: seq<string>): (r: seq<Chunk>)
    ensures |r| == |parts|
  {
    seq(|parts|, i requires 0 <= i < |parts| => Html(parts[i]))
  }

  function Concat(parts: seq<string>): string {
    if parts == [] then "" else Concat(parts[..|parts| - 1]) + parts[|parts| - 1]
  }

  /** PHP's output layer, reduced to this plugin's one buffer. */
  class Output {
    var capturing: bool
    var captured: string
    var sent: seq<Chunk>

    constructor ()
      ensures !capturing && captured == "" && sent == []
    {
      capturing, captured, sent := false, "", [];
    }

    /** `echo` of page text: into the buffer when one is open, else to the client. */
    method Write(text: string)
      modifies this
      ensures capturing == old(capturing)
      ensures capturing ==> captured == old(captured) + text && sent == old(sent)
      ensures !capturing ==> captured == old(captured) && sent == old(sent) + [Html(text)]
    {
      if capturing {
        captured := captured + text;
      } else {
        sent := sent + [Html(text)];
      }
    }

    /** `echo` of a chunk while no buffer is open. */
    method Emit(c: Chunk)
      requires !capturing
      modifies this
      ensures !capturing && captured == old(captured) && sent == old(sent) + [c]
    {
      sent := sent + [c];
    }

    /** `ob_start`. */
    method Open()
      requires !capturing
      modifies this
      ensures capturing && captured == "" && sent == old(sent)
    {
      capturing, captured := true, "";
    }

    /** `ob_get_clean`: the captured text, with the buffer closed. */
    method TakeClean() returns (text: string)
      requires capturing
      modifies this
      ensures text == old(captured)
      ensures !capturing && captured == "" && sent == old(sent)
    {
      text := captured;
      capturing, captured := false, "";
    }
  }

  /** What `start_cache` echoes before returning without a buffer. */
  function StartNotice(r: Request, o: Options): seq<Chunk> {
    if !o.debugMode then []
    else if r.loggedIn then [Debug("Cache disabled for logged-in users", "")]
    else if !ShouldCache(r, o) then [Debug("Page not configured for caching", "")]
    else []
  }

  /** What `end_cache` echoes after storing `content` under `key`. */
  function MissNotice(key: string, o: Options): seq<Chunk> {
    if o.debugMode then [Debug("Cache Miss", key)] else []
  }

  class PostCache {
    var options: Options
    const manager: CacheManager

    /** `stored` is the saved options record, if any. */
    constructor (stored: Option<Options>, dir: CacheDir)
      ensures options == (if stored.Some? then stored.value else Defaults)
      ensures fresh(manager) && manager.dir == dir
      ensures manager.expiration == options.cacheTtl
    {
      var m := new CacheManager(dir);
      var o := if stored.Some? then stored.value else Defaults;
      m.SetExpiration(o.cacheTtl);
      manager := m;
      options := o;
    }

    /** Opens the capture only for an anonymous visitor on an eligible page. */
    method StartCache(r: Request, out: Output)
      requires !out.capturing
      modifies out
      ensures out.capturing == (!r.loggedIn && ShouldCache(r, options))
      ensures out.capturing ==> out.captured == "" && out.sent == old(out.sent)
      ensures !out.capturing ==>
        out.captured == old(out.captured) && out.sent == old(out.sent) + StartNotice(r, options)
    {
      if r.loggedIn {
        if options.debugMode {
          out.Emit(Debug("Cache disabled for logged-in users", ""));
        }
        return;
      }
      if !ShouldCache(r, options) {
        if options.debugMode {
          out.Emit(Debug("Page not configured for caching", ""));
        }
        return;
      }
      out.Open();
    }

    /** Drains the capture: non-empty content is stored under the request's key and
        then sent, followed by the debug notice; the notice is never stored. */
    method EndCache(r: Request, now: int, out: Output)
      modifies out, manager.dir
      ensures !out.capturing
      ensures !old(out.capturing) ==>
        out.captured == old(out.captured) && out.sent == old(out.sent)
        && manager.dir.files == old(manager.dir.files)
      ensures old(out.capturing) ==> out.captured == ""
      ensures old(out.capturing) && IsEmpty(old(out.captured)) ==>
        out.sent == old(out.sent) && manager.dir.files == old(manager.dir.files)
      ensures old(out.capturing) && !IsEmpty(old(out.captured)) ==>
        && manager.dir.files == Written(old(manager.dir.files), CacheKey(r),
                                        Entry(now + manager.expiration, old(out.captured)))
        && out.sent == old(out.sent) + [Html(old(out.captured))] + MissNotice(CacheKey(r), options)
    {
      if !out.capturing {
        return;
      }
      var content := out.TakeClean();
      if IsEmpty(content) {
        return;
      }
      var key := CacheKey(r);
      var _ := manager.Set(key, content, now);
      out.Emit(Html(content));
      if options.debugMode {
        out.Emit(Debug("Cache Miss", key));
      }
    }

    /** One front-end request: `start_cache` on `template_redirect`, the theme's
        output, then `end_cache` on `shutdown`. The store is written, never read. */
    method HandleRequest(r: Request, rendered: seq<string>, now: int, out: Output)
      requires !out.capturing
      modifies out, manager.dir
      ensures !out.capturing
      ensures var eligible := !r.loggedIn && ShouldCache(r, options);
        var page := Concat(rendered);
        if !eligible then
          out.sent == old(out.sent) + StartNotice(r, options) + Htmls(rendered)
          && manager.dir.files == old(manager.dir.files)
        else if IsEmpty(page) then
          out.sent == old(out.sent) && manager.dir.files == old(manager.dir.files)
        else
          out.sent == old(out.sent) + [Html(page)] + MissNotice(CacheKey(r), options)
          && manager.dir.files == Written(old(manager.dir.files), CacheKey(r),
                                          Entry(now + manager.expiration, page))
      ensures out.captured == (if !r.loggedIn && ShouldCache(r, options) then "" else old(out.captured))
    {
      StartCache(r, out);
      ghost var sent0 := out.sent;
      ghost var files0 := manager.dir.files;
      for i := 0 to |rendered|
        invariant out.capturing == (!r.loggedIn && ShouldCache(r, options))
        invariant out.capturing ==> out.captured == Concat(rendered[..i]) && out.sent == sent0
        invariant !out.capturing ==> out.sent == sent0 + Htmls(rendered[..i])
        invariant !out.capturing ==> out.captured == old(out.captured)
        invariant manager.dir.files == files0
      {
        assert rendered[..i + 1][..i] == rendered[..i];
        out.Write(rendered[i]);
      }
      assert rendered[..|rendered|] == rendered;
      EndCache(r, now, out);
    }

    /** `save_post`: a first insert (`update` false) clears nothing; otherwise the post's
        own page and the cascade's keys are deleted, whatever each delete reports. */
    method ClearPostCache(postId: nat, update: bool, info: PostInfo)
      modifies manager.dir
      ensures manager.dir.files ==
        if update then Evict(old(manager.dir.files), InvalidatedKeys(options, postId, info))
        else old(manager.dir.files)
    {
      if !update {
        return;
      }
      var _ := manager.Delete(PostKey(postId));
      ClearRelatedCaches(info);
      EvictTwice(old(manager.dir.files), {PostKey(postId)}, RelatedKeys(options, info));
    }

    /** `comment_post` and `trash_post`: the update flag is always taken as true. */
    method ClearPostCacheById(postId: nat, info: PostInfo)
      modifies manager.dir
      ensures manager.dir.files == Evict(old(manager.dir.files), InvalidatedKeys(options, postId, info))
    {
      ClearPostCache(postId, true, info);
    }

    method ClearRelatedCaches(info: PostInfo)
      modifies manager.dir
      ensures manager.dir.files == Evict(old(manager.dir.files), RelatedKeys(options, info))
    {
      ghost var start := manager.dir.files;
      ghost var done: set<string> := {};
      if info.postType == "post" && options.cacheHome {
        var _ := manager.Delete(HomeKey);
        EvictTwice(start, done, {HomeKey});
        done := done + {HomeKey};
      }
      if info.postType == "post" && options.cacheBlog {
        var _ := manager.Delete(BlogKey);
        EvictTwice(start, done, {BlogKey});
        done := done + {BlogKey};
      }
      assert done == ListingKeys(options, info);
      if options.cacheArchive {
        ClearArchives(info, start, done);
        assert done + ArchiveKeys(info) == RelatedKeys(options, info);
      }
    }

    /** The archive part of the cascade, in the source's order. */
    method ClearArchives(info: PostInfo, ghost start: Files, ghost done: set<string>)
      requires manager.dir.files == Evict(start, done)
      modifies manager.dir
      ensures manager.dir.files == Evict(start, done + ArchiveKeys(info))
    {
      ClearCategoryArchives(info.categories, start, done);
      ghost var d := done + CategoryKeys(info.categories);
      ClearTagArchives(info.tags, start, d);
      d := d + TagKeys(info.tags);
      var _ := manager.Delete(AuthorKey(info.author));
      EvictTwice(start, d, {AuthorKey(info.author)});
      d := d + {AuthorKey(info.author)};
      var _ := manager.Delete(KeyPrefix + "date_" + info.year);
      EvictTwice(start, d, {KeyPrefix + "date_" + info.year});
      d := d + {KeyPrefix + "date_" + info.year};
      var _ := manager.Delete(KeyPrefix + "date_" + info.year + "_" + info.month);
      EvictTwice(start, d, {KeyPrefix + "date_" + info.year + "_" + info.month});
      d := d + {KeyPrefix + "date_" + info.year + "_" + info.month};
      var _ := manager.Delete(KeyPrefix + "date_" + info.year + "_" + info.month + "_" + info.day);
      EvictTwice(start, d, {KeyPrefix + "date_" + info.year + "_" + info.month + "_" + info.day});
      d := d + {KeyPrefix + "date_" + info.year + "_" + info.month + "_" + info.day};
      ClearTaxonomyArchives(info.taxonomies, start, d);
      d := d + TaxonomyKeys(info.taxonomies);
      var _ := manager.Delete(PostTypeArchiveKey(info.postType));
      EvictTwice(start, d, {PostTypeArchiveKey(info.postType)});
      d := d + {PostTypeArchiveKey(info.postType)};
      assert d == done + ArchiveKeys(info);
    }

    method ClearCategoryArchives(ids: seq<nat>, ghost start: Files, ghost done: set<string>)
      requires manager.dir.files == Evict(start, done)
      modifies manager.dir
      ensures manager.dir.files == Evict(start, done + CategoryKeys(ids))
    {
      for i := 0 to |ids|
        invariant manager.dir.files == Evict(start, done + CategoryKeys(ids[..i]))
      {
        var _ := manager.Delete(CategoryKey(ids[i]));
        EvictTwice(start, done + CategoryKeys(ids[..i]), {CategoryKey(ids[i])});
        assert ids[..i + 1] == ids[..i] + [ids[i]];
        assert CategoryKeys(ids[..i + 1]) == CategoryKeys(ids[..i]) + {CategoryKey(ids[i])};
      }
      assert ids[..|ids|] == ids;
    }

    method ClearTagArchives(ids: seq<nat>, ghost start: Files, ghost done: set<string>)
      requires manager.dir.files == Evict(start, done)
      modifies manager.dir
      ensures manager.dir.files == Evict(start, done + TagKeys(ids))
    {
      for i := 0 to |ids|
        invariant manager.dir.files == Evict(start, done + TagKeys(ids[..i]))
      {
        var _ := manager.Delete(TagKey(ids[i]));
        EvictTwice(start, done + TagKeys(ids[..i]), {TagKey(ids[i])});
        assert ids[..i + 1] == ids[..i] + [ids[i]];
        assert TagKeys(ids[..i + 1]) == TagKeys(ids[..i]) + {TagKey(ids[i])};
      }
      assert ids[..|ids|] == ids;
    }

    method ClearTaxonomyArchives(taxes: seq<TaxonomyTerms>, ghost start: Files, ghost done: set<string>)
      requires manager.dir.files == Evict(start, done)
      modifies manager.dir
      ensures manager.dir.files == Evict(start, done + TaxonomyKeys(taxes))
    {
      for i := 0 to |taxes|
        invariant manager.dir.files == Evict(start, done + TaxonomyKeys(taxes[..i]))
      {
        ClearTermArchives(taxes[i].name, taxes[i].termIds, start, done + TaxonomyKeys(taxes[..i]));
        assert taxes[..i + 1][..i] == taxes[..i];
        assert TaxonomyKeys(taxes[..i + 1])
            == TaxonomyKeys(taxes[..i]) + TermKeys(taxes[i].name, taxes[i].termIds);
      }
      assert taxes[..|taxes|] == taxes;
    }

    /** Deletes the archive of each of the post's terms in one taxonomy. */
    method ClearTermArchives(name: string, ids: seq<nat>, ghost start: Files, ghost done: set<string>)
      requires manager.dir.files == Evict(start, done)
      modifies manager.dir
      ensures manager.dir.files == Evict(start, done + TermKeys(name, ids))
    {
      for j := 0 to |ids|
        invariant manager.dir.files == Evict(start, done + TermKeys(name, ids[..j]))
      {
        var _ := manager.Delete(TaxKey(name, ids[j]));
        EvictTwice(start, done + TermKeys(name, ids[..j]), {TaxKey(name, ids[j])});
        assert ids[..j + 1] == ids[..j] + [ids[j]];
        assert TermKeys(name, ids[..j + 1]) == TermKeys(name, ids[..j]) + {TaxKey(name, ids[j])};
      }
      assert ids[..|ids|] == ids;
    }

    /** Merges the given keys over the current options and applies the merged TTL. */
    method UpdateOptions(patch: OptionsPatch)
      modifies this, manager
      ensures options == Merge(patch, old(options))
      ensures manager.expiration == options.cacheTtl
    {
      options := Merge(patch, options);
      manager.SetExpiration(options.cacheTtl);
    }
  }
}
