/** The settings screen's two actions (`Admin`): saving the options form, with the TTL
    clamped and each page-type flag read from the presence of its field, and clearing
    the whole cache. Both are refused outright to a user who may not manage options. */
module Settings {
  import opened Php
  import opened Store
  import opened Controller

  const MinTtl: int := 60
  const MaxTtl: int := 86400
  const DefaultTtl: int := 3600

  /** The submitted form fields, by name, as text. */
  type Form = map<string, string>

  function Clamp(x: int): (r: int)
    ensures MinTtl <= r <= MaxTtl
    ensures MinTtl <= x <= MaxTtl ==> r == x
    ensures x < MinTtl ==> r == MinTtl
    ensures MaxTtl < x ==> r == MaxTtl
  {
    if x < MinTtl then MinTtl else if MaxTtl < x then MaxTtl else x
  }

  /** The TTL `handle_save_settings` saves: 3600 when the field is missing, otherwise
      `absint` of the submitted text, then clamped to [60, 86400]. */
  function SanitizedTtl(form: Form): (ttl: int)
    ensures MinTtl <= ttl <= MaxTtl
    ensures "cache_ttl" !in form ==> ttl == DefaultTtl
  {
    Clamp(if "cache_ttl" in form then Abs(IntVal(form["cache_ttl"])) else DefaultTtl)
  }

  /** The options record built from the form: a flag is on exactly when its field was
      submitted, whatever its value. */
  function SanitizedOptions(form: Form): (o: Options)
    ensures o.cacheHome <==> "cache_home" in form
    ensures o.cacheBlog <==> "cache_blog" in form
    ensures o.cacheArchive <==> "cache_archive" in form
    ensures o.cachePage <==> "cache_page" in form
    ensures o.debugMode <==> "debug_mode" in form
    ensures MinTtl <= o.cacheTtl <= MaxTtl
  {
    Options(
      "cache_home" in form,
      "cache_blog" in form,
      "cache_archive" in form,
      "cache_page" in form,
      "debug_mode" in form,
      SanitizedTtl(form))
  }

  /** `absint` of `n` written in decimal, signed or not and followed by text that does
      not continue the number, is `n`. */
  lemma AbsIntOfDecimal(n: nat, negative: bool, rest: string)
    requires EndsInteger(rest)
    ensures Abs(IntVal((if negative then "-" else "") + DecimalString(n) + rest)) == n
  {
    if negative {
      IntValOfNegatedDecimal(n, rest);
    } else {
      IntValOfDecimal(n, rest);
      assert "" + DecimalString(n) + rest == DecimalString(n) + rest;
    }
  }

  /** Submitting `n` in decimal, signed or not and followed by text that does not
      continue the number, saves `n` clamped. */
  lemma SubmittedTtl(form: Form, n: nat, negative: bool, rest: string)
    requires EndsInteger(rest)
    requires "cache_ttl" in form
    requires form["cache_ttl"] == (if negative then "-" else "") + DecimalString(n) + rest
    ensures SanitizedTtl(form) == Clamp(n)
  {
    AbsIntOfDecimal(n, negative, rest);
  }

  /** 5 is saved as 60 and 999999 as 86400. */
  lemma TtlClampExamples(form: Form)
    ensures SanitizedTtl(form["cache_ttl" := "5"]) == 60
    ensures SanitizedTtl(form["cache_ttl" := "999999"]) == 86400
  {
    assert DecimalString(5) == "5";
    SubmittedTtl(form["cache_ttl" := "5"], 5, false, "");
    DecimalNines();
    SubmittedTtl(form["cache_ttl" := "999999"], 999999, false, "");
  }

  /** Kept apart from `TtlClampExamples`: unfolding the rendering there, beside the
      two conversions, costs the solver too much. */
  lemma DecimalNines()
    ensures DecimalString(999999) == "999999"
  {
  }

  /** The values of the flag fields play no part: two forms with the same fields and
      the same TTL text save the same options. */
  lemma FlagValuesIgnored(form: Form, form': Form)
    requires form.Keys == form'.Keys
    requires "cache_ttl" in form ==> form["cache_ttl"] == form'["cache_ttl"]
    ensures SanitizedOptions(form) == SanitizedOptions(form')
  {
  }

  /** How an admin action ends: `wp_die` for a user without `manage_options`,
      `wp_die` from the referer check, or a redirect after doing the work. */
  datatype ActionResult = Unauthorized | BadReferer | Redirected

  function Gate(canManage: bool, refererOk: bool): ActionResult {
    if !canManage then Unauthorized else if !refererOk then BadReferer else Redirected
  }

  class Admin {
    const manager: CacheManager
    const postCache: PostCache
    var options: Options

    /** Builds its own cache manager (expiration left at 3600) and its own controller,
        both over `dir`; `stored` is the saved options record, if any. */
    constructor (stored: Option<Options>, dir: CacheDir)
      ensures fresh(manager) && fresh(postCache) && fresh(postCache.manager)
      ensures manager.dir == dir && postCache.manager.dir == dir
      ensures manager.expiration == DefaultTtl
      ensures options == postCache.options == (if stored.Some? then stored.value else Defaults)
      ensures postCache.manager.expiration == options.cacheTtl
    {
      manager := new CacheManager(dir);
      postCache := new PostCache(stored, dir);
      options := if stored.Some? then stored.value else Defaults;
    }

    /** `admin_post_vmc_clear_cache`: wipes the cache only when both checks pass. */
    method HandleClearCache(canManage: bool, refererOk: bool) returns (r: ActionResult)
      modifies manager.dir
      ensures r == Gate(canManage, refererOk)
      ensures manager.dir.files ==
        if r == Redirected then Cleared(old(manager.dir.files)) else old(manager.dir.files)
    {
      if !canManage {
        return Unauthorized;
      }
      if !refererOk {
        return BadReferer;
      }
      var _ := manager.ClearCache();
      r := Redirected;
    }

    /** `admin_post_vmc_save_settings`: on success the controller's options, this
        object's options and both managers' expirations all hold the sanitised values;
        otherwise nothing changes. */
    method HandleSaveSettings(canManage: bool, refererOk: bool, form: Form) returns (r: ActionResult)
      modifies this, manager, postCache, postCache.manager
      ensures r == Gate(canManage, refererOk)
      ensures r != Redirected ==>
        && options == old(options)
        && postCache.options == old(postCache.options)
        && manager.expiration == old(manager.expiration)
        && postCache.manager.expiration == old(postCache.manager.expiration)
      ensures r == Redirected ==>
        && options == SanitizedOptions(form)
        && postCache.options == SanitizedOptions(form)
        && manager.expiration == SanitizedTtl(form)
        && postCache.manager.expiration == SanitizedTtl(form)
    {
      if !canManage {
        return Unauthorized;
      }
      if !refererOk {
        return BadReferer;
      }
      var ttl := SanitizedTtl(form);
      var o := SanitizedOptions(form);
      MergeFullOrEmpty(postCache.options, o);
      postCache.UpdateOptions(FullPatch(o));
      options := o;
      manager.SetExpiration(ttl);
      r := Redirected;
    }
  }
}
