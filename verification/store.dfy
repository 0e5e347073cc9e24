/** The file-backed cache store (`Cache_Manager`): one file per key holding a decoded
    JSON record `{expires, content}`, an expiry checked on read, and a wipe that spares
    the `.htaccess` marker. The directory is explicit state; the clock is a parameter. */
module Store {
  import opened Php

  /** A name in the cache directory. `CacheFile(key)` stands for `md5(key) . '.cache'`;
      the constructor is injective, as the naming function is assumed to be. */
  datatype FileName = CacheFile(key: string) | OtherFile(name: string)

  /** The access-control marker written on activation. */
  const Marker: FileName := OtherFile(".htaccess")

  /** What a directory entry holds, as far as the store can tell:
      a sub-directory (`is_file` is false and `unlink` fails on it), a regular file
      whose text does not decode to a JSON object, or a decoded object with its
      `expires` and `content` fields, each possibly unset. */
  datatype Node =
    | Directory
    | Raw(text: string)
    | Record(expires: Option<int>, content: Option<string>)

  type Files = map<FileName, Node>

  /** The record `set` writes. */
  function Entry(expires: int, content: string): Node {
    Record(Some(expires), Some(content))
  }

  /** The file for `key` exists and is a directory: writing and unlinking it fail. */
  predicate Blocked(files: Files, key: string) {
    CacheFile(key) in files && files[CacheFile(key)].Directory?
  }

  /** The directory after unlinking each of `targets`; unlinking a directory fails
      and leaves it in place. */
  function Purge(files: Files, targets: set<FileName>): Files {
    map f | f in files && (f !in targets || files[f].Directory?) :: files[f]
  }

  /** The directory after deleting the file of each key in `keys`, one `delete` per key. */
  function Evict(files: Files, keys: set<string>): Files {
    map f | f in files && !(f.CacheFile? && f.key in keys && !files[f].Directory?) :: files[f]
  }

  /** Deleting a set of keys and then another is deleting their union. */
  lemma EvictTwice(files: Files, a: set<string>, b: set<string>)
    ensures Evict(Evict(files, a), b) == Evict(files, a + b)
  {
  }

  /** What `get` finds under `key` before it looks at the clock. */
  datatype Lookup = Missing | Unusable | Found(expires: int, content: string)

  function Find(files: Files, key: string): Lookup {
    if CacheFile(key) !in files then Missing
    else match files[CacheFile(key)]
      case Record(Some(e), Some(c)) => Found(e, c)
      case _ => Unusable
  }

  /** A well-formed record whose `expires` lies strictly before `now`. */
  predicate IsStale(files: Files, key: string, now: int) {
    Find(files, key).Found? && Find(files, key).expires < now
  }

  /** The value `get(key)` returns at time `now`. */
  function Served(files: Files, key: string, now: int): (r: Option<string>)
    ensures r.Some? <==>
      CacheFile(key) in files && files[CacheFile(key)].Record?
      && files[CacheFile(key)].expires.Some? && files[CacheFile(key)].content.Some?
      && now <= files[CacheFile(key)].expires.value
    ensures r.Some? ==> r.value == files[CacheFile(key)].content.value
  {
    match Find(files, key)
    case Found(e, c) => if e < now then None else Some(c)
    case _ => None
  }

  /** The directory after `get(key)` at time `now`: only a stale record is removed. */
  function AfterGet(files: Files, key: string, now: int): Files {
    if IsStale(files, key, now) then Evict(files, {key}) else files
  }

  /** The value `get_expiration_time(key)` returns. */
  function ExpirationOf(files: Files, key: string): (r: Option<int>)
    ensures r.Some? <==>
      CacheFile(key) in files && files[CacheFile(key)].Record? && files[CacheFile(key)].expires.Some?
    ensures r.Some? ==> r == files[CacheFile(key)].expires
  {
    if CacheFile(key) !in files then None
    else match files[CacheFile(key)]
      case Record(e, _) => e
      case _ => None
  }

  /** The directory after writing `node` under `key`; writing onto a directory fails. */
  function Written(files: Files, key: string, node: Node): Files {
    if Blocked(files, key) then files else files[CacheFile(key) := node]
  }

  /** The directory after `clear_cache`: every regular file but the marker is gone. */
  function Cleared(files: Files): Files {
    Purge(files, files.Keys - {Marker})
  }

  /** `set` followed by `get`: the new content is served up to and including the
      instant `now + expiration`, and nowhere else does anything change. */
  lemma SetThenGet(files: Files, key: string, content: string, now: int, expiration: int, t: int)
    requires !Blocked(files, key)
    ensures Served(Written(files, key, Entry(now + expiration, content)), key, t)
         == (if t <= now + expiration then Some(content) else None)
    ensures forall k :: k != key ==> Find(Written(files, key, Entry(now + expiration, content)), k) == Find(files, k)
  {
  }

  /** An immediate `get` after `set` with a non-negative expiration returns the content. */
  lemma SetThenGetNow(files: Files, key: string, content: string, now: int, expiration: int)
    requires !Blocked(files, key) && 0 <= expiration
    ensures Served(Written(files, key, Entry(now + expiration, content)), key, now) == Some(content)
  {
    SetThenGet(files, key, content, now, expiration, now);
  }

  /** Reading a stale record removes it: afterwards there is nothing to serve and no
      expiration to report, and every other file is as it was. */
  lemma StaleReadRemoves(files: Files, key: string, now: int)
    requires IsStale(files, key, now)
    ensures Served(files, key, now) == None
    ensures Find(AfterGet(files, key, now), key) == Missing
    ensures ExpirationOf(AfterGet(files, key, now), key) == None
    ensures forall f :: f != CacheFile(key) ==>
      (f in AfterGet(files, key, now) <==> f in files)
  {
  }

  /** A record lacking either field is a miss and is left on disk. */
  lemma UnusableRecordKept(files: Files, key: string, now: int)
    requires Find(files, key) == Unusable
    ensures Served(files, key, now) == None && AfterGet(files, key, now) == files
  {
  }

  /** After `delete(key)` nothing is served under `key`, every other key is untouched,
      and deleting again changes nothing. */
  lemma DeleteThenGet(files: Files, key: string, now: int)
    ensures Served(Evict(files, {key}), key, now) == None
    ensures forall k :: k != key ==> Find(Evict(files, {key}), k) == Find(files, k)
    ensures Evict(Evict(files, {key}), {key}) == Evict(files, {key})
  {
    EvictTwice(files, {key}, {key});
  }

  /** After `clear_cache` no key is served, the marker survives untouched, and the only
      files left are the marker and sub-directories. */
  lemma ClearedServesNothing(files: Files, now: int)
    ensures forall k :: Served(Cleared(files), k, now) == None
    ensures Marker in files ==> Marker in Cleared(files) && Cleared(files)[Marker] == files[Marker]
    ensures forall f :: f in Cleared(files) ==> f == Marker || Cleared(files)[f].Directory?
  {
  }

  /** The cache directory; several managers may share one. */
  class CacheDir {
    var files: Files

    constructor (files: Files)
      ensures this.files == files
    {
      this.files := files;
    }
  }

  class CacheManager {
    /** Lifetime in seconds given to newly written records. */
    var expiration: int
    const dir: CacheDir

    constructor (dir: CacheDir)
      ensures this.dir == dir && expiration == 3600
    {
      this.dir := dir;
      expiration := 3600;
    }

    method SetExpiration(seconds: int)
      modifies this
      ensures expiration == seconds
    {
      expiration := seconds;
    }

    method GetExpiration() returns (seconds: int)
      ensures seconds == expiration
    {
      seconds := expiration;
    }

    /** Reports the stored `expires` even when it has passed, and deletes nothing. */
    method GetExpirationTime(key: string) returns (r: Option<int>)
      ensures r == ExpirationOf(dir.files, key)
    {
      var f := CacheFile(key);
      if f !in dir.files {
        return None;
      }
      match dir.files[f]
      case Record(e, _) => r := e;
      case _ => r := None;
    }

    method Get(key: string, now: int) returns (r: Option<string>)
      modifies dir
      ensures r == Served(old(dir.files), key, now)
      ensures dir.files == AfterGet(old(dir.files), key, now)
    {
      var f := CacheFile(key);
      if f !in dir.files {
        return None;
      }
      var node := dir.files[f];
      if !(node.Record? && node.expires.Some? && node.content.Some?) {
        return None;
      }
      if node.expires.value < now {
        var _ := Delete(key);
        return None;
      }
      r := node.content;
    }

    method Set(key: string, content: string, now: int) returns (ok: bool)
      modifies dir
      ensures ok == !Blocked(old(dir.files), key)
      ensures dir.files == Written(old(dir.files), key, Entry(now + expiration, content))
    {
      var f := CacheFile(key);
      ok := !(f in dir.files && dir.files[f].Directory?);
      if ok {
        dir.files := dir.files[f := Entry(now + expiration, content)];
      }
    }

    method Delete(key: string) returns (ok: bool)
      modifies dir
      ensures ok == !Blocked(old(dir.files), key)
      ensures dir.files == Evict(old(dir.files), {key})
    {
      var f := CacheFile(key);
      if f in dir.files {
        ok := !dir.files[f].Directory?;
        if ok {
          dir.files := dir.files - {f};
        }
      } else {
        ok := true;
      }
    }

    method ClearCache() returns (ok: bool)
      modifies dir
      ensures ok
      ensures dir.files == Cleared(old(dir.files))
    {
      var listing := dir.files.Keys;
      var pending := listing;
      while pending != {}
        invariant pending <= listing == old(dir.files).Keys
        invariant dir.files == Purge(old(dir.files), listing - pending - {Marker})
        decreases pending
      {
        var f :| f in pending;
        if f in dir.files && !dir.files[f].Directory? && f != Marker {
          dir.files := dir.files - {f};
        }
        pending := pending - {f};
      }
      ok := true;
    }
  }
}
