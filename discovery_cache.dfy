/** `DiscoveryCache`: one serialised file per discovery location holding
    what each discovery found there, written after a scan and read back on
    later requests unless the strategy or newer PHP files make it stale. */
module Cache {
  import opened Php
  import opened Env
  import opened Locations
  import opened Items
  import Services
  import Hooks
  import Commands

  /** `DiscoveryCacheStrategy`. */
  datatype Strategy = Full | Partial | Disabled

  /** The payload of a cache file: the items of each discovery, keyed in
      the file by the discovery's class name (a missing key reads as no
      items). */
  datatype Snapshot = Snapshot(services: seq<Services.ServiceItem>, hooks: seq<Hooks.HookItem>,
                               commands: seq<Commands.CommandItem>)

  /** A file of the cache directory: its payload, `None` when it cannot be
      read or does not unserialise to an array, and its mtime, `None` when
      `filemtime` fails. */
  datatype CacheFile = CacheFile(payload: Option<Snapshot>, mtime: Option<int>)

  /** An entry of the recursive directory iterator. */
  datatype FileStat = FileStat(isFile: bool, extension: string, mtime: int)

  /** What `isCacheStale` observes: `WP_DEBUG`, `is_dir`, and the entries
      the recursive iterator yields under a directory. */
  datatype Disk = Disk(debug: bool, isDir: string -> bool, tree: string -> seq<FileStat>)

  /** A PHP file modified after `t`. */
  predicate NewerPhp(f: FileStat, t: int) {
    f.isFile && f.extension == "php" && f.mtime > t
  }

  /** When a cache file is stale: no mtime, or the PARTIAL strategy under
      `WP_DEBUG`, or some PHP file of the location's directory newer than
      the cache. */
  predicate Stale(f: CacheFile, strategy: Strategy, loc: DiscoveryLocation, disk: Disk) {
    || f.mtime.None?
    || (strategy == Partial && disk.debug)
    || (disk.isDir(loc.path) &&
        exists i :: 0 <= i < |disk.tree(loc.path)| && NewerPhp(disk.tree(loc.path)[i], f.mtime.value))
  }

  /** A cache written no earlier than every PHP file of its location is
      fresh, unless PARTIAL runs under `WP_DEBUG`. */
  lemma FreshAfterEdits(f: CacheFile, strategy: Strategy, loc: DiscoveryLocation, disk: Disk)
    requires f.mtime.Some? && !(strategy == Partial && disk.debug)
    requires forall i :: (0 <= i < |disk.tree(loc.path)| && disk.tree(loc.path)[i].isFile
                         && disk.tree(loc.path)[i].extension == "php") ==> disk.tree(loc.path)[i].mtime <= f.mtime.value
    ensures !Stale(f, strategy, loc, disk)
  {
    if disk.isDir(loc.path) {
      forall i | 0 <= i < |disk.tree(loc.path)|
        ensures !NewerPhp(disk.tree(loc.path)[i], f.mtime.value)
      {
      }
    }
  }

  /** `isCacheStale($cacheFile, $location)`. */
  method IsCacheStale(f: CacheFile, strategy: Strategy, loc: DiscoveryLocation, disk: Disk) returns (stale: bool)
    ensures stale == Stale(f, strategy, loc, disk)
  {
    if f.mtime.None? {
      return true;
    }
    var cacheTime := f.mtime.value;
    if strategy == Partial && disk.debug {
      return true;
    }
    if disk.isDir(loc.path) {
      var entries := disk.tree(loc.path);
      var i := 0;
      while i < |entries|
        invariant 0 <= i <= |entries|
        invariant forall j :: 0 <= j < i ==> !NewerPhp(entries[j], cacheTime)
      {
        if entries[i].isFile && entries[i].extension == "php" && entries[i].mtime > cacheTime {
          return true;
        }
        i := i + 1;
      }
    }
    return false;
  }

  /** The items of one location, or none. */
  function ItemsAt<T>(m: map<string, seq<T>>, k: string): seq<T> {
    if k in m then m[k] else []
  }

  /** What `md5` returns: 32 lowercase hexadecimal digits. */
  predicate IsHexDigest(h: string) {
    |h| == 32 && forall i :: 0 <= i < |h| ==> h[i] in "0123456789abcdef"
  }

  class DiscoveryCache {
    const strategy: Strategy
    const cacheDir: string
    /** `md5`. */
    const hash: string -> string
    /** The files of the cache directory, by path. */
    var files: map<string, CacheFile>

    /** The directory is `<uploads basedir>/picowind/cache/discovery/`;
        creating it is not modelled. */
    constructor (strategy: Strategy, uploadsBase: string, hash: string -> string, files: map<string, CacheFile>)
      ensures this.strategy == strategy && this.hash == hash && this.files == files
      ensures cacheDir == uploadsBase + "/picowind/cache/discovery/"
    {
      this.strategy := strategy;
      this.cacheDir := uploadsBase + "/picowind/cache/discovery/";
      this.hash := hash;
      this.files := files;
    }

    /** `isEnabled()`. */
    predicate IsEnabled() {
      strategy != Disabled
    }

    /** `getCacheFilename($location)`: the md5 of namespace and path joined,
        inside the cache directory. */
    function FileName(loc: DiscoveryLocation): (r: string)
      ensures StartsWith(r, cacheDir) && EndsWith(r, ".cache")
    {
      var r := cacheDir + hash(loc.namespace + loc.path) + ".cache";
      assert r[..|cacheDir|] == cacheDir;
      assert r[|r| - 6..] == ".cache";
      r
    }

    /** `store` as written: each discovery's `all()`, that is the items of
        every location scanned so far, not only this one. */
    method StoreAsWritten(loc: DiscoveryLocation, services: DiscoveryItems<Services.ServiceItem>,
                          hooks: DiscoveryItems<Hooks.HookItem>, commands: DiscoveryItems<Commands.CommandItem>,
                          now: int)
      requires services.Valid() && hooks.Valid() && commands.Valid()
      modifies this
      ensures !IsEnabled() ==> files == old(files)
      ensures IsEnabled() ==> files == old(files)[FileName(loc) := CacheFile(Some(Snapshot(
        Flatten(services.order, services.items), Flatten(hooks.order, hooks.items),
        Flatten(commands.order, commands.items))), Some(now))]
    {
      if !IsEnabled() {
        return;
      }
      var s := services.All();
      var h := hooks.All();
      var c := commands.All();
      var filename := FileName(loc);
      files := files[filename := CacheFile(Some(Snapshot(s, h, c)), Some(now))];
    }

    /** `store` as evidently intended: each discovery's items of this
        location only. */
    method Store(loc: DiscoveryLocation, services: DiscoveryItems<Services.ServiceItem>,
                 hooks: DiscoveryItems<Hooks.HookItem>, commands: DiscoveryItems<Commands.CommandItem>, now: int)
      modifies this
      ensures !IsEnabled() ==> files == old(files)
      ensures IsEnabled() ==> files == old(files)[FileName(loc) := CacheFile(Some(Snapshot(
        ItemsAt(services.items, LocationKey(loc)), ItemsAt(hooks.items, LocationKey(loc)),
        ItemsAt(commands.items, LocationKey(loc)))), Some(now))]
    {
      if !IsEnabled() {
        return;
      }
      var key := LocationKey(loc);
      var s := ItemsAt(services.items, key);
      var h := ItemsAt(hooks.items, key);
      var c := ItemsAt(commands.items, key);
      var filename := FileName(loc);
      files := files[filename := CacheFile(Some(Snapshot(s, h, c)), Some(now))];
    }

    /** `restore($location)`: the payload of a fresh, readable cache file;
        a stale file is deleted. */
    method Restore(loc: DiscoveryLocation, disk: Disk) returns (r: Option<Snapshot>)
      modifies this
      ensures (r, files) == Restored(old(files), loc, disk)
    {
      if !IsEnabled() {
        return None;
      }
      var filename := FileName(loc);
      if filename !in files {
        return None;
      }
      var stale := IsCacheStale(files[filename], strategy, loc, disk);
      if stale {
        files := files - {filename};
        return None;
      }
      r := files[filename].payload;
    }

    /** What `restore` returns and the files it leaves. */
    function Restored(files: map<string, CacheFile>, loc: DiscoveryLocation, disk: Disk)
      : (r: (Option<Snapshot>, map<string, CacheFile>))
      ensures r.0.Some? <==>
        IsEnabled() && FileName(loc) in files && !Stale(files[FileName(loc)], strategy, loc, disk)
        && files[FileName(loc)].payload.Some?
      ensures r.0.Some? ==> r.0 == files[FileName(loc)].payload
      ensures r.1.Keys <= files.Keys && forall f :: f in r.1 ==> r.1[f] == files[f]
      ensures FileName(loc) in r.1 ==> r.1 == files
    {
      var fn := FileName(loc);
      if !IsEnabled() || fn !in files then (None, files)
      else if Stale(files[fn], strategy, loc, disk) then (None, files - {fn})
      else (files[fn].payload, files)
    }

    /** Restoring twice gives what restoring once gave and changes nothing
        more: `isLocationCached` and `restoreFromCache` agree. */
    lemma RestoreTwice(files: map<string, CacheFile>, loc: DiscoveryLocation, disk: Disk)
      ensures Restored(Restored(files, loc, disk).1, loc, disk).1 == Restored(files, loc, disk).1
      ensures Restored(files, loc, disk).0.Some? ==>
        Restored(Restored(files, loc, disk).1, loc, disk).0 == Restored(files, loc, disk).0
    {
    }

    /** A file `glob($cacheDir . '*.cache')` lists: directly inside the
        cache directory, not hidden, and ending in `.cache`. */
    predicate Globbed(f: string) {
      StartsWith(f, cacheDir) && |f| > |cacheDir| && f[|cacheDir|] != '.'
      && '/' !in f[|cacheDir|..] && EndsWith(f, ".cache")
    }

    /** `clear()`: every listed cache file is deleted when the cache
        directory exists; other files are kept. */
    method Clear(dirExists: bool)
      modifies this
      ensures !dirExists ==> files == old(files)
      ensures dirExists ==> files == map f | f in old(files) && !Globbed(f) :: old(files)[f]
    {
      if dirExists {
        files := map f | f in files && !Globbed(f) :: files[f];
      }
    }

    /** Once the directory is cleared, no location whose md5 is a plain hex
        digest restores anything. */
    lemma ClearedRestoresNothing(files: map<string, CacheFile>, loc: DiscoveryLocation, disk: Disk)
      requires IsHexDigest(hash(loc.namespace + loc.path))
      ensures Restored(map f | f in files && !Globbed(f) :: files[f], loc, disk).0.None?
    {
      var h := hash(loc.namespace + loc.path);
      var fn := FileName(loc);
      assert fn[|cacheDir|..] == h + ".cache";
      assert fn[|cacheDir|] == h[0];
      assert Globbed(fn);
    }

    /** What was stored is restored while no PHP file of the location
        changes after the store and the strategy is not PARTIAL under
        `WP_DEBUG`. */
    lemma StoreRestore(files: map<string, CacheFile>, loc: DiscoveryLocation, snap: Snapshot, now: int, disk: Disk)
      requires IsEnabled() && !(strategy == Partial && disk.debug)
      requires forall i :: (0 <= i < |disk.tree(loc.path)| && disk.tree(loc.path)[i].isFile
                           && disk.tree(loc.path)[i].extension == "php") ==> disk.tree(loc.path)[i].mtime <= now
      ensures Restored(files[FileName(loc) := CacheFile(Some(snap), Some(now))], loc, disk).0 == Some(snap)
    {
      FreshAfterEdits(CacheFile(Some(snap), Some(now)), strategy, loc, disk);
    }
  }

  // ---------------------------------------------------------------------
  // Restoring a whole run, at the level of one discovery's item store.

  /** One discovery's item store as values: the location keys in first-use
      order and the items of each. */
  datatype Filed<T> = Filed(order: seq<string>, items: map<string, seq<T>>)

  /** `restoreFromCache` for one discovery: the cached items added under
      the location, one `add` after another (an empty list adds nothing). */
  function AddAll<T>(f: Filed<T>, k: string, xs: seq<T>): (r: Filed<T>)
    ensures (forall j :: j in f.order ==> j in f.items) ==> forall j :: j in r.order ==> j in r.items
  {
    if xs == [] then f
    else if k in f.items then Filed(f.order, f.items[k := f.items[k] + xs])
    else Filed(f.order + [k], f.items[k := xs])
  }

  /** The store after restoring the locations `ks` in order from the
      cached lists. */
  function RestoreRun<T>(ks: seq<string>, cached: map<string, seq<T>>): (r: Filed<T>)
    ensures forall j :: j in r.order ==> j in r.items
  {
    if ks == [] then Filed([], map[])
    else AddAll(RestoreRun(ks[..|ks| - 1], cached), ks[|ks| - 1], ItemsAt(cached, ks[|ks| - 1]))
  }

  /** The locations among `ks` with a non-empty cached list, in order. */
  function Present<T>(ks: seq<string>, cached: map<string, seq<T>>): (r: seq<string>)
    ensures forall k :: k in r <==> k in ks && ItemsAt(cached, k) != []
  {
    if ks == [] then []
    else
      var k := ks[|ks| - 1];
      Present(ks[..|ks| - 1], cached) + (if ItemsAt(cached, k) != [] then [k] else [])
  }

  /** The cached lists of the locations among `ks` that have items. */
  function Among<T>(ks: seq<string>, cached: map<string, seq<T>>): map<string, seq<T>> {
    map k | k in cached && k in ks && cached[k] != [] :: cached[k]
  }

  /** One more location for `Among`. */
  lemma AmongStep<T>(init: seq<string>, k: string, cached: map<string, seq<T>>)
    requires k !in init
    ensures k !in Among(init, cached)
    ensures Among(init + [k], cached) ==
      if ItemsAt(cached, k) != [] then Among(init, cached)[k := cached[k]] else Among(init, cached)
  {
    var ks := init + [k];
    assert forall j :: j in ks <==> j in init || j == k;
  }

  /** Restoring distinct locations files each non-empty cached list under
      its location, the locations in restore order. */
  lemma {:induction false} RestoreRunFiles<T>(ks: seq<string>, cached: map<string, seq<T>>)
    requires Distinct(ks)
    ensures RestoreRun(ks, cached) == Filed(Present(ks, cached), Among(ks, cached))
    decreases |ks|
  {
    if ks == [] {
      assert Among(ks, cached) == map[];
    } else {
      var init, k := ks[..|ks| - 1], ks[|ks| - 1];
      assert ks == init + [k];
      assert Distinct(init);
      RestoreRunFiles(init, cached);
      assert k !in init;
      AmongStep(init, k, cached);
    }
  }

  /** What a scan of the locations `ks` leaves: every location with items
      holds a non-empty list, and the keys come in scan order. */
  predicate ScannedFrom<T>(ks: seq<string>, f: Filed<T>) {
    && (forall k :: k in f.items ==> k in ks && f.items[k] != [])
    && f.order == Present(ks, f.items)
  }

  /** Caching each location's own items and restoring every location
      rebuilds exactly the store the scan built. */
  lemma RestoreRebuildsScan<T>(ks: seq<string>, f: Filed<T>)
    requires Distinct(ks) && ScannedFrom(ks, f)
    ensures RestoreRun(ks, f.items) == f
  {
    RestoreRunFiles(ks, f.items);
    assert Among(ks, f.items) == f.items;
  }

  /** The cache files `store` as written leaves after a scan of two
      locations with one item each: the first holds the first item, the
      second both. Restoring both then files the first item twice. */
  lemma StoredAllDuplicates<T>(k1: string, k2: string, a: T, b: T)
    requires k1 != k2
    ensures var scanned := map[k1 := [a], k2 := [b]];
      var asWritten := map[k1 := Flatten([k1], scanned), k2 := Flatten([k1, k2], scanned)];
      && Flatten([k1, k2], scanned) == [a, b]
      && asWritten[k2] == [a, b]
      && var restored := RestoreRun([k1, k2], asWritten);
         Flatten(restored.order, restored.items) == [a, a, b]
  {
    var scanned := map[k1 := [a], k2 := [b]];
    assert [k1, k2][..1] == [k1];
    assert Flatten([k1], scanned) == [a];
    var asWritten := map[k1 := [a], k2 := [a, b]];
    assert RestoreRun([k1], asWritten) == Filed([k1], map[k1 := [a]]);
    var restored := RestoreRun([k1, k2], asWritten);
    assert restored == Filed([k1, k2], map[k1 := [a], k2 := [a, b]]);
    assert Flatten([k1], restored.items) == [a];
    assert Flatten([k1, k2], restored.items) == [a] + [a, b];
  }
}
