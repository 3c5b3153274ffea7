/** `Picowind\Core\Blocks`: registering the theme's block directories and
    rewriting block metadata so that the theme's blocks get a namespace and
    a render engine. */
module Blocks {
  import opened Php
  import opened Env

  const SupportedNamespaces: seq<string> := ["acf", "blockstudio", "picowind"]
  const SupportedEngines: seq<string> := ["twig", "blade", "php"]

  /** The `render_callback` the acf namespace gets: a static method of the
      AdvancedCustomFields support class, as a PHP callable array. */
  const AcfCallback: Value := List([Str("Picowind\\Supports\\AdvancedCustomFields"), Str("block_render_callback")])

  /** The decoded `block.json` keys the filters look at, all string-valued. */
  type BlockMetadata = map<string, string>

  // ---------------------------------------------------------------------
  // register: collecting block directories

  /** `DirectoryIterator::isDot()`. */
  predicate IsDot(name: string) {
    name == "." || name == ".."
  }

  /** `substr($dir_path, -7) === '/blocks'`. */
  predicate IsBlocksDir(dir: string) {
    EndsWith(dir, "/blocks")
  }

  /** `DirectoryIterator::getPathname()` of an entry. */
  function PathName(dir: string, name: string): string {
    dir + "/" + name
  }

  function BlockJson(path: string): string {
    path + "/block.json"
  }

  /** The entries of one listing that hold a `block.json`, as path names,
      in listing order. */
  function BlockDirs(dir: string, entries: seq<string>, fs: FileSystem): seq<string>
  {
    if entries == [] then []
    else
      var e := entries[|entries| - 1];
      BlockDirs(dir, entries[..|entries| - 1], fs)
        + (if !IsDot(e) && fs.Exists(BlockJson(PathName(dir, e))) then [PathName(dir, e)] else [])
  }

  /** The block directories found in every `/blocks` template directory
      that can be listed, in directory order and then listing order: the
      paths `register` announces with `picowind/blocks/register:before`. */
  function Announced(dirs: seq<string>, listing: map<string, seq<string>>, fs: FileSystem): seq<string>
  {
    if dirs == [] then []
    else
      var d := dirs[|dirs| - 1];
      Announced(dirs[..|dirs| - 1], listing, fs)
        + (if IsBlocksDir(d) && d in listing then BlockDirs(d, listing[d], fs) else [])
  }

  /** The paths a filter lets through, in their original order. */
  function Kept(paths: seq<string>, keep: string -> bool): seq<string>
  {
    if paths == [] then []
    else
      var p := paths[|paths| - 1];
      Kept(paths[..|paths| - 1], keep) + (if keep(p) then [p] else [])
  }

  /** The first `/blocks` directory that cannot be listed: constructing a
      `DirectoryIterator` on it throws `UnexpectedValueException`. */
  function FirstUnlisted(dirs: seq<string>, listing: map<string, seq<string>>): Option<nat> {
    FirstIndex(dirs, Unlisted(listing))
  }

  function Unlisted(listing: map<string, seq<string>>): string -> bool {
    d => IsBlocksDir(d) && d !in listing
  }

  /** The first unlistable directory is the one at `i` when every earlier
      one can be listed. */
  lemma FirstUnlistedAt(dirs: seq<string>, listing: map<string, seq<string>>, i: nat)
    requires i <= |dirs|
    requires forall j :: 0 <= j < i ==> !(IsBlocksDir(dirs[j]) && dirs[j] !in listing)
    requires i < |dirs| ==> IsBlocksDir(dirs[i]) && dirs[i] !in listing
    ensures FirstUnlisted(dirs, listing) == if i < |dirs| then Some(i) else None
  {
    FirstIndexAt(dirs, Unlisted(listing), i);
  }

  lemma AnnouncedSnoc(dirs: seq<string>, i: nat, listing: map<string, seq<string>>, fs: FileSystem)
    requires i < |dirs|
    ensures Announced(dirs[..i + 1], listing, fs) == Announced(dirs[..i], listing, fs)
      + (if IsBlocksDir(dirs[i]) && dirs[i] in listing then BlockDirs(dirs[i], listing[dirs[i]], fs) else [])
  {
    assert dirs[..i + 1][..i] == dirs[..i];
  }

  lemma BlockDirsSnoc(dir: string, entries: seq<string>, k: nat, fs: FileSystem)
    requires k < |entries|
    ensures BlockDirs(dir, entries[..k + 1], fs) == BlockDirs(dir, entries[..k], fs)
      + (if !IsDot(entries[k]) && fs.Exists(BlockJson(PathName(dir, entries[k]))) then [PathName(dir, entries[k])] else [])
  {
    assert entries[..k + 1][..k] == entries[..k];
  }

  lemma KeptSnoc(paths: seq<string>, p: string, keep: string -> bool)
    ensures Kept(paths + [p], keep) == Kept(paths, keep) + (if keep(p) then [p] else [])
  {
    assert (paths + [p])[..|paths|] == paths;
  }

  /** A path is collected from a listing exactly when it names a non-dot
      entry of it holding a `block.json`. */
  lemma {:induction false} BlockDirsMembers(dir: string, entries: seq<string>, fs: FileSystem)
    ensures forall p :: p in BlockDirs(dir, entries, fs) <==>
      exists e :: e in entries && !IsDot(e) && p == PathName(dir, e) && fs.Exists(BlockJson(PathName(dir, e)))
    decreases |entries|
  {
    if entries != [] {
      var init := entries[..|entries| - 1];
      BlockDirsMembers(dir, init, fs);
      assert forall x :: x in entries <==> x in init || x == entries[|entries| - 1];
    }
  }

  /** A path is announced exactly when one of the listed `/blocks`
      directories yields it. */
  lemma {:induction false} AnnouncedMembers(dirs: seq<string>, listing: map<string, seq<string>>, fs: FileSystem)
    ensures forall p :: p in Announced(dirs, listing, fs) <==>
      exists d :: d in dirs && IsBlocksDir(d) && d in listing && p in BlockDirs(d, listing[d], fs)
    decreases |dirs|
  {
    if dirs != [] {
      var init := dirs[..|dirs| - 1];
      AnnouncedMembers(init, listing, fs);
      assert forall x :: x in dirs <==> x in init || x == dirs[|dirs| - 1];
    }
  }

  /** The filter keeps every accepted path as often as it occurs and drops
      every other path. */
  lemma {:induction false} KeptCounts(paths: seq<string>, keep: string -> bool)
    ensures |Kept(paths, keep)| <= |paths|
    ensures forall p :: multiset(Kept(paths, keep))[p] == if keep(p) then multiset(paths)[p] else 0
    decreases |paths|
  {
    if paths != [] {
      var init := paths[..|paths| - 1];
      KeptCounts(init, keep);
      assert paths == init + [paths[|paths| - 1]];
    }
  }

  /** What `register` does: the paths it announces with
      `picowind/blocks/register:before`, the paths it hands to
      `register_block_type`, in order, and the directory whose listing made
      it throw, if any. */
  datatype Registration = Registration(announced: seq<string>, registered: seq<string>, failed: Option<string>)

  /** The inner loop of `register` over one `/blocks` directory's entries,
      extending the announced and collected paths. */
  method CollectListing(dir: string, entries: seq<string>, fs: FileSystem, shouldRegister: string -> bool,
                        announced0: seq<string>, blocks0: seq<string>)
    returns (announced: seq<string>, blocks: seq<string>)
    requires blocks0 == Kept(announced0, shouldRegister)
    ensures announced == announced0 + BlockDirs(dir, entries, fs)
    ensures blocks == Kept(announced, shouldRegister)
  {
    announced, blocks := announced0, blocks0;
    var k := 0;
    while k < |entries|
      invariant k <= |entries|
      invariant announced == announced0 + BlockDirs(dir, entries[..k], fs)
      invariant blocks == Kept(announced, shouldRegister)
    {
      BlockDirsSnoc(dir, entries, k, fs);
      var path := PathName(dir, entries[k]);
      if !IsDot(entries[k]) && fs.Exists(BlockJson(path)) {
        KeptSnoc(announced, path, shouldRegister);
        announced := announced + [path];
        if shouldRegister(path) {
          blocks := blocks + [path];
        }
      }
      k := k + 1;
    }
    assert entries[..k] == entries;
  }

  /** The final loop of `register`: each collected block is registered
      once, in collection order. */
  method RegisterAll(blocks: seq<string>) returns (registered: seq<string>)
    ensures registered == blocks
  {
    registered := [];
    var j := 0;
    while j < |blocks|
      invariant j <= |blocks|
      invariant registered == blocks[..j]
    {
      registered := registered + [blocks[j]];
      j := j + 1;
    }
  }

  /** `Blocks::register`: walk the `/blocks` template directories, announce
      every entry holding a `block.json`, keep those the should-register
      filter accepts and register them in collection order. `listing` is
      what `DirectoryIterator` yields for a directory (a directory missing
      from it cannot be opened and makes the method throw before anything is
      registered); `shouldRegister` is the filter's verdict for a block
      path. */
  method Register(dirs: seq<string>, listing: map<string, seq<string>>, fs: FileSystem, shouldRegister: string -> bool)
    returns (out: Registration)
    ensures FirstUnlisted(dirs, listing).None? ==>
      out.failed.None? && out.announced == Announced(dirs, listing, fs)
      && out.registered == Kept(out.announced, shouldRegister)
    ensures FirstUnlisted(dirs, listing).Some? ==>
      var k := FirstUnlisted(dirs, listing).value;
      out.failed == Some(dirs[k]) && out.announced == Announced(dirs[..k], listing, fs) && out.registered == []
  {
    var blocks: seq<string> := [];
    var announced: seq<string> := [];
    var i := 0;
    while i < |dirs|
      invariant i <= |dirs|
      invariant forall j :: 0 <= j < i ==> !(IsBlocksDir(dirs[j]) && dirs[j] !in listing)
      invariant announced == Announced(dirs[..i], listing, fs)
      invariant blocks == Kept(announced, shouldRegister)
    {
      var dir := dirs[i];
      AnnouncedSnoc(dirs, i, listing, fs);
      if IsBlocksDir(dir) {
        if dir !in listing {
          FirstUnlistedAt(dirs, listing, i);
          return Registration(announced, [], Some(dir));
        }
        announced, blocks := CollectListing(dir, listing[dir], fs, shouldRegister, announced, blocks);
      }
      i := i + 1;
    }
    assert dirs[..i] == dirs;
    FirstUnlistedAt(dirs, listing, i);
    var registered := RegisterAll(blocks);
    return Registration(announced, registered, None);
  }

  /** A registered path is a non-dot entry of a listed `/blocks` template
      directory that holds a `block.json` and that the filter accepts; and
      every such accepted block is registered as often as it was
      announced. */
  lemma RegisteredBlocks(dirs: seq<string>, listing: map<string, seq<string>>, fs: FileSystem, keep: string -> bool, p: string)
    ensures p in Kept(Announced(dirs, listing, fs), keep) <==>
      keep(p) && (exists d, e :: d in dirs && IsBlocksDir(d) && d in listing && e in listing[d]
                                  && !IsDot(e) && p == PathName(d, e) && fs.Exists(BlockJson(p)))
    ensures keep(p) ==>
      multiset(Kept(Announced(dirs, listing, fs), keep))[p] == multiset(Announced(dirs, listing, fs))[p]
  {
    var a := Announced(dirs, listing, fs);
    AnnouncedMembers(dirs, listing, fs);
    KeptCounts(a, keep);
    forall d | d in dirs && IsBlocksDir(d) && d in listing {
      BlockDirsMembers(d, listing[d], fs);
    }
    assert p in Kept(a, keep) <==> multiset(Kept(a, keep))[p] > 0;
    assert p in a <==> multiset(a)[p] > 0;
  }

  // ---------------------------------------------------------------------
  // metadata and metadata_settings

  /** `$metadata['name']`; a missing name reads as the empty string. */
  function NameOf(m: BlockMetadata): string {
    if "name" in m then m["name"] else ""
  }

  /** The first piece of `explode('/', $name, 2)`. */
  function NamespaceOf(name: string): string {
    Explode(name, '/')[0]
  }

  /** Some template directory occurs in the block's file path
      (`strpos($file, $dir) !== false`). */
  predicate InTemplateDirs(file: string, dirs: seq<string>) {
    exists d :: d in dirs && Contains(file, d)
  }

  /** The guards both filters share: the metadata names a file lying in one
      of the theme's template directories. */
  predicate OwnBlock(m: BlockMetadata, dirs: seq<string>) {
    "file" in m && InTemplateDirs(m["file"], dirs)
  }

  /** The metadata after a name without a namespace got `picowind/`. */
  function WithNamespace(m: BlockMetadata, slugify: string -> string): BlockMetadata {
    if Contains(NameOf(m), "/") then m else m["name" := "picowind/" + slugify(NameOf(m))]
  }

  /** `Blocks::metadata`, the `block_type_metadata` filter. `slugify` is
      `name_slugify`. */
  function Metadata(m: BlockMetadata, dirs: seq<string>, slugify: string -> string): (r: BlockMetadata)
    // Metadata of a block outside the theme is returned as it came.
    ensures !OwnBlock(m, dirs) ==> r == m
    // Only `name`, `render` and `renderEngine` can change.
    ensures forall k :: k != "name" && k != "render" && k != "renderEngine" ==>
      (k in r <==> k in m) && (k in m ==> r[k] == m[k])
    // The name changes only by getting the default namespace, and the
    // theme's own blocks always end up with a namespace.
    ensures NameOf(r) == NameOf(m) || (!Contains(NameOf(m), "/") && NameOf(r) == "picowind/" + slugify(NameOf(m)))
    ensures OwnBlock(m, dirs) ==> "name" in r && Contains(r["name"], "/")
    // A block of a foreign namespace is left as it came.
    ensures Contains(NameOf(m), "/") && NamespaceOf(NameOf(m)) !in SupportedNamespaces ==> r == m
    // A block of a supported namespace: `twig` when there is no render
    // key, a render engine moved to `renderEngine`, any other render kept.
    ensures OwnBlock(m, dirs) && NamespaceOf(NameOf(r)) in SupportedNamespaces ==>
      && ("render" !in m ==> "render" !in r && "renderEngine" in r && r["renderEngine"] == "twig")
      && ("render" in m && m["render"] in SupportedEngines ==>
            "render" !in r && "renderEngine" in r && r["renderEngine"] == m["render"])
      && ("render" in m && m["render"] !in SupportedEngines ==>
            r == WithNamespace(m, slugify))
  {
    if !OwnBlock(m, dirs) then m
    else
      var n := WithNamespace(m, slugify);
      NamedBlock(m, slugify);
      var ns := NamespaceOf(n["name"]);
      if ns !in SupportedNamespaces then n
      else if "render" !in n then n["renderEngine" := "twig"]
      else if n["render"] in SupportedEngines then (n - {"render"})["renderEngine" := n["render"]]
      else n
  }

  /** After defaulting, the name has a `/`; a defaulted name lies in the
      `picowind` namespace. */
  lemma NamedBlock(m: BlockMetadata, slugify: string -> string)
    ensures "name" in WithNamespace(m, slugify) && Contains(WithNamespace(m, slugify)["name"], "/")
    ensures !Contains(NameOf(m), "/") ==> NamespaceOf(WithNamespace(m, slugify)["name"]) == "picowind"
  {
    if !Contains(NameOf(m), "/") {
      var slug := slugify(NameOf(m));
      assert "picowind/" + slug == "picowind" + "/" + slug;
      ContainsMiddle("picowind", "/", slug);
      ExplodeHead("picowind", '/', slug);
    }
  }

  /** `Blocks::metadata_settings`, the `block_type_metadata_settings`
      filter: copy a supported `renderEngine` into the settings, with the
      ACF render callback for the acf namespace. */
  function MetadataSettings(s: Context, m: BlockMetadata, dirs: seq<string>): (r: Context)
    ensures forall k :: k != "render_engine" && k != "render_callback" ==>
      (k in r <==> k in s) && (k in s ==> r[k] == s[k])
    ensures !(OwnBlock(m, dirs) && NamespaceOf(NameOf(m)) in SupportedNamespaces
              && "renderEngine" in m && m["renderEngine"] in SupportedEngines) ==>
      r == s
    ensures OwnBlock(m, dirs) && NamespaceOf(NameOf(m)) in SupportedNamespaces
            && "renderEngine" in m && m["renderEngine"] in SupportedEngines ==>
      "render_engine" in r && r["render_engine"] == Str(m["renderEngine"])
      && (NamespaceOf(NameOf(m)) == "acf" ==> "render_callback" in r && r["render_callback"] == AcfCallback)
    // Only the acf namespace gains the callback.
    ensures NamespaceOf(NameOf(m)) != "acf" ==>
      ("render_callback" in r <==> "render_callback" in s)
      && ("render_callback" in s ==> r["render_callback"] == s["render_callback"])
  {
    if !OwnBlock(m, dirs) then s
    else
      var ns := NamespaceOf(NameOf(m));
      if ns !in SupportedNamespaces then s
      else if "renderEngine" in m && m["renderEngine"] in SupportedEngines then
        var withEngine := s["render_engine" := Str(m["renderEngine"])];
        if ns == "acf" then withEngine["render_callback" := AcfCallback] else withEngine
      else s
  }

  /** The two filters together: a theme block of a supported namespace with
      no `render` key is rendered with twig, one naming an engine in
      `render` with that engine, and an acf block also gets the ACF
      callback. A block named without a namespace lands in `picowind`. */
  lemma SettingsAfterMetadata(s: Context, m: BlockMetadata, dirs: seq<string>, slugify: string -> string)
    requires OwnBlock(m, dirs)
    requires !Contains(NameOf(m), "/") || NamespaceOf(NameOf(m)) in SupportedNamespaces
    requires "render" !in m || m["render"] in SupportedEngines
    ensures var r := MetadataSettings(s, Metadata(m, dirs, slugify), dirs);
      && "render_engine" in r
      && r["render_engine"] == Str(if "render" in m then m["render"] else "twig")
      && (NamespaceOf(NameOf(Metadata(m, dirs, slugify))) == "acf" ==> r["render_callback"] == AcfCallback)
  {
    var md := Metadata(m, dirs, slugify);
    NamedBlock(m, slugify);
    assert md["name"] == WithNamespace(m, slugify)["name"];
    assert NamespaceOf(NameOf(md)) in SupportedNamespaces;
    assert md["file"] == m["file"];
  }
}
