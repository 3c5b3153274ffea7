/** `DirectoryScanner`: the recursive walk of a location's directory that
    hands classes and other files to the discoveries. */
module Scanner {
  import opened Php
  import opened Env
  import opened Locations

  /** A directory entry: a directory with its `scandir` listing (`listed`
      is false when `scandir` fails; the listing may hold `.` and `..`), or
      a file with its contents (None when it cannot be read). */
  datatype Entry =
    | Dir(name: string, listed: bool, listing: seq<Entry>)
    | File(name: string, contents: Option<string>)

  /** A discovery as the scanner sees it: whether it also implements
      `DiscoversPath`. */
  datatype Discoverer = Discoverer(discoversPath: bool)

  /** One call the scanner makes: `discover($location, $reflector)` or
      `discoverPath($location, $path)` on the discovery at that index. */
  datatype Event =
    | ClassFound(discovery: nat, className: string)
    | PathFound(discovery: nat, path: string)

  /** What the scanner asks of PHP beyond the directory tree: whether a
      class exists once its file is loaded, and the two regular expressions
      of `extractClassNameFromFile` (the captured namespace of the first
      `namespace ...;`, and whether the contents declare a class, interface,
      trait or enum of a given name). */
  datatype Runtime = Runtime(
    locationRealPath: Option<string>,
    classExists: string -> bool,
    namespaceMatch: string -> Option<string>,
    declares: (string, string) -> bool)

  // ---------------------------------------------------------------------
  // pathinfo()

  /** Index of the last '/' in `s`, if any. */
  function LastIndexOf(s: string, c: char): (r: Option<nat>)
    ensures r.Some? ==> r.value < |s| && s[r.value] == c && c !in s[r.value + 1..]
    ensures r.None? ==> c !in s
  {
    if s == [] then None
    else if s[|s| - 1] == c then Some(|s| - 1)
    else
      var r := LastIndexOf(s[..|s| - 1], c);
      assert s[..|s| - 1] + [s[|s| - 1]] == s;
      r
  }

  /** `pathinfo($path, PATHINFO_BASENAME)` for a path without a trailing '/'. */
  function BaseName(path: string): (b: string)
    ensures '/' !in b
    ensures EndsWith(path, b)
  {
    match LastIndexOf(path, '/')
    case Some(i) => path[i + 1..]
    case None => path
  }

  /** `pathinfo($file)['extension']`: what follows the last '.', if any. */
  function Extension(base: string): Option<string> {
    match LastIndexOf(base, '.')
    case Some(i) => Some(base[i + 1..])
    case None => None
  }

  /** `pathinfo($file)['filename']`: the base name without its extension. */
  function FileName(base: string): string {
    match LastIndexOf(base, '.')
    case Some(i) => base[..i]
    case None => base
  }

  /** `shouldSkipDirectory($path)`. */
  predicate ShouldSkipDirectory(path: string) {
    var directory := BaseName(path);
    StartsWith(directory, ".") || directory == "node_modules" || directory == "vendor"
  }

  /** The class-file test of `scan` (`ucfirst($f) === $f`): a `.php` file
      whose name is its own `ucfirst`. */
  predicate IsClassCandidate(base: string) {
    Extension(base) == Some("php") && UcFirst(FileName(base)) == FileName(base)
  }

  /** A file `<f>.php` is a class candidate exactly when `f` does not start
      with a lower-case letter. */
  lemma ClassCandidateFile(f: string)
    ensures IsClassCandidate(f + ".php") <==> f == [] || !IsLower(f[0])
  {
    var base := f + ".php";
    var d := LastIndexOf(base, '.');
    assert base[|f|] == '.' && base[|f| + 1..] == "php";
    assert d.Some? && d.value == |f|;
    assert base[..|f|] == f;
    assert Extension(base) == Some("php") && FileName(base) == f;
    if f != [] && !IsLower(f[0]) {
      assert UpperChar(f[0]) == f[0];
      assert [f[0]] + f[1..] == f;
    }
    if f != [] && IsLower(f[0]) {
      assert UcFirst(f)[0] != f[0];
    }
  }

  /** `extractClassNameFromFile($filePath)`. */
  function ExtractClassName(rt: Runtime, contents: Option<string>, base: string): (r: Option<string>)
    ensures contents.None? ==> r.None?
    ensures contents.Some? && !rt.declares(contents.value, FileName(base)) ==> r.None?
    ensures contents.Some? && rt.declares(contents.value, FileName(base)) && FileName(base) != [] ==>
      var ns := match rt.namespaceMatch(contents.value) case Some(m) => Trim(m) case None => "";
      r == Some(if ns == "" then FileName(base) else ns + "\\" + FileName(base))
  {
    match contents
    case None => None
    case Some(content) =>
      var namespace := match rt.namespaceMatch(content) case Some(m) => Trim(m) case None => "";
      var className := if rt.declares(content, FileName(base)) then FileName(base) else "";
      if className == "" then None
      else if namespace == "" then Some(className)
      else Some(namespace + "\\" + className)
  }

  /** The class name the scanner tries for a file. */
  function ClassNameFor(rt: Runtime, loc: DiscoveryLocation, input: string, contents: Option<string>): Option<string> {
    if loc.namespace == "" then ExtractClassName(rt, contents, BaseName(input))
    else Some(ToClassName(loc, rt.locationRealPath, input))
  }

  /** One `discover` call per discovery, in order. */
  function ClassEvents(ds: seq<Discoverer>, className: string): (evs: seq<Event>)
    ensures |evs| == |ds|
    ensures forall i :: 0 <= i < |ds| ==> evs[i] == ClassFound(i, className)
  {
    seq(|ds|, i requires 0 <= i < |ds| => ClassFound(i, className))
  }

  /** One `discoverPath` call per discovery that implements `DiscoversPath`,
      in order; the indices of the first `n` discoveries. */
  function PathEventsUpTo(ds: seq<Discoverer>, path: string, n: nat): (evs: seq<Event>)
    requires n <= |ds|
    ensures forall e :: e in evs ==> e.PathFound? && e.path == path && e.discovery < n && ds[e.discovery].discoversPath
    ensures forall i :: 0 <= i < n && ds[i].discoversPath ==> PathFound(i, path) in evs
    ensures forall a, b :: 0 <= a < b < |evs| ==> evs[a].discovery < evs[b].discovery
  {
    if n == 0 then []
    else
      var before := PathEventsUpTo(ds, path, n - 1);
      if ds[n - 1].discoversPath then before + [PathFound(n - 1, path)] else before
  }

  function PathEvents(ds: seq<Discoverer>, path: string): seq<Event> {
    PathEventsUpTo(ds, path, |ds|)
  }

  /** What a file contributes. */
  function FileEvents(ds: seq<Discoverer>, rt: Runtime, loc: DiscoveryLocation, input: string, contents: Option<string>): seq<Event> {
    if IsClassCandidate(BaseName(input)) then
      match ClassNameFor(rt, loc, input, contents)
      case None => []
      case Some(cn) => if rt.classExists(cn) then ClassEvents(ds, cn) else PathEvents(ds, input)
    else PathEvents(ds, input)
  }

  /** A class file whose class exists goes to every discovery, once each,
      and to no path discovery; any other file only to path discoveries. */
  lemma FileRouting(ds: seq<Discoverer>, rt: Runtime, loc: DiscoveryLocation, input: string, contents: Option<string>)
    ensures (IsClassCandidate(BaseName(input)) && ClassNameFor(rt, loc, input, contents).Some? &&
      rt.classExists(ClassNameFor(rt, loc, input, contents).value)) ==>
        FileEvents(ds, rt, loc, input, contents) == ClassEvents(ds, ClassNameFor(rt, loc, input, contents).value)
    ensures !IsClassCandidate(BaseName(input)) ==>
      forall e :: e in FileEvents(ds, rt, loc, input, contents) ==> e.PathFound? && ds[e.discovery].discoversPath
    ensures IsClassCandidate(BaseName(input)) && ClassNameFor(rt, loc, input, contents).None? ==>
      FileEvents(ds, rt, loc, input, contents) == []
  {
  }

  function EntryRank(e: Entry): nat {
    if e.Dir? then |e.listing| + 1 else 0
  }

  /** The calls `scan($location, $input)` makes for the entry at `input`. */
  function ScanEntry(ds: seq<Discoverer>, rt: Runtime, loc: DiscoveryLocation, e: Entry, input: string): seq<Event>
    decreases e, EntryRank(e)
  {
    match e
    case Dir(_, listed, listing) =>
      if ShouldSkipDirectory(input) then []
      else if !listed then []
      else ScanListing(ds, rt, loc, e, |listing|, input)
    case File(_, contents) => FileEvents(ds, rt, loc, input, contents)
  }

  /** The calls made for the first `k` names of a directory's listing. */
  function ScanListing(ds: seq<Discoverer>, rt: Runtime, loc: DiscoveryLocation, dir: Entry, k: nat, input: string): seq<Event>
    requires dir.Dir? && k <= |dir.listing|
    decreases dir, k
  {
    if k == 0 then []
    else ScanListing(ds, rt, loc, dir, k - 1, input) + ChildEvents(ds, rt, loc, dir.listing[k - 1], input)
  }

  /** What one name of a listing contributes: nothing for `.` and `..`,
      otherwise the calls for the entry under `$input/$name`. */
  function ChildEvents(ds: seq<Discoverer>, rt: Runtime, loc: DiscoveryLocation, child: Entry, input: string): seq<Event>
    decreases child, EntryRank(child) + 1
  {
    if child.name == "." || child.name == ".." then []
    else ScanEntry(ds, rt, loc, child, input + "/" + child.name)
  }

  /** One more name of the listing. */
  lemma ListingStep(ds: seq<Discoverer>, rt: Runtime, loc: DiscoveryLocation, dir: Entry, i: nat, input: string)
    requires dir.Dir? && i < |dir.listing|
    ensures var child := dir.listing[i];
      ScanListing(ds, rt, loc, dir, i + 1, input) ==
        ScanListing(ds, rt, loc, dir, i, input) +
        (if child.name == "." || child.name == ".." then [] else ScanEntry(ds, rt, loc, child, input + "/" + child.name))
  {
  }

  /** `scan($location, $path)`: nothing when `realpath` fails. */
  function Scan(ds: seq<Discoverer>, rt: Runtime, loc: DiscoveryLocation, e: Entry, realPath: Option<string>): seq<Event> {
    match realPath
    case None => []
    case Some(input) => ScanEntry(ds, rt, loc, e, input)
  }

  /** Hidden, `node_modules` and `vendor` directories are never entered. */
  lemma SkippedDirectoryIsSilent(ds: seq<Discoverer>, rt: Runtime, loc: DiscoveryLocation, listed: bool, listing: seq<Entry>, parent: string, name: string)
    requires '/' !in name
    requires StartsWith(name, ".") || name == "node_modules" || name == "vendor"
    ensures ScanEntry(ds, rt, loc, Dir(name, listed, listing), parent + "/" + name) == []
  {
    var p := parent + "/" + name;
    var d := LastIndexOf(p, '/');
    assert p[|parent|] == '/';
    assert p[|parent| + 1..] == name;
    assert d.Some? && d.value == |parent|;
  }

  /** `.` and `..` contribute nothing however they are listed. */
  lemma DotEntriesIgnored(ds: seq<Discoverer>, rt: Runtime, loc: DiscoveryLocation, name: string, children: seq<Entry>, dot: Entry, input: string)
    requires dot.name == "." || dot.name == ".."
    ensures ScanListing(ds, rt, loc, Dir(name, true, children + [dot]), |children| + 1, input) ==
      ScanListing(ds, rt, loc, Dir(name, true, children), |children|, input)
  {
    ListingPrefix(ds, rt, loc, name, children, [dot], |children|, input);
  }

  /** The calls for a prefix of a listing do not depend on what follows. */
  lemma {:induction false} ListingPrefix(ds: seq<Discoverer>, rt: Runtime, loc: DiscoveryLocation, name: string, children: seq<Entry>, more: seq<Entry>, k: nat, input: string)
    requires k <= |children|
    ensures ScanListing(ds, rt, loc, Dir(name, true, children + more), k, input) ==
      ScanListing(ds, rt, loc, Dir(name, true, children), k, input)
    decreases k
  {
    if k > 0 {
      assert (children + more)[k - 1] == children[k - 1];
      ListingPrefix(ds, rt, loc, name, children, more, k - 1, input);
    }
  }

  class DirectoryScanner {
    const discoveries: seq<Discoverer>
    /** The discovery calls made so far, in order. */
    var calls: seq<Event>

    constructor (ds: seq<Discoverer>)
      ensures discoveries == ds && calls == []
    {
      discoveries := ds;
      calls := [];
    }

    /** The `foreach ($this->discoveries ...)` loop for a class. */
    method PassClass(className: string)
      modifies this
      ensures calls == old(calls) + ClassEvents(discoveries, className)
    {
      var i := 0;
      while i < |discoveries|
        invariant 0 <= i <= |discoveries|
        invariant calls == old(calls) + ClassEvents(discoveries[..i], className)
      {
        calls := calls + [ClassFound(i, className)];
        i := i + 1;
        assert ClassEvents(discoveries[..i], className) == ClassEvents(discoveries[..i - 1], className) + [ClassFound(i - 1, className)];
      }
      assert discoveries[..i] == discoveries;
    }

    /** The `foreach ($this->discoveries ...)` loop for any other file. */
    method PassPath(path: string)
      modifies this
      ensures calls == old(calls) + PathEvents(discoveries, path)
    {
      var i := 0;
      while i < |discoveries|
        invariant 0 <= i <= |discoveries|
        invariant calls == old(calls) + PathEventsUpTo(discoveries, path, i)
      {
        if discoveries[i].discoversPath {
          calls := calls + [PathFound(i, path)];
        }
        i := i + 1;
      }
    }

    method ScanFile(rt: Runtime, loc: DiscoveryLocation, input: string, contents: Option<string>)
      modifies this
      ensures calls == old(calls) + FileEvents(discoveries, rt, loc, input, contents)
    {
      var base := BaseName(input);
      if Extension(base) == Some("php") && UcFirst(FileName(base)) == FileName(base) {
        var className: Option<string>;
        if loc.namespace == "" {
          className := ExtractClassName(rt, contents, base);
        } else {
          className := Some(ToClassName(loc, rt.locationRealPath, input));
        }
        if className.None? {
          return;
        }
        if rt.classExists(className.value) {
          PassClass(className.value);
          return;
        }
      }
      PassPath(input);
    }

    /** `scan($location, $path)` below the `realpath` step. */
    method ScanAt(rt: Runtime, loc: DiscoveryLocation, e: Entry, input: string)
      modifies this
      ensures calls == old(calls) + ScanEntry(discoveries, rt, loc, e, input)
      decreases e, 2
    {
      if e.File? {
        ScanFile(rt, loc, input, e.contents);
      } else if !ShouldSkipDirectory(input) && e.listed {
        ScanListed(rt, loc, e, input);
      }
    }

    /** The `foreach (scandir($input) ...)` loop of a directory that is
        entered. */
    method ScanListed(rt: Runtime, loc: DiscoveryLocation, e: Entry, input: string)
      requires e.Dir?
      modifies this
      ensures calls == old(calls) + ScanListing(discoveries, rt, loc, e, |e.listing|, input)
      decreases e, 1
    {
      ghost var start := calls;
      var i := 0;
      while i < |e.listing|
        invariant 0 <= i <= |e.listing|
        invariant calls == start + ScanListing(discoveries, rt, loc, e, i, input)
      {
        ghost var done := ScanListing(discoveries, rt, loc, e, i, input);
        ghost var more := ScanChild(rt, loc, e, i, input);
        ListingStep(discoveries, rt, loc, e, i, input);
        ConcatAssoc(start, done, more);
        i := i + 1;
      }
    }

    /** One round of the loop: "." and ".." are passed over, anything else
        is scanned under `$input/$name`. */
    method ScanChild(rt: Runtime, loc: DiscoveryLocation, e: Entry, i: nat, input: string)
        returns (ghost more: seq<Event>)
      requires e.Dir? && i < |e.listing|
      modifies this
      ensures more == (if e.listing[i].name == "." || e.listing[i].name == ".." then []
                       else ScanEntry(discoveries, rt, loc, e.listing[i], input + "/" + e.listing[i].name))
      ensures calls == old(calls) + more
      decreases e, 0
    {
      var sub := e.listing[i];
      more := [];
      if sub.name != "." && sub.name != ".." {
        more := ScanEntry(discoveries, rt, loc, sub, input + "/" + sub.name);
        ScanAt(rt, loc, sub, input + "/" + sub.name);
      }
    }

    method ScanPath(rt: Runtime, loc: DiscoveryLocation, e: Entry, realPath: Option<string>)
      modifies this
      ensures calls == old(calls) + Scan(discoveries, rt, loc, e, realPath)
    {
      if realPath.None? {
        return;
      }
      ScanAt(rt, loc, e, realPath.value);
    }
  }
}
