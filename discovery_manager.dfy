/** `DiscoveryManager`: reads the PSR-4 namespaces of the theme's
    `composer.json` as discovery locations, restores each location from the
    discovery cache or scans its classes and caches them, and finally applies
    the service, hook and command discoveries in that order. */
module Manager {
  import opened Php
  import opened Env
  import opened Locations
  import opened Reflection
  import opened Items
  import opened Containers
  import opened Exceptions
  import opened Cache
  import Services
  import Hooks
  import Commands

  const CorePrefix := "Picowind\\"
  const TestsPrefix := "Picowind\\Tests\\"

  // ---------------------------------------------------------------------
  // initializeDiscoveryLocations

  /** A `psr-4` entry of `composer.json`: its namespace key and its path,
      each `None` where it is not a string (an integer key, a list of
      paths). */
  datatype Psr4Entry = Psr4Entry(namespace: Option<string>, path: Option<string>)

  /** `composer.json` as `json_decode` reads it: each `psr-4` section, or
      `None` where it is missing or not an array. */
  datatype Composer = Composer(autoload: Option<seq<Psr4Entry>>, autoloadDev: Option<seq<Psr4Entry>>)

  /** An entry that becomes a location: string namespace and path, the
      namespace under `prefix`. */
  predicate Qualifies(e: Psr4Entry, prefix: string) {
    e.namespace.Some? && e.path.Some? && StartsWith(e.namespace.value, prefix)
  }

  /** The location of a qualifying entry: its path is taken relative to the
      template directory. */
  function LocationOf(e: Psr4Entry, templateDir: string): DiscoveryLocation
    requires e.namespace.Some? && e.path.Some?
  {
    DiscoveryLocation(e.namespace.value, templateDir + "/" + e.path.value)
  }

  /** The locations of the qualifying entries, in `composer.json` order. */
  function LocationsFrom(entries: seq<Psr4Entry>, prefix: string, templateDir: string): (r: seq<DiscoveryLocation>)
    ensures |r| <= |entries|
    ensures forall i :: 0 <= i < |r| ==> StartsWith(r[i].namespace, prefix)
  {
    if entries == [] then []
    else
      var e := entries[|entries| - 1];
      LocationsFrom(entries[..|entries| - 1], prefix, templateDir) +
      (if Qualifies(e, prefix) then [LocationOf(e, templateDir)] else [])
  }

  /** Every qualifying entry becomes a location. */
  lemma {:induction false} LocationsFromComplete(entries: seq<Psr4Entry>, prefix: string, templateDir: string, i: nat)
    requires i < |entries| && Qualifies(entries[i], prefix)
    ensures LocationOf(entries[i], templateDir) in LocationsFrom(entries, prefix, templateDir)
    decreases |entries|
  {
    if i < |entries| - 1 {
      assert entries[..|entries| - 1][i] == entries[i];
      LocationsFromComplete(entries[..|entries| - 1], prefix, templateDir, i);
    }
  }

  /** The theme's own namespaces; under `WP_DEBUG` also its test
      namespaces from `autoload-dev`. An unreadable or undecodable
      `composer.json` gives none. */
  function DiscoveryLocations(composer: Option<Composer>, debug: bool, templateDir: string): (r: seq<DiscoveryLocation>)
    ensures forall i :: 0 <= i < |r| ==> StartsWith(r[i].namespace, CorePrefix)
  {
    if composer.None? then []
    else
      var core := if composer.value.autoload.Some? then LocationsFrom(composer.value.autoload.value, CorePrefix, templateDir) else [];
      var dev := if debug && composer.value.autoloadDev.Some? then LocationsFrom(composer.value.autoloadDev.value, TestsPrefix, templateDir) else [];
      TestsUnderCore(dev);
      core + dev
  }

  /** The test namespaces lie under the theme's namespace. */
  lemma TestsUnderCore(ls: seq<DiscoveryLocation>)
    requires forall i :: 0 <= i < |ls| ==> StartsWith(ls[i].namespace, TestsPrefix)
    ensures forall i :: 0 <= i < |ls| ==> StartsWith(ls[i].namespace, CorePrefix)
  {
    forall i | 0 <= i < |ls|
      ensures StartsWith(ls[i].namespace, CorePrefix)
    {
      assert ls[i].namespace[..|CorePrefix|] == ls[i].namespace[..|TestsPrefix|][..|CorePrefix|];
    }
  }

  /** `WP_DEBUG` only appends the test locations: the theme's own come
      first either way. */
  lemma DebugAppendsTests(composer: Option<Composer>, templateDir: string)
    ensures var plain := DiscoveryLocations(composer, false, templateDir);
      var debug := DiscoveryLocations(composer, true, templateDir);
      |plain| <= |debug| && debug[..|plain|] == plain
      && forall i :: |plain| <= i < |debug| ==> StartsWith(debug[i].namespace, TestsPrefix)
  {
    if composer.Some? {
      var core := if composer.value.autoload.Some? then LocationsFrom(composer.value.autoload.value, CorePrefix, templateDir) else [];
      assert DiscoveryLocations(composer, false, templateDir) == core + [];
      assert (core + [])[..|core|] == core;
    }
  }

  /** The `foreach` of one `psr-4` section. */
  method CollectLocations(entries: seq<Psr4Entry>, prefix: string, templateDir: string) returns (r: seq<DiscoveryLocation>)
    ensures r == LocationsFrom(entries, prefix, templateDir)
  {
    r := [];
    var i := 0;
    while i < |entries|
      invariant 0 <= i <= |entries|
      invariant r == LocationsFrom(entries[..i], prefix, templateDir)
    {
      assert entries[..i + 1][..i] == entries[..i];
      var e := entries[i];
      if e.namespace.Some? && e.path.Some? && StartsWith(e.namespace.value, prefix) {
        r := r + [DiscoveryLocation(e.namespace.value, templateDir + "/" + e.path.value)];
      }
      i := i + 1;
    }
    assert entries[..i] == entries;
  }

  // ---------------------------------------------------------------------
  // determineCacheStrategy

  /** `determineCacheStrategy()`. */
  function CacheStrategy(debug: bool): (s: Strategy)
    ensures s == Partial <==> debug
    ensures s != Disabled
  {
    if debug then Partial else Full
  }

  // ---------------------------------------------------------------------
  // scanLocation

  /** What loading a class of the classmap gives: not loadable
      (`class_exists` is false), a reflector, or an exception from it. */
  datatype Reflected = Missing | Reflected(info: ClassInfo) | Broken(message: string)

  /** The runtime a discovery run observes: the disk (with `WP_DEBUG`), the
      keys of Composer's classmap in order, class loading and the clock. */
  datatype Runtime = Runtime(disk: Disk, classmap: seq<string>, reflect: string -> Reflected, now: int)

  /** The classmap classes of a location: their names start with the
      namespace without its trailing backslashes. */
  function ClassesIn(classmap: seq<string>, loc: DiscoveryLocation): (r: seq<string>)
    ensures forall i :: 0 <= i < |r| ==> StartsWith(r[i], RTrim(loc.namespace, {'\\'}))
    ensures forall n :: n in classmap && StartsWith(n, RTrim(loc.namespace, {'\\'})) ==> n in r
  {
    if classmap == [] then []
    else
      var n := classmap[|classmap| - 1];
      ClassesIn(classmap[..|classmap| - 1], loc) + (if StartsWith(n, RTrim(loc.namespace, {'\\'})) then [n] else [])
  }

  /** The reflectors of the loadable classes, in classmap order. */
  function Reflectors(names: seq<string>, reflect: string -> Reflected): (r: seq<ClassInfo>)
    ensures |r| <= |names|
  {
    if names == [] then []
    else
      var n := names[|names| - 1];
      Reflectors(names[..|names| - 1], reflect) + (if reflect(n).Reflected? then [reflect(n).info] else [])
  }

  /** The `error_log` lines for classes whose reflector throws, written
      only under `WP_DEBUG`. */
  function Failures(names: seq<string>, reflect: string -> Reflected, debug: bool): (r: seq<string>)
    ensures !debug ==> r == []
    ensures |r| <= |names|
  {
    if names == [] then []
    else
      var n := names[|names| - 1];
      Failures(names[..|names| - 1], reflect, debug) +
      (if debug && reflect(n).Broken? then ["Picowind Discovery Error for " + n + ": " + reflect(n).message] else [])
  }

  /** The classes a scan of the location hands to the discoveries; none
      when the path is not a directory. */
  function ScannedClasses(loc: DiscoveryLocation, rt: Runtime): seq<ClassInfo> {
    if !rt.disk.isDir(loc.path) then [] else Reflectors(ClassesIn(rt.classmap, loc), rt.reflect)
  }

  function ScanFailures(loc: DiscoveryLocation, rt: Runtime): seq<string> {
    if !rt.disk.isDir(loc.path) then [] else Failures(ClassesIn(rt.classmap, loc), rt.reflect, rt.disk.debug)
  }

  /** A class whose reflector throws does not keep the classes after it
      from being scanned. */
  lemma {:induction false} FailureIsolated(names: seq<string>, reflect: string -> Reflected, i: nat, j: nat)
    requires i < j < |names| && reflect(names[i]).Broken? && reflect(names[j]).Reflected?
    ensures reflect(names[j]).info in Reflectors(names, reflect)
    decreases |names|
  {
    if j < |names| - 1 {
      assert names[..|names| - 1][i] == names[i] && names[..|names| - 1][j] == names[j];
      FailureIsolated(names[..|names| - 1], reflect, i, j);
    }
  }

  function ServicesOf(cs: seq<ClassInfo>): seq<Services.ServiceItem> {
    if cs == [] then [] else ServicesOf(cs[..|cs| - 1]) + Services.DiscoveredServices(cs[|cs| - 1])
  }

  function HooksOf(cs: seq<ClassInfo>): seq<Hooks.HookItem> {
    if cs == [] then []
    else
      var c := cs[|cs| - 1];
      HooksOf(cs[..|cs| - 1]) + Hooks.DiscoveredHooks(c.name, KeptMethods(c.name, c.methods))
  }

  function CommandsOf(cs: seq<ClassInfo>): seq<Commands.CommandItem> {
    if cs == [] then [] else CommandsOf(cs[..|cs| - 1]) + Commands.DiscoveredCommands(cs[|cs| - 1])
  }

  /** What a scan of the location makes the three discoveries find. */
  function ScanSnapshot(loc: DiscoveryLocation, rt: Runtime): Snapshot {
    var cs := ScannedClasses(loc, rt);
    Snapshot(ServicesOf(cs), HooksOf(cs), CommandsOf(cs))
  }

  /** `array_keys` of the classmap filtered to the location. */
  method FilterClassmap(classmap: seq<string>, loc: DiscoveryLocation) returns (r: seq<string>)
    ensures r == ClassesIn(classmap, loc)
  {
    var prefix := RTrim(loc.namespace, {'\\'});
    r := [];
    var i := 0;
    while i < |classmap|
      invariant 0 <= i <= |classmap|
      invariant r == ClassesIn(classmap[..i], loc)
    {
      assert classmap[..i + 1][..i] == classmap[..i];
      if StartsWith(classmap[i], prefix) {
        r := r + [classmap[i]];
      }
      i := i + 1;
    }
    assert classmap[..i] == classmap;
  }

  // ---------------------------------------------------------------------
  // runDiscovery

  /** What happened to a location: restored from the cache with the
      snapshot read back, or scanned (and cached) with what the scan
      found. */
  datatype Event = Restored(loc: DiscoveryLocation, found: Snapshot) | Scanned(loc: DiscoveryLocation, found: Snapshot)

  /** Everything the events made the discoveries find, in order. */
  function Found(events: seq<Event>): Snapshot {
    if events == [] then Snapshot([], [], [])
    else
      var before := Found(events[..|events| - 1]);
      var last := events[|events| - 1].found;
      Snapshot(before.services + last.services, before.hooks + last.hooks, before.commands + last.commands)
  }

  /** The error lines of the scanned locations. */
  function ScanLog(events: seq<Event>, rt: Runtime): seq<string> {
    if events == [] then []
    else
      var e := events[|events| - 1];
      ScanLog(events[..|events| - 1], rt) + (if e.Scanned? then ScanFailures(e.loc, rt) else [])
  }

  /** One event per location, in location order, each location either
      restored or scanned: a scan finds what `ScanSnapshot` says. */
  predicate Chronicle(events: seq<Event>, locations: seq<DiscoveryLocation>, rt: Runtime) {
    && |events| == |locations|
    && forall i :: 0 <= i < |events| ==>
         events[i].loc == locations[i] && (events[i].Scanned? ==> events[i].found == ScanSnapshot(locations[i], rt))
  }

  /** One more location's event extends the chronicle, what was found and
      the error lines. */
  lemma EventSnoc(events: seq<Event>, locations: seq<DiscoveryLocation>, i: nat, e: Event, rt: Runtime)
    requires i < |locations| && Chronicle(events, locations[..i], rt)
    requires e.loc == locations[i] && (e.Scanned? ==> e.found == ScanSnapshot(locations[i], rt))
    ensures Chronicle(events + [e], locations[..i + 1], rt)
    ensures Found(events + [e]) ==
      Snapshot(Found(events).services + e.found.services, Found(events).hooks + e.found.hooks,
               Found(events).commands + e.found.commands)
    ensures ScanLog(events + [e], rt) == ScanLog(events, rt) + (if e.Scanned? then ScanFailures(e.loc, rt) else [])
  {
    assert (events + [e])[..|events|] == events;
    assert locations[..i + 1] == locations[..i] + [locations[i]];
  }

  /** `add` of every item, in order. */
  method AddEach<T>(store: DiscoveryItems<T>, loc: DiscoveryLocation, xs: seq<T>)
    requires store.Valid()
    modifies store
    ensures store.Valid() && store.added == old(store.added) + xs
  {
    var i := 0;
    while i < |xs|
      invariant 0 <= i <= |xs|
      invariant store.Valid() && store.added == old(store.added) + xs[..i]
    {
      assert xs[..i + 1] == xs[..i] + [xs[i]];
      store.Add(loc, xs[i]);
      i := i + 1;
    }
    assert xs[..i] == xs;
  }

  /** `restoreFromCache` once the snapshot is read: each discovery's
      cached items, when there are any, are added under the location. */
  method AddSnapshot(s: DiscoveryItems<Services.ServiceItem>, h: DiscoveryItems<Hooks.HookItem>,
                     m: DiscoveryItems<Commands.CommandItem>, loc: DiscoveryLocation, snap: Snapshot)
    requires s.Valid() && h.Valid() && m.Valid()
    modifies s, h, m
    ensures s.Valid() && h.Valid() && m.Valid()
    ensures s.added == old(s.added) + snap.services && h.added == old(h.added) + snap.hooks
    ensures m.added == old(m.added) + snap.commands
  {
    if snap.services != [] {
      AddEach(s, loc, snap.services);
    }
    if snap.hooks != [] {
      AddEach(h, loc, snap.hooks);
    }
    if snap.commands != [] {
      AddEach(m, loc, snap.commands);
    }
  }

  /** The item stores of the three discoveries are valid. */
  ghost predicate Stores(sd: Services.ServiceDiscovery, hd: Hooks.HookDiscovery, cd: Commands.CommandDiscovery)
    reads sd, hd, cd, sd.discoveryItems, hd.discoveryItems, cd.discoveryItems
  {
    sd.discoveryItems.Valid() && hd.discoveryItems.Valid() && cd.discoveryItems.Valid()
  }

  /** One more class that loads adds what each discovery finds in it. */
  lemma ServicesStep(names: seq<string>, i: nat, reflect: string -> Reflected)
    requires i < |names| && reflect(names[i]).Reflected?
    ensures ServicesOf(Reflectors(names[..i + 1], reflect)) ==
      ServicesOf(Reflectors(names[..i], reflect)) + Services.DiscoveredServices(reflect(names[i]).info)
  {
    var before := Reflectors(names[..i], reflect);
    assert names[..i + 1][..i] == names[..i];
    assert Reflectors(names[..i + 1], reflect) == before + [reflect(names[i]).info];
    assert (before + [reflect(names[i]).info])[..|before|] == before;
  }

  lemma HooksStep(names: seq<string>, i: nat, reflect: string -> Reflected)
    requires i < |names| && reflect(names[i]).Reflected?
    ensures var c := reflect(names[i]).info;
      HooksOf(Reflectors(names[..i + 1], reflect)) ==
      HooksOf(Reflectors(names[..i], reflect)) + Hooks.DiscoveredHooks(c.name, KeptMethods(c.name, c.methods))
  {
    var before := Reflectors(names[..i], reflect);
    assert names[..i + 1][..i] == names[..i];
    assert Reflectors(names[..i + 1], reflect) == before + [reflect(names[i]).info];
    assert (before + [reflect(names[i]).info])[..|before|] == before;
  }

  lemma CommandsStep(names: seq<string>, i: nat, reflect: string -> Reflected)
    requires i < |names| && reflect(names[i]).Reflected?
    ensures CommandsOf(Reflectors(names[..i + 1], reflect)) ==
      CommandsOf(Reflectors(names[..i], reflect)) + Commands.DiscoveredCommands(reflect(names[i]).info)
  {
    var before := Reflectors(names[..i], reflect);
    assert names[..i + 1][..i] == names[..i];
    assert Reflectors(names[..i + 1], reflect) == before + [reflect(names[i]).info];
    assert (before + [reflect(names[i]).info])[..|before|] == before;
  }

  /** `scanLocation`'s loop over the classmap classes of the location:
      what the discoveries find and the `error_log` lines. */
  method ScanClasses(sd: Services.ServiceDiscovery, hd: Hooks.HookDiscovery, cd: Commands.CommandDiscovery,
                     loc: DiscoveryLocation, names: seq<string>, reflect: string -> Reflected, debug: bool)
    returns (log: seq<string>)
    requires Stores(sd, hd, cd)
    modifies sd.discoveryItems, hd.discoveryItems, cd.discoveryItems
    ensures Stores(sd, hd, cd)
    ensures sd.discoveryItems.added == old(sd.discoveryItems.added) + ServicesOf(Reflectors(names, reflect))
    ensures hd.discoveryItems.added == old(hd.discoveryItems.added) + HooksOf(Reflectors(names, reflect))
    ensures cd.discoveryItems.added == old(cd.discoveryItems.added) + CommandsOf(Reflectors(names, reflect))
    ensures log == Failures(names, reflect, debug)
  {
    ghost var s0, h0, c0 := sd.discoveryItems.added, hd.discoveryItems.added, cd.discoveryItems.added;
    log := [];
    var i := 0;
    while i < |names|
      invariant 0 <= i <= |names|
      invariant Stores(sd, hd, cd)
      invariant sd.discoveryItems.added == s0 + ServicesOf(Reflectors(names[..i], reflect))
      invariant hd.discoveryItems.added == h0 + HooksOf(Reflectors(names[..i], reflect))
      invariant cd.discoveryItems.added == c0 + CommandsOf(Reflectors(names[..i], reflect))
      invariant log == Failures(names[..i], reflect, debug)
    {
      log := ScanNext(sd, hd, cd, loc, names, i, reflect, debug, s0, h0, c0, log);
      i := i + 1;
    }
    assert names[..i] == names;
  }

  /** How one more class of the classmap changes the reflectors and the
      error lines. */
  lemma NotLoaded(names: seq<string>, i: nat, reflect: string -> Reflected, debug: bool)
    requires i < |names|
    ensures !reflect(names[i]).Reflected? ==> Reflectors(names[..i + 1], reflect) == Reflectors(names[..i], reflect)
    ensures !reflect(names[i]).Broken? ==> Failures(names[..i + 1], reflect, debug) == Failures(names[..i], reflect, debug)
    ensures reflect(names[i]).Broken? ==>
      Failures(names[..i + 1], reflect, debug) == Failures(names[..i], reflect, debug) +
      (if debug then ["Picowind Discovery Error for " + names[i] + ": " + reflect(names[i]).message] else [])
  {
    assert names[..i + 1][..i] == names[..i];
  }

  /** One class of `scanLocation`'s loop: skipped when it cannot be loaded,
      logged under `WP_DEBUG` when its reflector throws, otherwise handed to
      every discovery. */
  method ScanNext(sd: Services.ServiceDiscovery, hd: Hooks.HookDiscovery, cd: Commands.CommandDiscovery,
                  loc: DiscoveryLocation, names: seq<string>, i: nat, reflect: string -> Reflected, debug: bool,
                  ghost s0: seq<Services.ServiceItem>, ghost h0: seq<Hooks.HookItem>,
                  ghost c0: seq<Commands.CommandItem>, log0: seq<string>)
    returns (log: seq<string>)
    requires i < |names| && Stores(sd, hd, cd)
    requires sd.discoveryItems.added == s0 + ServicesOf(Reflectors(names[..i], reflect))
    requires hd.discoveryItems.added == h0 + HooksOf(Reflectors(names[..i], reflect))
    requires cd.discoveryItems.added == c0 + CommandsOf(Reflectors(names[..i], reflect))
    requires log0 == Failures(names[..i], reflect, debug)
    modifies sd.discoveryItems, hd.discoveryItems, cd.discoveryItems
    ensures Stores(sd, hd, cd)
    ensures sd.discoveryItems.added == s0 + ServicesOf(Reflectors(names[..i + 1], reflect))
    ensures hd.discoveryItems.added == h0 + HooksOf(Reflectors(names[..i + 1], reflect))
    ensures cd.discoveryItems.added == c0 + CommandsOf(Reflectors(names[..i + 1], reflect))
    ensures log == Failures(names[..i + 1], reflect, debug)
  {
    if reflect(names[i]).Reflected? {
      var c := reflect(names[i]).info;
      ghost var sa, ha, ca := sd.discoveryItems.added, hd.discoveryItems.added, cd.discoveryItems.added;
      LoadClass(sd, hd, cd, loc, c);
      ServicesStep(names, i, reflect);
      HooksStep(names, i, reflect);
      CommandsStep(names, i, reflect);
      ConcatAssoc(s0, ServicesOf(Reflectors(names[..i], reflect)), Services.DiscoveredServices(c));
      ConcatAssoc(h0, HooksOf(Reflectors(names[..i], reflect)), Hooks.DiscoveredHooks(c.name, KeptMethods(c.name, c.methods)));
      ConcatAssoc(c0, CommandsOf(Reflectors(names[..i], reflect)), Commands.DiscoveredCommands(c));
      NotLoaded(names, i, reflect, debug);
      log := log0;
    } else {
      log := SkipClass(names, i, reflect, debug, log0);
      NotLoaded(names, i, reflect, debug);
    }
  }

  /** A class that does not load: no discovery sees it, and under
      `WP_DEBUG` a reflector that throws is logged. */
  method SkipClass(names: seq<string>, i: nat, reflect: string -> Reflected, debug: bool, log0: seq<string>)
    returns (log: seq<string>)
    requires i < |names| && !reflect(names[i]).Reflected?
    requires log0 == Failures(names[..i], reflect, debug)
    ensures log == Failures(names[..i + 1], reflect, debug)
  {
    NotLoaded(names, i, reflect, debug);
    log := log0;
    match reflect(names[i])
    case Missing =>
    case Broken(message) =>
      if debug {
        log := log + ["Picowind Discovery Error for " + names[i] + ": " + message];
      }
  }

  /** A class that loads: every discovery's `discover`. */
  method LoadClass(sd: Services.ServiceDiscovery, hd: Hooks.HookDiscovery, cd: Commands.CommandDiscovery,
                   loc: DiscoveryLocation, c: ClassInfo)
    requires Stores(sd, hd, cd)
    modifies sd.discoveryItems, hd.discoveryItems, cd.discoveryItems
    ensures Stores(sd, hd, cd)
    ensures sd.discoveryItems.added == old(sd.discoveryItems.added) + Services.DiscoveredServices(c)
    ensures hd.discoveryItems.added == old(hd.discoveryItems.added) + Hooks.DiscoveredHooks(c.name, KeptMethods(c.name, c.methods))
    ensures cd.discoveryItems.added == old(cd.discoveryItems.added) + Commands.DiscoveredCommands(c)
  {
    sd.Discover(loc, c);
    hd.Discover(loc, c);
    cd.Discover(loc, c);
  }

  /** `scanLocation($location)`: nothing when the path is not a
      directory. */
  method ScanLocation(sd: Services.ServiceDiscovery, hd: Hooks.HookDiscovery, cd: Commands.CommandDiscovery,
                      loc: DiscoveryLocation, rt: Runtime) returns (log: seq<string>)
    requires Stores(sd, hd, cd)
    modifies sd.discoveryItems, hd.discoveryItems, cd.discoveryItems
    ensures Stores(sd, hd, cd)
    ensures sd.discoveryItems.added == old(sd.discoveryItems.added) + ScanSnapshot(loc, rt).services
    ensures hd.discoveryItems.added == old(hd.discoveryItems.added) + ScanSnapshot(loc, rt).hooks
    ensures cd.discoveryItems.added == old(cd.discoveryItems.added) + ScanSnapshot(loc, rt).commands
    ensures log == ScanFailures(loc, rt)
  {
    if !rt.disk.isDir(loc.path) {
      return [];
    }
    var names := FilterClassmap(rt.classmap, loc);
    log := ScanClasses(sd, hd, cd, loc, names, rt.reflect, rt.disk.debug);
  }

  /** `isLocationCached`, then `restoreFromCache`, or `scanLocation` and
      `cacheLocation`. */
  method ProcessLocation(c: DiscoveryCache, sd: Services.ServiceDiscovery, hd: Hooks.HookDiscovery,
                         cd: Commands.CommandDiscovery, loc: DiscoveryLocation, rt: Runtime)
    returns (e: Event, log: seq<string>)
    requires Stores(sd, hd, cd)
    modifies c, sd.discoveryItems, hd.discoveryItems, cd.discoveryItems
    ensures Stores(sd, hd, cd)
    ensures e.loc == loc && (e.Scanned? ==> e.found == ScanSnapshot(loc, rt))
    ensures sd.discoveryItems.added == old(sd.discoveryItems.added) + e.found.services
    ensures hd.discoveryItems.added == old(hd.discoveryItems.added) + e.found.hooks
    ensures cd.discoveryItems.added == old(cd.discoveryItems.added) + e.found.commands
    ensures log == (if e.Scanned? then ScanFailures(loc, rt) else [])
    ensures e.Restored? <==> c.Restored(old(c.files), loc, rt.disk).0.Some?
    ensures e.Restored? ==> Some(e.found) == c.Restored(old(c.files), loc, rt.disk).0
    ensures e.Restored? ==> c.files == c.Restored(old(c.files), loc, rt.disk).1
    ensures e.Scanned? && c.IsEnabled() ==> c.FileName(loc) in c.files
  {
    ghost var files0 := c.files;
    var cached := c.Restore(loc, rt.disk);
    if cached.Some? {
      c.RestoreTwice(files0, loc, rt.disk);
      var again := c.Restore(loc, rt.disk);
      AddSnapshot(sd.discoveryItems, hd.discoveryItems, cd.discoveryItems, loc, again.value);
      e := Restored(loc, again.value);
      log := [];
    } else {
      log := ScanLocation(sd, hd, cd, loc, rt);
      c.Store(loc, sd.discoveryItems, hd.discoveryItems, cd.discoveryItems, rt.now);
      e := Scanned(loc, ScanSnapshot(loc, rt));
    }
  }

  /** `runDiscovery`'s loop over the locations. */
  method ProcessAll(c: DiscoveryCache, sd: Services.ServiceDiscovery, hd: Hooks.HookDiscovery,
                    cd: Commands.CommandDiscovery, locations: seq<DiscoveryLocation>, rt: Runtime)
    returns (events: seq<Event>, log: seq<string>)
    requires Stores(sd, hd, cd)
    modifies c, sd.discoveryItems, hd.discoveryItems, cd.discoveryItems
    ensures Stores(sd, hd, cd)
    ensures Chronicle(events, locations, rt)
    ensures sd.discoveryItems.added == old(sd.discoveryItems.added) + Found(events).services
    ensures hd.discoveryItems.added == old(hd.discoveryItems.added) + Found(events).hooks
    ensures cd.discoveryItems.added == old(cd.discoveryItems.added) + Found(events).commands
    ensures log == ScanLog(events, rt)
  {
    ghost var s0, h0, c0 := sd.discoveryItems.added, hd.discoveryItems.added, cd.discoveryItems.added;
    events, log := [], [];
    var i := 0;
    while i < |locations|
      invariant 0 <= i <= |locations|
      invariant Stores(sd, hd, cd)
      invariant Chronicle(events, locations[..i], rt)
      invariant sd.discoveryItems.added == s0 + Found(events).services
      invariant hd.discoveryItems.added == h0 + Found(events).hooks
      invariant cd.discoveryItems.added == c0 + Found(events).commands
      invariant log == ScanLog(events, rt)
    {
      events, log := ProcessNext(c, sd, hd, cd, locations, i, rt, s0, h0, c0, events, log);
      i := i + 1;
    }
    assert locations[..i] == locations;
  }

  /** One location of `runDiscovery`'s loop. */
  method ProcessNext(c: DiscoveryCache, sd: Services.ServiceDiscovery, hd: Hooks.HookDiscovery,
                     cd: Commands.CommandDiscovery, locations: seq<DiscoveryLocation>, i: nat, rt: Runtime,
                     ghost s0: seq<Services.ServiceItem>, ghost h0: seq<Hooks.HookItem>,
                     ghost c0: seq<Commands.CommandItem>, events0: seq<Event>, log0: seq<string>)
    returns (events: seq<Event>, log: seq<string>)
    requires i < |locations| && Stores(sd, hd, cd)
    requires Chronicle(events0, locations[..i], rt)
    requires sd.discoveryItems.added == s0 + Found(events0).services
    requires hd.discoveryItems.added == h0 + Found(events0).hooks
    requires cd.discoveryItems.added == c0 + Found(events0).commands
    requires log0 == ScanLog(events0, rt)
    modifies c, sd.discoveryItems, hd.discoveryItems, cd.discoveryItems
    ensures Stores(sd, hd, cd)
    ensures Chronicle(events, locations[..i + 1], rt)
    ensures sd.discoveryItems.added == s0 + Found(events).services
    ensures hd.discoveryItems.added == h0 + Found(events).hooks
    ensures cd.discoveryItems.added == c0 + Found(events).commands
    ensures log == ScanLog(events, rt)
  {
    var e, lines := ProcessLocation(c, sd, hd, cd, locations[i], rt);
    EventSnoc(events0, locations, i, e, rt);
    ConcatAssoc(s0, Found(events0).services, e.found.services);
    ConcatAssoc(h0, Found(events0).hooks, e.found.hooks);
    ConcatAssoc(c0, Found(events0).commands, e.found.commands);
    events, log := events0 + [e], log0 + lines;
  }

  /** The three discoveries, in the order `initializeDiscoveries` lists
      them. */
  datatype Discoveries = Discoveries(services: Services.ServiceDiscovery, hooks: Hooks.HookDiscovery,
                                     commands: Commands.CommandDiscovery)

  class DiscoveryManager {
    const container: Container
    var locations: seq<DiscoveryLocation>
    var discoveries: Option<Discoveries>
    var cache: Option<DiscoveryCache>
    /** What `runDiscovery` did, location by location. */
    var events: seq<Event>
    /** The `error_log` lines written so far. */
    var errorLog: seq<string>

    constructor (c: Container)
      ensures container == c && locations == [] && discoveries.None? && cache.None?
      ensures events == [] && errorLog == []
    {
      container := c;
      locations := [];
      discoveries := None;
      cache := None;
      events := [];
      errorLog := [];
    }

    /** `discover()`: the locations of `composer.json`, fresh discoveries
        and cache, every location restored or scanned, then every
        discovery applied. `WP_DEBUG` is the runtime's. */
    method Discover(composer: Option<Composer>, templateDir: string, uploadsBase: string, hash: string -> string,
                    files: map<string, CacheFile>, rt: Runtime, cls: Services.Classes)
      returns (d: Discoveries, ghost run: seq<Event>, err: Option<Exception>)
      modifies this, container
      ensures locations == old(locations) + DiscoveryLocations(composer, rt.disk.debug, templateDir)
      ensures discoveries == Some(d) && fresh(d.services) && fresh(d.hooks) && fresh(d.commands)
      ensures cache.Some? && cache.value.strategy == CacheStrategy(rt.disk.debug)
      ensures events == old(events) + run && Chronicle(run, locations, rt)
      ensures errorLog == old(errorLog) + ScanLog(run, rt)
      ensures Stores(d.services, d.hooks, d.commands)
      ensures d.services.discoveryItems.added == Found(run).services
      ensures d.hooks.discoveryItems.added == Found(run).hooks
      ensures d.commands.discoveryItems.added == Found(run).commands
      ensures err.Some? <==>
        old(container.compiled) && Services.Arrays(Flatten(d.services.discoveryItems.order, d.services.discoveryItems.items)) != []
      ensures err.None? ==> d.hooks.hooks == Hooks.Records(Flatten(d.hooks.discoveryItems.order, d.hooks.discoveryItems.items))
      ensures err.None? ==> d.commands.commands == Commands.Arrays(Flatten(d.commands.discoveryItems.order, d.commands.discoveryItems.items))
    {
      InitializeDiscoveryLocations(composer, rt.disk.debug, templateDir);
      d := InitializeDiscoveries(rt.disk.debug, uploadsBase, hash, files);
      run := RunDiscovery(d, rt);
      err := ApplyDiscoveries(d, cls);
    }

    /** `clear_cache()`: the cache's `clear()`, once `discover` has made a
        cache. */
    method ClearCache(dirExists: bool)
      modifies if cache.Some? then {cache.value} else {}
      ensures cache.Some? && dirExists ==>
        cache.value.files == map f | f in old(cache.value.files) && !cache.value.Globbed(f) :: old(cache.value.files)[f]
      ensures cache.Some? && !dirExists ==> cache.value.files == old(cache.value.files)
    {
      if cache.Some? {
        cache.value.Clear(dirExists);
      }
    }

    /** `initializeDiscoveryLocations()`. */
    method InitializeDiscoveryLocations(composer: Option<Composer>, debug: bool, templateDir: string)
      modifies this
      ensures locations == old(locations) + DiscoveryLocations(composer, debug, templateDir)
      ensures discoveries == old(discoveries) && cache == old(cache) && events == old(events)
      ensures errorLog == old(errorLog)
    {
      if composer.None? {
        return;
      }
      var core: seq<DiscoveryLocation> := [];
      if composer.value.autoload.Some? {
        core := CollectLocations(composer.value.autoload.value, CorePrefix, templateDir);
      }
      var dev: seq<DiscoveryLocation> := [];
      if debug && composer.value.autoloadDev.Some? {
        dev := CollectLocations(composer.value.autoloadDev.value, TestsPrefix, templateDir);
      }
      ConcatAssoc(locations, core, dev);
      locations := locations + core + dev;
    }

    /** `initializeDiscoveries()`: the cache with the strategy for
        `WP_DEBUG`, then the Service, Hook and Command discoveries on this
        manager's container. */
    method InitializeDiscoveries(debug: bool, uploadsBase: string, hash: string -> string,
                                 files: map<string, CacheFile>) returns (d: Discoveries)
      modifies this
      ensures discoveries == Some(d) && cache.Some? && Stores(d.services, d.hooks, d.commands)
      ensures d.services.container == container && d.hooks.container == container
      ensures d.commands.container == container
      ensures fresh(d.services) && fresh(d.hooks) && fresh(d.commands)
      ensures fresh(d.services.discoveryItems) && fresh(d.hooks.discoveryItems) && fresh(d.commands.discoveryItems)
      ensures d.services.discoveryItems.added == [] && d.hooks.discoveryItems.added == []
      ensures d.commands.discoveryItems.added == [] && d.hooks.hooks == [] && d.commands.commands == []
      ensures fresh(cache.value) && cache.value.strategy == CacheStrategy(debug) && cache.value.files == files
      ensures cache.value.IsEnabled()
      ensures locations == old(locations) && events == old(events) && errorLog == old(errorLog)
    {
      var c := new DiscoveryCache(CacheStrategy(debug), uploadsBase, hash, files);
      cache := Some(c);
      var s := new Services.ServiceDiscovery(container);
      var h := new Hooks.HookDiscovery(container);
      var m := new Commands.CommandDiscovery(container);
      d := Discoveries(s, h, m);
      discoveries := Some(d);
    }

    /** `runDiscovery()`: every location, in order, restored or scanned;
        `run` is what happened to each. */
    method RunDiscovery(d: Discoveries, rt: Runtime) returns (ghost run: seq<Event>)
      requires discoveries == Some(d) && cache.Some? && Stores(d.services, d.hooks, d.commands)
      modifies this, cache.value, d.services.discoveryItems, d.hooks.discoveryItems, d.commands.discoveryItems
      ensures discoveries == old(discoveries) && cache == old(cache) && Stores(d.services, d.hooks, d.commands)
      ensures locations == old(locations)
      ensures events == old(events) + run && Chronicle(run, locations, rt)
      ensures d.services.discoveryItems.added == old(d.services.discoveryItems.added) + Found(run).services
      ensures d.hooks.discoveryItems.added == old(d.hooks.discoveryItems.added) + Found(run).hooks
      ensures d.commands.discoveryItems.added == old(d.commands.discoveryItems.added) + Found(run).commands
      ensures errorLog == old(errorLog) + ScanLog(run, rt)
    {
      var evs, log := ProcessAll(cache.value, d.services, d.hooks, d.commands, locations, rt);
      events := events + evs;
      errorLog := errorLog + log;
      run := evs;
    }

    /** `applyDiscoveries()`: Service, then Hook, then Command; an exception
        from the service registrations ends the run there. */
    method ApplyDiscoveries(d: Discoveries, cls: Services.Classes) returns (err: Option<Exception>)
      requires discoveries == Some(d) && Stores(d.services, d.hooks, d.commands)
      requires d.services.container == container
      modifies this, container, d.hooks, d.commands
      ensures d.hooks.discoveryItems == old(d.hooks.discoveryItems)
      ensures d.commands.discoveryItems == old(d.commands.discoveryItems)
      ensures Stores(d.services, d.hooks, d.commands)
      ensures locations == old(locations) && events == old(events) && errorLog == old(errorLog)
      ensures discoveries == old(discoveries) && cache == old(cache)
      ensures err.Some? <==>
        old(container.compiled) && Services.Arrays(Flatten(d.services.discoveryItems.order, d.services.discoveryItems.items)) != []
      ensures err.None? ==> d.hooks.hooks == old(d.hooks.hooks) + Hooks.Records(Flatten(d.hooks.discoveryItems.order, d.hooks.discoveryItems.items))
      ensures err.None? ==> d.commands.commands == old(d.commands.commands) + Commands.Arrays(Flatten(d.commands.discoveryItems.order, d.commands.discoveryItems.items))
      ensures err.Some? ==> d.hooks.hooks == old(d.hooks.hooks) && d.commands.commands == old(d.commands.commands)
    {
      ghost var hooksFound := Flatten(d.hooks.discoveryItems.order, d.hooks.discoveryItems.items);
      ghost var commandsFound := Flatten(d.commands.discoveryItems.order, d.commands.discoveryItems.items);
      err := d.services.Apply(cls);
      if err.Some? {
        return;
      }
      d.hooks.Apply();
      assert Flatten(d.hooks.discoveryItems.order, d.hooks.discoveryItems.items) == hooksFound;
      d.commands.Apply();
    }
  }
}
