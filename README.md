# Picowind, modelled in Dafny

Picowind is a WordPress theme written in PHP. This project models the parts of it that decide things, with WordPress, the filesystem, PHP reflection and the template engines replaced by values and function parameters. The model covers:

- **Template lookup.** `Template` picks the engine for a `.?` template. `Blade`, `Php` and `Latte` find the first template that exists. Latte's `MultiDirectoryLoader` normalises paths and searches its directories. The page scripts (`index.php`, `archive.php`, `single.php`, `page.php`) list the template candidates.
- **The discovery registry.** It scans the theme's classes, reads their attributes and wires them up: `DiscoveryItems`, `DiscoveryLocation`, `DirectoryScanner`, `ClassReflector`, and the hook, controller, command and service discoveries. `DiscoveryCache` and `DiscoveryManager` decide between a cached run and a scan.
- **The container.** Its `compiled` flag is one-way: after compilation the container refuses to change, and reads compile it first.
- **Blocks.** `Blocks` and `AdvancedCustomFields` find block directories and rewrite block metadata.
- **Onboarding and child themes.** This covers the REST controller's helpers (tag parsing, slugs, matching plugins and themes, the plugin catalog guards) and the child-theme extraction on theme activation.
- **Small support classes.** These are `OmniIconSupport`, `DaisyUI`, `Shortcode` and the theme's exceptions.

The project has one Dafny module per source file. Two shared modules sit underneath:

- `Php` holds the PHP built-ins the theme relies on (`explode`, `implode`, `str_replace`, `trim`, truthiness of strings, ...).
- `Env` holds the abstract environment: the filesystem, context values, and first-match search.

Objects whose fields the PHP code updates (the container, the discovery classes, the scanner, the Latte loader, the WordPress site the child-theme code switches) are Dafny classes. Their methods carry `modifies` clauses and loops with invariants, and are proved against specification functions. Pure helpers are functions with lemmas.

## Model

| member | source | states |
|---|---|---|
| Containers.Container.constructor | src/Core/Container/Container.php:19-24 | A new container is not compiled. It holds the theme directory, theme URL and version parameters, a synthetic public `wpdb` definition, and `ContainerInterface` aliased to the container itself. |
| Containers.Container.Register | src/Core/Container/Container.php:44-58 | Once compiled: a RuntimeException and no change. Before: a new definition under the id that is autowired, autoconfigured, public and shared, with nothing else changed. |
| Containers.Container.Alias | src/Core/Container/Container.php:60-67 | Once compiled: an error and the aliases unchanged. Before: exactly that alias is added. |
| Containers.Container.Parameter | src/Core/Container/Container.php:69-77 | Once compiled: an error and the parameters unchanged. Before: exactly that parameter is set. |
| Containers.Container.Compile | src/Core/Container/Container.php:79-92 | Afterwards the container is compiled. The first call removes every alias (all are private, made by `setAlias` with a string target) and sets the global `wpdb` instance; a second call changes nothing. |
| Containers.Container.Has | src/Core/Container/Container.php:35-42 | It compiles first, which drops the aliases when it is the first compilation. The answer is true exactly when the id is a definition, a remaining alias, a set service or the container itself. |
| Containers.Container.Get | src/Core/Container/Container.php:26-33 | It compiles first, dropping the aliases on the first compilation. It yields a service exactly when `has` would say yes (an alias id made before compiling is then not found). |
| Containers.Container.FindTaggedServiceIds | src/Core/Container/Container.php:102-109 | It compiles first, dropping the aliases on the first compilation. An id is returned exactly when its definition carries the tag. |
| Containers.CompiledIsFinal | src/Core/Container/Container.php:44-92 | Once any read has compiled the container, register, alias and parameter calls all fail and leave definitions and parameters as they were; the aliases are gone if that read was the first compilation. |
| Containers.AliasGoneOnFirstRead | src/Core/Container/Container.php:35-42 | A class registered under another id and aliased to it is known before the first read, but `has` for its class name answers false, and so does `has` for `ContainerInterface`. |
| Locations.LocationKey | src/Core/Discovery/DiscoveryItems.php:18 | The key is the namespace, a vertical bar, then the path, each part recoverable by position. |
| Locations.LocationKeyInjective | src/Core/Discovery/DiscoveryItems.php:18 | Two locations whose namespaces hold no vertical bar share a key only when they are equal. |
| Locations.UnderVendor | src/Core/Discovery/DiscoveryLocation.php:46-49 | A path containing `/vendor/` or `\vendor\` anywhere is a vendor location. |
| Locations.Root | src/Core/Discovery/DiscoveryLocation.php:20-23 | The root is `realpath` of the location, or the stored path when `realpath` fails. |
| Locations.ToClassNamePsr4 | src/Core/Discovery/DiscoveryLocation.php:18-41 | A file `<root>/A/.../Z.php` maps to the class `<namespace>\A\...\Z` (section 3 of PSR-4), with the namespace's trailing backslashes dropped. |
| Locations.RootReplaced | src/Core/Discovery/DiscoveryLocation.php:26-39 | The first replacement turns the root at the start of the path into the namespace and leaves the rest of the path alone. |
| Items.DiscoveryItems.Add | src/Core/Discovery/DiscoveryItems.php:16-25 | The item is appended to its location's list; a new location is recorded after the known ones. |
| Items.DiscoveryItems.All | src/Core/Discovery/DiscoveryItems.php:30-39 | The lists of all locations are joined in the order the locations first appeared: one entry per `add`, a permutation of everything added. |
| Items.DiscoveryItems.IsEmpty | src/Core/Discovery/DiscoveryItems.php:54-57 | True exactly when no `add` has happened. |
| Items.DiscoveryItems.Count | src/Core/Discovery/DiscoveryItems.php:59-62 | The count is the number of `add` calls so far. |
| Items.FlattenAppendAt | src/Core/Discovery/DiscoveryItems.php:16-25 | Adding to a known location puts the item right after that location's last item; everything else keeps its place. |
| Items.FlattenAppendNew | src/Core/Discovery/DiscoveryItems.php:16-25 | Adding to a new location puts the item after everything else. |
| Reflection.GetAttribute | src/Core/Discovery/ClassReflector.php:33-44 | The result is the first attribute of the requested class, or none when there is none. |
| Reflection.GetPublicMethods | src/Core/Discovery/ClassReflector.php:49-68 | The result is exactly the public methods that survive the filter, in reflection order. |
| Reflection.KeptMethodsConcat | src/Core/Discovery/ClassReflector.php:49-68 | Filtering commutes with concatenation, so surviving methods keep their relative order. |
| Hooks.DiscoveredHooks | src/Core/Discovery/HookDiscovery.php:26-44 | At most one item per method, and none exactly when no method carries a Hook attribute. |
| Hooks.RecordOf | src/Core/Discovery/HookDiscovery.php:53-60 | A missing hook type becomes `filter`. |
| Hooks.DiscoverThenApply | src/Core/Discovery/HookDiscovery.php:26-63 | Discovering a class and then applying yields exactly the hook attributes of its methods. |
| Hooks.HookDiscovery.Discover | src/Core/Discovery/HookDiscovery.php:26-44 | The items store gains exactly the hook items of the class's public methods, in method order. |
| Hooks.HookDiscovery.DiscoverMethod | src/Core/Discovery/HookDiscovery.php:29-42 | One method adds its hook item when it carries a Hook attribute and adds nothing otherwise; the store stays valid. |
| Hooks.DiscoveredHooksSnoc | src/Core/Discovery/HookDiscovery.php:28-43 | The items of one more method come after those of the methods before it. |
| Hooks.HookDiscovery.Apply | src/Core/Discovery/HookDiscovery.php:46-63 | The complete items become hook records, in iteration order, and nothing else changes. |
| Hooks.RecordsOf | src/Core/Discovery/HookDiscovery.php:48-62 | The loop yields the records of the complete items, in order. |
| Hooks.GroupByPriority | src/Core/Discovery/HookDiscovery.php:67-72 | Every priority's group holds that priority's hooks, in collection order. |
| Hooks.SmallestKey | src/Core/Discovery/HookDiscovery.php:74 | The key returned is in the groups and no key is smaller. |
| Hooks.SmallestKeyIsMin | src/Core/Discovery/HookDiscovery.php:74-80 | The smallest key is the smallest priority left, and its group is registered first. |
| Hooks.ByPriorityPermutes | src/Core/Discovery/HookDiscovery.php:65-81 | Every hook is registered exactly once. |
| Hooks.ByPrioritySorted | src/Core/Discovery/HookDiscovery.php:65-81 | Hooks are registered in ascending priority. |
| Hooks.ByPriorityStable | src/Core/Discovery/HookDiscovery.php:69-80 | Hooks of equal priority are registered in the order they were collected. |
| Hooks.GroupPriority | src/Core/Discovery/HookDiscovery.php:69-72 | Every hook of a group has the group's priority. |
| Hooks.LaterGroupsAbove | src/Core/Discovery/HookDiscovery.php:74-80 | Whatever is registered after the first group has a higher priority. |
| Hooks.RegistrationFor | src/Core/Discovery/HookDiscovery.php:101-115 | Nothing is registered for a class the container does not know. Otherwise type `action` gives `add_action` and anything else `add_filter`, with the hook, method, priority and argument count carried over. |
| Hooks.HookDiscovery.RegisterHookFromData | src/Core/Discovery/HookDiscovery.php:86-116 | It compiles the container and appends exactly that hook's registration. |
| Hooks.HookDiscovery.RegisterGroup | src/Core/Discovery/HookDiscovery.php:77-79 | The group's registrations are appended in group order. |
| Hooks.HookDiscovery.RegisterSmallest | src/Core/Discovery/HookDiscovery.php:74-80 | One round registers the group of the smallest remaining priority after everything registered before it. |
| Hooks.HookDiscovery.RegisterHooks | src/Core/Discovery/HookDiscovery.php:65-81 | The registrations appended are those of the hooks sorted stably by priority; definitions are unchanged and the aliases are dropped if this compiled the container. |
| Scanner.LastIndexOf | src/Core/Discovery/DirectoryScanner.php:113 | The index found holds the character and none follows it; none is found exactly when the character is absent. |
| Scanner.BaseName | src/Core/Discovery/DirectoryScanner.php:111-113 | The base name has no `/` and ends the path. |
| Scanner.ClassCandidateFile | src/Core/Discovery/DirectoryScanner.php:61 | A file `<f>.php` is taken as a class exactly when `f` is empty or does not start with a lower-case letter, which is what `ucfirst($f) === $f` tests. |
| Scanner.ExtractClassName | src/Core/Discovery/DirectoryScanner.php:126-152 | An unreadable file, or one that declares no type named after the file, gives null. Otherwise the result is the file name, prefixed by the namespace when there is one. |
| Scanner.ClassEvents | src/Core/Discovery/DirectoryScanner.php:93-95 | Every discovery's `discover` is called once for the class, in discovery order. |
| Scanner.PathEventsUpTo | src/Core/Discovery/DirectoryScanner.php:101-105 | `discoverPath` is called for exactly the discoveries that implement it, in order. |
| Scanner.FileRouting | src/Core/Discovery/DirectoryScanner.php:55-105 | A class file whose class exists goes to every discovery and to no path discovery. Any other file goes only to path discoveries. |
| Scanner.SkippedDirectoryIsSilent | src/Core/Discovery/DirectoryScanner.php:31-35 | Hidden, `node_modules` and `vendor` directories are never entered. |
| Scanner.DotEntriesIgnored | src/Core/Discovery/DirectoryScanner.php:42-46 | The entries `.` and `..` contribute nothing. |
| Scanner.ListingPrefix | src/Core/Discovery/DirectoryScanner.php:42-50 | The calls for a prefix of a listing do not depend on the entries after it. |
| Scanner.DirectoryScanner.ScanPath | src/Core/Discovery/DirectoryScanner.php:21-106 | The calls made are exactly those the recursive scan specification gives, appended to the log. |
| Scanner.DirectoryScanner.ScanFile | src/Core/Discovery/DirectoryScanner.php:55-105 | The calls made for a file are its class events or its path events. |
| Scanner.DirectoryScanner.ScanListed | src/Core/Discovery/DirectoryScanner.php:42-50 | The loop over a directory listing makes the listing's calls, in listing order. |
| Scanner.DirectoryScanner.PassClass | src/Core/Discovery/DirectoryScanner.php:93-95 | One `discover` call per discovery is appended. |
| Scanner.DirectoryScanner.PassPath | src/Core/Discovery/DirectoryScanner.php:101-105 | One `discoverPath` call per path discovery is appended. |
| Controllers.MethodRoutes | src/Core/Discovery/ControllerDiscovery.php:40-52 | One route record per Route attribute of the method, in attribute order. |
| Controllers.RoutesOfCount | src/Core/Discovery/ControllerDiscovery.php:39-53 | There is exactly one record per Route attribute across all methods. |
| Controllers.RoutesOfConcat | src/Core/Discovery/ControllerDiscovery.php:39-53 | The records of earlier methods come before those of later ones. |
| Controllers.DiscoveredControllers | src/Core/Discovery/ControllerDiscovery.php:30-62 | There is no item without a Controller attribute; otherwise there is one item carrying the routes of the public methods. |
| Controllers.BareControllerDefaults | src/Core/Discovery/ControllerDiscovery.php:55-61 | A bare `#[Controller]` serves under `picowind/v1`, with no prefix and no middleware. |
| Controllers.RouteAssembly | src/Core/Discovery/ControllerDiscovery.php:91-105 | Each route is registered under the controller's namespace, at the prefix followed by the route's own path, for the controller's action. The controller's middleware comes before the route's own. |
| Controllers.ControllersAfterEntries | src/Core/Discovery/ControllerDiscovery.php:84-89 | Every class among the items gets an entry, taken from its last item; other classes keep what they had. |
| Controllers.CallbackWins | src/Core/Discovery/ControllerDiscovery.php:148-158 | An explicit permission callback makes the middleware irrelevant. |
| Controllers.MiddlewarePermission | src/Core/Discovery/ControllerDiscovery.php:159-167 | Without a callback, `auth` is checked before `admin`, and a route with neither is open to everyone. |
| Controllers.HandlerFor | src/Core/Discovery/ControllerDiscovery.php:129-136 | The callback dispatches to the container's service when the container knows the class, and to a new instance otherwise. |
| Controllers.RestRegistrations | src/Core/Discovery/ControllerDiscovery.php:108-124 | There is one REST route per stored route, in order. |
| Controllers.CollectRoutes | src/Core/Discovery/ControllerDiscovery.php:38-53 | The nested loops collect every Route attribute of every method, method order first. |
| Controllers.MethodRoutesLoop | src/Core/Discovery/ControllerDiscovery.php:42-52 | The inner loop gives one record per Route attribute of the method. |
| Controllers.ControllerDiscovery.Discover | src/Core/Discovery/ControllerDiscovery.php:30-62 | The store gains exactly the item of `DiscoveredControllers`. |
| Controllers.ControllerDiscovery.AddRoutes | src/Core/Discovery/ControllerDiscovery.php:91-105 | The routes of an item are appended, in order. |
| Controllers.ControllerDiscovery.RegisterControllerFromDataAsWritten | src/Core/Discovery/ControllerDiscovery.php:73-106 | As written, the container is compiled and the class is never registered. Controller entry and routes are still recorded. |
| Controllers.ControllerDiscovery.RegisterControllerFromData | src/Core/Discovery/ControllerDiscovery.php:73-106 | As intended, the class is registered when the container neither knows it nor is compiled. The entry and routes are recorded. |
| Controllers.ControllerDiscovery.Apply | src/Core/Discovery/ControllerDiscovery.php:64-71 | As intended (built on the corrected registration): every stored item is registered in iteration order, then the route registration is hooked. On a container not yet compiled, every controller class ends up known to it. |
| Controllers.ControllerDiscovery.ApplyAsWritten | src/Core/Discovery/ControllerDiscovery.php:64-71 | As written: entries and routes are recorded in iteration order and the route registration is hooked, but a non-empty store compiles the container (setting `wpdb` and dropping the aliases) and leaves its definitions unchanged, so no controller class is registered. |
| Controllers.ControllerDiscovery.RouteCallback | src/Core/Discovery/ControllerDiscovery.php:126-146 | The callback compiles the container and answers with the action run on the handler `HandlerFor` picks; middleware passes the request straight through. |
| Controllers.ControllerNeverRegistered | src/Core/Discovery/ControllerDiscovery.php:80-82 | On a fresh container, registering a discovered controller as written leaves the class unknown, while the intended registration defines it. |
| Instantiation.UnresolvableMessage | src/Core/Discovery/ControllerDiscovery.php:205 | The message starts with `Cannot resolve parameter '<name>'` for the offending parameter. |
| Instantiation.Lookup | src/Core/Container/Container.php:26-33 | A known id yields a service. On a compiled container, which has no aliases left, exactly definitions, set services and the container itself are found, each as its own service, so an alias id such as `ContainerInterface` is not found. |
| Instantiation.Dependencies | src/Core/Discovery/ControllerDiscovery.php:195-207 | Resolution succeeds exactly when every parameter has a non-builtin class type the container knows, and then gives one dependency per parameter. |
| Instantiation.DependenciesFirstError | src/Core/Discovery/ControllerDiscovery.php:198-207 | The error reported is that of the first unresolvable parameter. |
| Instantiation.DependenciesPrefixError | src/Core/Discovery/ControllerDiscovery.php:198-207 | Once a prefix of the parameters fails, the whole list fails the same way. |
| Instantiation.Instantiated | src/Core/Discovery/ControllerDiscovery.php:186-210 | A class without a constructor gets a plain `new`; whatever succeeds is an instance of the requested class. |
| Instantiation.InstantiateWithDependencies | src/Core/Discovery/CommandDiscovery.php:214-242 | The loop gives exactly what `Instantiated` specifies. |
| Commands.Hyphenate | src/Core/Discovery/CommandDiscovery.php:191 | The result is never shorter than its input. |
| Commands.Unhyphenate | src/Core/Discovery/CommandDiscovery.php:191 | The result holds no hyphen; it is the partner that undoes `Hyphenate`. |
| Commands.HyphenateSplitsJoints | src/Core/Discovery/CommandDiscovery.php:191 | After the replacement no lowercase letter is followed directly by an uppercase one. |
| Commands.HyphenateOnlyInserts | src/Core/Discovery/CommandDiscovery.php:191 | The replacement only inserts hyphens: removing them from the result gives back a hyphen-free name. |
| Commands.HyphenateNoJoint | src/Core/Discovery/CommandDiscovery.php:191 | A name without a camel-case joint is left unchanged. |
| Commands.HyphenateIdempotent | src/Core/Discovery/CommandDiscovery.php:191 | Replacing twice gives the same as replacing once. |
| Commands.HyphenateConcat | src/Core/Discovery/CommandDiscovery.php:191 | Two halves are hyphenated separately and joined with a hyphen exactly when they meet at a camel-case joint. |
| Commands.Kebab | src/Core/Discovery/CommandDiscovery.php:191 | The kebab-case name has no uppercase letter and is at least as long as the input. |
| Commands.KebabSingleWord | src/Core/Discovery/CommandDiscovery.php:191 | A single capitalised word is only lowercased (`Theme` gives `theme`). |
| Commands.KebabTwoWords | src/Core/Discovery/CommandDiscovery.php:191 | Two words meeting at a joint are lowercased and joined by one hyphen (`childTheme` gives `child-theme`). |
| Commands.WithoutCommandSuffix | src/Core/Discovery/CommandDiscovery.php:186-188 | A trailing `Command` is removed and nothing else; a name without it is kept. |
| Commands.CommandName | src/Core/Discovery/CommandDiscovery.php:178-194 | Every generated class command starts with `picowind `. |
| Commands.CommandClassName | src/Core/Discovery/CommandDiscovery.php:178-194 | A class `Ns\BaseCommand` gets the command `picowind ` plus the kebab-case of `Base`, whatever its namespace. |
| Commands.ExplodeLast | src/Core/Discovery/CommandDiscovery.php:182-183 | The last piece of the split is what follows the last delimiter. |
| Commands.MethodCommandExtendsClassCommand | src/Core/Discovery/CommandDiscovery.php:196-212 | A method command is its class's command, a space, and the kebab-case method name. |
| Commands.MethodItems | src/Core/Discovery/CommandDiscovery.php:50-65 | At most one item per public method, each a `method` item. |
| Commands.ClassItems | src/Core/Discovery/CommandDiscovery.php:34-47 | One item exactly when the class carries a Command attribute. |
| Commands.DiscoveredCommands | src/Core/Discovery/CommandDiscovery.php:31-66 | The class-level command, when there is one, comes first. |
| Commands.UnnamedClassCommand | src/Core/Discovery/CommandDiscovery.php:37-46 | A class attribute without a name or description gives the generated name, an empty description and the method `__invoke`. |
| Commands.CommandDiscovery.Discover | src/Core/Discovery/CommandDiscovery.php:31-66 | The items added for the location are exactly `DiscoveredCommands` of the class, after what was there. |
| Commands.CommandDiscovery.DiscoverClass | src/Core/Discovery/CommandDiscovery.php:34-47 | Adds exactly the class-level item, if any. |
| Commands.CommandDiscovery.DiscoverMethods | src/Core/Discovery/CommandDiscovery.php:50-65 | The loop adds exactly the method items, in method order. |
| Commands.CommandDiscovery.DiscoverMethod | src/Core/Discovery/CommandDiscovery.php:51-64 | One method adds its item exactly when it carries a Command attribute. |
| Commands.MethodItemsSnoc | src/Core/Discovery/CommandDiscovery.php:50-65 | One more method's items follow the earlier methods' items. |
| Commands.Arrays | src/Core/Discovery/CommandDiscovery.php:70-84 | Every kept item is an array item, and every array item is kept. |
| Commands.KeepArrays | src/Core/Discovery/CommandDiscovery.php:70-84 | The loop keeps exactly `Arrays` of the items. |
| Commands.CommandDiscovery.Apply | src/Core/Discovery/CommandDiscovery.php:68-85 | The commands become the old commands followed by the array items in iteration order; nothing else changes. |
| Commands.AddCommands | src/Core/Discovery/CommandDiscovery.php:149-167 | One call for the name and one per alias, in order, all with the same callable and the same `shortdesc`/`synopsis`/`when` arguments. |
| Commands.AddCommandCalls | src/Core/Discovery/CommandDiscovery.php:161-167 | The loop issues exactly the calls `AddCommands` lists. |
| Commands.RegisterOutcome | src/Core/Discovery/CommandDiscovery.php:121-167 | A command either registers or logs, never both; a class the container knows always registers. |
| Commands.RegisterAllConcat | src/Core/Discovery/CommandDiscovery.php:93-95 | Registering two lists one after the other gives the calls and log lines of registering them together. |
| Commands.CommandDiscovery.RegisterCommandFromData | src/Core/Discovery/CommandDiscovery.php:101-168 | The CLI calls and the log grow by exactly `RegisterOutcome`; the container ends compiled and its definitions are untouched. |
| Commands.CommandDiscovery.RegisterCommands | src/Core/Discovery/CommandDiscovery.php:87-96 | Without WP-CLI nothing happens; with it every command registers in order. |
| Commands.CommandDiscovery.RegisterNext | src/Core/Discovery/CommandDiscovery.php:93-95 | One round of the loop extends the outcome by the next command's. |
| Services.DiscoveredServices | src/Core/Discovery/ServiceDiscovery.php:25-41 | A class gives one item exactly when it carries a Service attribute; the item's id is the attribute's id, or else the class name. |
| Services.AliasesAfter | src/Core/Discovery/ServiceDiscovery.php:80-87 | Before compilation, after one registration a truthy alias and (when different from the id) the class name point at the service id; every other alias is kept, and no other alias appears. |
| Services.ClassNameResolves | src/Core/Discovery/ServiceDiscovery.php:85-87 | Until compilation, a service registered under another id is reachable through its class name in one alias step. |
| Services.AliasesUntouched | src/Core/Discovery/ServiceDiscovery.php:43-51 | An alias that no registered item names survives registering all of them. |
| Services.ServiceIds | src/Core/Discovery/ServiceDiscovery.php:64 | Every registered item's id is among the defined ids. |
| Services.Arrays | src/Core/Discovery/ServiceDiscovery.php:45-50 | Only array items are kept, never more than there were. |
| Services.KeepArrays | src/Core/Discovery/ServiceDiscovery.php:45-50 | The filter keeps exactly `Arrays` of the items. |
| Services.ServiceDiscovery.Discover | src/Core/Discovery/ServiceDiscovery.php:25-41 | The items added for the location are exactly `DiscoveredServices` of the class. |
| Services.ServiceDiscovery.ConfigureDefinition | src/Core/Discovery/ServiceDiscovery.php:66-78 | The definition ends shared exactly for singletons, public, with the item's tags in order. |
| Services.ServiceDiscovery.RegisterServiceFromData | src/Core/Discovery/ServiceDiscovery.php:56-94 | On a compiled container `register` throws and nothing changes; otherwise only the service id's definition is new and configured, the aliases are `AliasesAfter`, and the other definitions are kept. |
| Services.ServiceDiscovery.Apply | src/Core/Discovery/ServiceDiscovery.php:43-51 | On a compiled container the first item throws and nothing changes; otherwise every array item is registered in order. |
| Services.ServiceDiscovery.RegisterAll | src/Core/Discovery/ServiceDiscovery.php:45-50 | The loop gives the aliases and ids of registering the items in order, or stops at the first exception. |
| Services.ServiceDiscovery.RegisterNext | src/Core/Discovery/ServiceDiscovery.php:48 | One round of the loop extends the aliases and ids by the next item's. |
| Cache.FreshAfterEdits | src/Core/Discovery/DiscoveryCache.php:89-115 | A cache file with an mtime no earlier than every PHP file of its location is not stale, unless PARTIAL runs under `WP_DEBUG`. |
| Cache.IsCacheStale | src/Core/Discovery/DiscoveryCache.php:89-115 | The iteration reports stale exactly when the mtime is missing, PARTIAL runs under `WP_DEBUG`, or some PHP file of the directory is newer. |
| Cache.DiscoveryCache.constructor | src/Core/Discovery/DiscoveryCache.php:12-16 | The cache directory is `<uploads basedir>/picowind/cache/discovery/`. |
| Cache.DiscoveryCache.FileName | src/Core/Discovery/DiscoveryCache.php:83-87 | Every cache file name lies in the cache directory and ends in `.cache`. |
| Cache.DiscoveryCache.StoreAsWritten | src/Core/Discovery/DiscoveryCache.php:26-39 | When enabled, the location's file receives every discovery's items of all locations so far; disabled, nothing is written. |
| Cache.DiscoveryCache.Store | src/Core/Discovery/DiscoveryCache.php:26-39 | When enabled, the location's file receives each discovery's items of this location only; disabled, nothing is written. |
| Cache.DiscoveryCache.Restore | src/Core/Discovery/DiscoveryCache.php:44-69 | The result and the files left are exactly `Restored`. |
| Cache.DiscoveryCache.Restored | src/Core/Discovery/DiscoveryCache.php:44-69 | A payload comes back exactly when the cache is enabled and the file exists, is fresh and reads as an array; a stale file is the only one removed. |
| Cache.DiscoveryCache.RestoreTwice | src/Core/Discovery/DiscoveryManager.php:127-146 | Restoring a second time changes no more files and gives the same payload, so `isLocationCached` and `restoreFromCache` agree. |
| Cache.DiscoveryCache.StoreRestore | src/Core/Discovery/DiscoveryCache.php:26-69 | What was stored is restored while no PHP file of the location is newer and PARTIAL is not under `WP_DEBUG`. |
| Cache.DiscoveryCache.Clear | src/Core/Discovery/DiscoveryCache.php:71-81 | With the directory present every `*.cache` file directly in it is removed and every other file is kept. |
| Cache.DiscoveryCache.ClearedRestoresNothing | src/Core/Discovery/DiscoveryCache.php:71-87 | After clearing, no location whose md5 is a hex digest restores anything. |
| Cache.AddAll | src/Core/Discovery/DiscoveryManager.php:148-158 | Adding a location's cached items keeps every listed location backed by items. |
| Cache.RestoreRun | src/Core/Discovery/DiscoveryManager.php:116-119 | Restoring locations one after another keeps every listed location backed by items. |
| Cache.Present | src/Core/Discovery/DiscoveryManager.php:150 | A location is listed exactly when it was restored with a non-empty list. |
| Cache.AmongStep | src/Core/Discovery/DiscoveryManager.php:150 | One more restored location adds its list when non-empty and nothing otherwise. |
| Cache.RestoreRunFiles | src/Core/Discovery/DiscoveryManager.php:137-159 | Restoring distinct locations files each non-empty cached list under its own location, in restore order. |
| Cache.RestoreRebuildsScan | src/Core/Discovery/DiscoveryManager.php:114-125 | With each location's own items cached, restoring every location rebuilds exactly the store the scan built. |
| Cache.StoredAllDuplicates | src/Core/Discovery/DiscoveryCache.php:32-35 | After scanning two locations, the second file holds both locations' items, so restoring both files the first item twice. |
| Manager.LocationsFrom | src/Core/Discovery/DiscoveryManager.php:63-71 | Every location made from a `psr-4` section has a namespace under the required prefix, and there are no more locations than entries. |
| Manager.LocationsFromComplete | src/Core/Discovery/DiscoveryManager.php:63-71 | Every entry with a string namespace under the prefix and a string path becomes a location under the template directory. |
| Manager.CollectLocations | src/Core/Discovery/DiscoveryManager.php:63-71 | The loop collects exactly `LocationsFrom` of the section. |
| Manager.DiscoveryLocations | src/Core/Discovery/DiscoveryManager.php:47-92 | Every discovery location lies under the `Picowind\` namespace. |
| Manager.TestsUnderCore | src/Core/Discovery/DiscoveryManager.php:83 | Test namespaces under `Picowind\Tests\` are also under `Picowind\`. |
| Manager.DebugAppendsTests | src/Core/Discovery/DiscoveryManager.php:74-91 | `WP_DEBUG` keeps the theme's own locations first and only appends `Picowind\Tests\` locations. |
| Manager.CacheStrategy | src/Core/Discovery/DiscoveryManager.php:105-112 | The strategy is PARTIAL exactly under `WP_DEBUG` and never DISABLED. |
| Manager.ClassesIn | src/Core/Discovery/DiscoveryManager.php:171-176 | A classmap class is kept exactly when its name starts with the namespace without trailing backslashes. |
| Manager.FilterClassmap | src/Core/Discovery/DiscoveryManager.php:171-178 | The loop keeps exactly `ClassesIn` of the classmap. |
| Manager.Reflectors | src/Core/Discovery/DiscoveryManager.php:178-188 | No more reflectors than classes. |
| Manager.Failures | src/Core/Discovery/DiscoveryManager.php:189-193 | Nothing is logged without `WP_DEBUG`, and at most one line per class. |
| Manager.FailureIsolated | src/Core/Discovery/DiscoveryManager.php:183-193 | A class whose reflector throws does not stop a later class from being scanned. |
| Manager.NotLoaded | src/Core/Discovery/DiscoveryManager.php:179-193 | A class that does not load adds no reflector; only a throwing reflector adds a log line. |
| Manager.ServicesStep | src/Core/Discovery/DiscoveryManager.php:186-188 | One more loaded class adds what the service discovery finds in it. |
| Manager.HooksStep | src/Core/Discovery/DiscoveryManager.php:186-188 | One more loaded class adds what the hook discovery finds in it. |
| Manager.CommandsStep | src/Core/Discovery/DiscoveryManager.php:186-188 | One more loaded class adds what the command discovery finds in it. |
| Manager.ScanClasses | src/Core/Discovery/DiscoveryManager.php:178-194 | The loop leaves each discovery with what it finds in the loadable classes, in classmap order, and logs `Failures`. |
| Manager.ScanNext | src/Core/Discovery/DiscoveryManager.php:179-193 | One class extends the findings and the log by that class's share. |
| Manager.SkipClass | src/Core/Discovery/DiscoveryManager.php:179-181 | A class that does not load reaches no discovery. |
| Manager.LoadClass | src/Core/Discovery/DiscoveryManager.php:184-188 | A loaded class goes to the service, hook and command discoveries in that order. |
| Manager.ScanLocation | src/Core/Discovery/DiscoveryManager.php:161-195 | The discoveries find exactly `ScanSnapshot` of the location and the log is its failures. |
| Manager.AddEach | src/Core/Discovery/DiscoveryManager.php:152-154 | Every cached item is added, in order. |
| Manager.AddSnapshot | src/Core/Discovery/DiscoveryManager.php:148-158 | Each discovery receives exactly its cached items. |
| Manager.ProcessLocation | src/Core/Discovery/DiscoveryManager.php:116-124 | A location is restored exactly when the cache yields a payload; otherwise it is scanned and, with the cache on, a cache file is written (by the corrected per-location store). |
| Manager.EventSnoc | src/Core/Discovery/DiscoveryManager.php:116-124 | One more location's event extends the record, the findings and the log. |
| Manager.ProcessAll | src/Core/Discovery/DiscoveryManager.php:114-125 | Every location in order is restored or scanned, and the discoveries hold what the events found. |
| Manager.ProcessNext | src/Core/Discovery/DiscoveryManager.php:116-124 | One round of the loop extends the events by one location. |
| Manager.DiscoveryManager.constructor | src/Core/Discovery/DiscoveryManager.php:20-22 | A new manager has no locations, discoveries or cache. |
| Manager.DiscoveryManager.Discover | src/Core/Discovery/DiscoveryManager.php:24-30 | Locations come from `composer.json`, every location is restored or scanned, and every discovery is applied to what was found, unless services fail on a compiled container. |
| Manager.DiscoveryManager.ClearCache | src/Core/Discovery/DiscoveryManager.php:40-45 | With a cache, its `*.cache` files go; without one, nothing happens. |
| Manager.DiscoveryManager.InitializeDiscoveryLocations | src/Core/Discovery/DiscoveryManager.php:47-92 | The locations grow by exactly `DiscoveryLocations`. |
| Manager.DiscoveryManager.InitializeDiscoveries | src/Core/Discovery/DiscoveryManager.php:94-103 | The cache uses the `WP_DEBUG` strategy; fresh service, hook and command discoveries share the manager's container. |
| Manager.DiscoveryManager.RunDiscovery | src/Core/Discovery/DiscoveryManager.php:114-125 | The events cover the locations in order, and the discoveries and log grow by what they found. |
| Manager.DiscoveryManager.ApplyDiscoveries | src/Core/Discovery/DiscoveryManager.php:224-229 | Services, hooks, then commands are applied; a service exception stops the run before hooks and commands change. |
| LatteLoader.PrefixLength | src/Core/Render/Latte/MultiDirectoryLoader.php:130 | The prefix group is a drive (two characters), a `phar://host/` prefix ending in `/`, or empty. |
| LatteLoader.Line | src/Core/Render/Latte/MultiDirectoryLoader.php:130 | The captured rest is the longest prefix without a line break. |
| LatteLoader.CollapseStable | src/Core/Render/Latte/MultiDirectoryLoader.php:132-138 | The loop's segments hold no `.` and no `..` a preceding segment could absorb, and every segment comes from the input. |
| LatteLoader.CollapseOfStable | src/Core/Render/Latte/MultiDirectoryLoader.php:132-138 | The loop leaves an already stable list unchanged. |
| LatteLoader.DotDotCancels | src/Core/Render/Latte/MultiDirectoryLoader.php:133-134 | A `..` removes the named segment just before it. |
| LatteLoader.DotDotKept | src/Core/Render/Latte/MultiDirectoryLoader.php:133-136 | A `..` with nothing to remove, or after `..` or an empty segment, is kept. |
| LatteLoader.DotDropped | src/Core/Render/Latte/MultiDirectoryLoader.php:135 | A `.` segment is dropped. |
| LatteLoader.NormalizeOutputStable | src/Core/Render/Latte/MultiDirectoryLoader.php:128-141 | With `/` as separator, normalised output has no backslash after the prefix and its segments are stable. |
| LatteLoader.Renormalize | src/Core/Render/Latte/MultiDirectoryLoader.php:128-141 | A rest that is already a stable, clean `/`-join normalises to itself. |
| LatteLoader.JoinFixed | src/Core/Render/Latte/MultiDirectoryLoader.php:128-141 | A join of a clean stable list is a fixed point, unless it is a drive followed by a `.` segment. |
| LatteLoader.NormalizeIdempotent | src/Core/Render/Latte/MultiDirectoryLoader.php:128-141 | Normalising twice equals normalising once, except for a result that is a drive followed by `.`. |
| LatteLoader.NormalizeUncoversDrive | src/Core/Render/Latte/MultiDirectoryLoader.php:130-140 | `a/../c:.` normalises to `c:.`, a drive followed by `.`. |
| LatteLoader.NormalizeDropsDriveDot | src/Core/Render/Latte/MultiDirectoryLoader.php:130-140 | `c:.` normalises to `c:`. |
| LatteLoader.NormalizeNotIdempotent | src/Core/Render/Latte/MultiDirectoryLoader.php:128-141 | There is an input that a second normalisation shortens, so the exception above is real. |
| LatteLoader.TrailingEmptySegment | src/Core/Render/Latte/MultiDirectoryLoader.php:132-138 | A path ending with a slash keeps a trailing empty segment through the loop. |
| LatteLoader.DirectoryEndsWithSeparator | src/Core/Render/Latte/MultiDirectoryLoader.php:42 | A stored directory ends with the separator, unless only its prefix is left. |
| LatteLoader.PlainJoinSegments | src/Core/Render/Latte/MultiDirectoryLoader.php:130-132 | A `/`-join of plain segments has no prefix and splits back into the same segments. |
| LatteLoader.PlainPathRoundTrip | src/Core/Render/Latte/MultiDirectoryLoader.php:93 | `<dirs>/<f>/../<name>` normalises to `<dirs>/<name>` when every segment is plain. |
| LatteLoader.MultiDirectoryLoader.constructor | src/Core/Render/Latte/MultiDirectoryLoader.php:40-43 | Each directory is stored with trailing slashes trimmed, one `/` added, and normalised, in the given order. |
| LatteLoader.MultiDirectoryLoader.NormalizePath | src/Core/Render/Latte/MultiDirectoryLoader.php:128-141 | The loop computes exactly `Normalize`, whose properties the lemmas above state. |
| LatteLoader.MultiDirectoryLoader.Candidates | src/Core/Render/Latte/MultiDirectoryLoader.php:118-119 | There is one candidate path per configured directory. |
| LatteLoader.MultiDirectoryLoader.FindTemplate | src/Core/Render/Latte/MultiDirectoryLoader.php:105-126 | The loops compute exactly `Lookup`. |
| LatteLoader.MultiDirectoryLoader.FindRooted | src/Core/Render/Latte/MultiDirectoryLoader.php:110-115 | An existing rooted name is returned exactly when it starts with some stored directory; otherwise null. |
| LatteLoader.MultiDirectoryLoader.FindRelative | src/Core/Render/Latte/MultiDirectoryLoader.php:118-125 | The result is the candidate of the first directory, in stored order, where it exists, or null when it exists in none. |
| LatteLoader.MultiDirectoryLoader.LookupOrder | src/Core/Render/Latte/MultiDirectoryLoader.php:105-126 | An existing rooted name is returned only inside a configured directory and never searched for relative to them; any other name is found in the first directory whose candidate exists, and only there. |
| LatteLoader.MultiDirectoryLoader.IsExpired | src/Core/Render/Latte/MultiDirectoryLoader.php:79-88 | A template that is not found counts as expired; otherwise it is expired exactly when its mtime is later than the time. |
| LatteLoader.MultiDirectoryLoader.IsInAllowedDir | src/Core/Render/Latte/MultiDirectoryLoader.php:54-60 | The loop answers whether the path starts with some configured directory. |
| LatteLoader.MultiDirectoryLoader.GetContent | src/Core/Render/Latte/MultiDirectoryLoader.php:45-77 | The result is `Load`: not found, outside the allowed paths, not a file, or the file's content, with those messages. |
| LatteLoader.MultiDirectoryLoader.LoadedFileIsInsideDirectories | src/Core/Render/Latte/MultiDirectoryLoader.php:45-77 | Whatever is loaded (with `/` as separator) is an existing file under a configured directory, and its content is returned. |
| LatteLoader.MultiDirectoryLoader.GetReferredName | src/Core/Render/Latte/MultiDirectoryLoader.php:90-97 | A name that is not absolute is resolved against `<referring>/../`; an absolute one is kept. |
| LatteLoader.MultiDirectoryLoader.ReferredNameIsSibling | src/Core/Render/Latte/MultiDirectoryLoader.php:90-97 | A plain relative name resolves next to the file that refers to it. |
| LatteLoader.PlainIsRelative | src/Core/Render/Latte/MultiDirectoryLoader.php:92 | A plain segment starts with no slash, backslash, drive or `phar:`, so it is resolved against the referring file. |
| LatteLoader.MultiDirectoryLoader.GetUniqueId | src/Core/Render/Latte/MultiDirectoryLoader.php:99-103 | The found path with `/` turned into the separator (the path itself under `/`), or the name when nothing truthy is found. |
| LatteRender.FullPathJoinsOnce | src/Core/Render/Latte.php:101 | Extra slashes at the joint do not change the candidate path: exactly one `/` separates directory and name. |
| LatteRender.RTrimSlashes | src/Core/Render/Latte.php:101 | Trailing slashes added to a directory are trimmed away again. |
| LatteRender.LTrimSlashes | src/Core/Render/Latte.php:101 | Leading slashes added to a name are trimmed away again. |
| LatteRender.Names | src/Core/Render/Latte.php:97 | A single path is searched as a one-element list; a list is searched as given. |
| LatteRender.SearchNameFirst | src/Core/Render/Latte.php:99-107 | Nothing is found exactly when no name exists under any directory; otherwise the result is the first name, in order, that exists under some directory. |
| LatteRender.FoundInSome | src/Core/Render/Latte.php:100-106 | A name counts as found exactly when its joined path exists for some template directory. |
| LatteRender.SearchNameCons | src/Core/Render/Latte.php:99-107 | The outer loop tries the first name and moves on to the rest only when that name is found under no directory. |
| LatteRender.SearchNameAt | src/Core/Render/Latte.php:99-107 | The `i`-th name is chosen when it is found and no earlier name is; no name is chosen when none is found. |
| LatteRender.NotFound | src/Core/Render/Latte.php:109-111 | The exception is a runtime error whose message is `Latte template not found: ` followed by the path, or the paths joined with `, `. |
| LatteRender.RendersRelativeName | src/Core/Render/Latte.php:99-115 | The engine receives the relative name: the first name found under some directory, even when a later name exists under an earlier directory. |
| LatteRender.SingleNameIsList | src/Core/Render/Latte.php:97 | Rendering a single path is rendering the one-element list. |
| LatteRender.FoundInDirs | src/Core/Render/Latte.php:100-106 | The inner loop answers whether the name exists under some directory. |
| LatteRender.FindName | src/Core/Render/Latte.php:99-107 | The nested loops with `break 2` compute exactly `SearchName`. |
| LatteRender.Latte.constructor | src/Core/Render/Latte.php:28-54 | The engine starts with the multi-directory loader over the template directories. |
| LatteRender.Latte.RenderTemplate | src/Core/Render/Latte.php:91-126 | The result is `Render`: the not-found exception, the engine's exception, or the output echoed or returned. |
| LatteRender.Latte.RenderString | src/Core/Render/Latte.php:136-169 | The original loader is back afterwards whether rendering succeeds or throws; the string renders under a one-entry loader and its output is echoed or returned. |
| Template.ResolvePath | src/Core/Template.php:113-123 | A path without `.?` is kept; `.?` becomes `.twig`, `.blade.php` or `.php` for the three engines; any other engine with `.?` throws TemplateNotExist for the path. |
| Template.RenderTarget | src/Core/Template.php:110-139 | A missing file throws TemplateNotExist; an existing one goes to the engine named (Twig, Blade or an include), and only those three; any other engine throws UnsupportedRenderEngine. |
| Template.ResolvePathSettles | src/Core/Template.php:113-123 | For the three engines a resolved path resolves to itself again. |
| Template.TemplateDirs | src/Core/Template.php:92-99 | The current theme's `blocks` and `views` come first; a child theme adds the parent's `blocks` and `views` after them. |
| Template.Template.constructor | src/Core/Template.php:84-100 | The Twig and Blade caches live under `<uploads>/picowind/cache/`, and the template directories are `TemplateDirs`. |
| Blade.Dotted | src/Core/Render/Blade.php:85 | A view name never contains `/`. |
| Blade.ResolveViewName | src/Core/Render/Blade.php:81-96 | A resolved view name never contains `/`. |
| Blade.ViewNameStripsFirstDir | src/Core/Render/Blade.php:82-87 | The first directory in list order that prefixes the path is the one stripped, with one separator. |
| Blade.DottedOne | src/Core/Render/Blade.php:85 | A dot-free, slash-free name with the extension becomes the bare name. |
| Blade.DottedTwo | src/Core/Render/Blade.php:85 | `a/b.blade.php` with plain segments becomes `a.b`. |
| Blade.ViewNameUnderDir | src/Core/Render/Blade.php:82-87 | `<dir>/<a>/<b>.blade.php` under the first matching directory is the view `<a>.<b>`. |
| Blade.ViewNameRelative | src/Core/Render/Blade.php:88-95 | A name `<a>/<b>` under no directory is the view `<a>.<b>`. |
| Blade.PickView | src/Core/Render/Blade.php:98-104 | The loop yields no view only for an empty array. |
| Blade.PickViewFirstTruthy | src/Core/Render/Blade.php:99-103 | The first path whose view name is truthy decides. |
| Blade.PickViewNoneTruthy | src/Core/Render/Blade.php:99-103 | With no truthy view name the last path's name is used. |
| Blade.PickViewLoop | src/Core/Render/Blade.php:99-104 | The loop with its `break` computes exactly `PickView`. |
| Blade.RenderTemplate | src/Core/Render/Blade.php:77-121 | The result is `Render`: the view's output echoed or returned, or, for an empty array, the TypeError `pathinfo` raises. |
| PhpRender.SelectTemplate | src/Core/Render/Php.php:61-75 | A string is used as it is; from an array the file included is an existing, truthy path of it; otherwise TemplateNotExist names all paths joined by `, `. |
| PhpRender.SelectFirstExisting | src/Core/Render/Php.php:64-69 | The first existing path of the array is the one included. |
| PhpRender.SelectNoneExisting | src/Core/Render/Php.php:70-72 | An array with no existing path, the empty one included, throws the exception naming them all. |
| PhpRender.FindExisting | src/Core/Render/Php.php:64-69 | The loop with its `break` finds the first existing path. |
| PhpRender.RenderTemplate | src/Core/Render/Php.php:59-86 | The result is `Render`: the included file's output echoed or returned, or the exception. |
| Pages.IndexTemplates | index.php:22-25 | `index.twig` is always the last candidate; on the blog home `front-page.twig` and `home.twig` come before it. |
| Pages.IndexPage | index.php:21-26 | The page renders `IndexTemplates` with the context through Twig. |
| Pages.ArchiveTemplates | archive.php:15-34 | `archive.twig`, `index.twig` always end the list, and a third candidate stands in front exactly when the category or post-type branch adds one. |
| Pages.ArchiveFirstBranchWins | archive.php:19-34 | The first condition that holds decides the title (day, month, year, tag, category, post type, else `Archive`), whatever later conditions also hold; only category and post type add a candidate. |
| Pages.ArchivePage | archive.php:15-38 | The context receives the title and the posts, and the candidates render through Twig. |
| Pages.SingleTemplates | single.php:19-23 | A password-protected post renders `single-password.twig`; any other post tries its id, post type and slug, then `single.twig`. |
| Pages.SinglePage | single.php:15-23 | The context receives the post, and the candidates render through Twig. |
| Pages.PageTemplates | page.php:20-28 | Six candidates: `page-<name>` then `page`, each as `.twig`, `.blade.php`, `.php`. |
| Pages.PagePage | page.php:15-30 | The context receives the post and no engine is passed, so `render`'s default applies. |
| Exceptions.NewTemplateNotExist | src/Exceptions/TemplateNotExistException.php:17-21 | The message is `Template file does not exist: ` followed by the path, or the paths joined by `, `; code and previous are kept. |
| Exceptions.TemplateNotExistSingleton | src/Exceptions/TemplateNotExistException.php:19 | A one-element array gives the same exception as that string. |
| Exceptions.TemplateNotExistListsPaths | src/Exceptions/TemplateNotExistException.php:19-20 | When no path holds a comma, splitting the message text at commas gives back every path in order (each later one after a space). |
| Exceptions.SplitCommaSpace | src/Exceptions/TemplateNotExistException.php:19 | Splitting a `, `-joined list of comma-free parts at commas gives the parts, each later one with its leading space. |
| Exceptions.JoinCommaSpace | src/Exceptions/TemplateNotExistException.php:19 | Joining with `, ` is joining with `,` after prefixing every later part with a space. |
| Exceptions.NewUnsupportedRenderEngine | src/Exceptions/UnsupportedRenderEngineException.php:17-26 | The message is `Unsupported render engine: ` and the engine (`null` when missing), followed by `. ` and the extra message only when that is truthy; code and previous are kept. |
| Exceptions.UnsupportedEngineReadBack | src/Exceptions/UnsupportedRenderEngineException.php:19-23 | Without a truthy extra message the engine can be read back from the message; a missing engine reads as `null`. |
| Blocks.AnnouncedSnoc | src/Core/Blocks.php:81-104 | One more template directory adds its block directories only when it ends in `/blocks`. |
| Blocks.BlockDirsSnoc | src/Core/Blocks.php:86-103 | One more entry adds its path only when it is not a dot entry and holds a `block.json`. |
| Blocks.KeptSnoc | src/Core/Blocks.php:96-101 | One more announced path is kept exactly when the filter accepts it. |
| Blocks.BlockDirsMembers | src/Core/Blocks.php:86-103 | A path is collected from a listing exactly when it names a non-dot entry holding a `block.json`. |
| Blocks.AnnouncedMembers | src/Core/Blocks.php:81-104 | A path is announced exactly when a listed `/blocks` template directory yields it. |
| Blocks.KeptCounts | src/Core/Blocks.php:96-101 | The filter keeps every accepted path as often as it occurs and drops every other path. |
| Blocks.CollectListing | src/Core/Blocks.php:86-103 | The inner loop extends the announced paths by the listing's block directories, and the kept ones by the accepted ones. |
| Blocks.RegisterAll | src/Core/Blocks.php:106-108 | Every collected block is registered once, in collection order. |
| Blocks.Register | src/Core/Blocks.php:77-109 | Without an unreadable `/blocks` directory, every block directory is announced in directory and listing order and exactly the accepted ones are registered; an unreadable one throws before anything is registered. |
| Blocks.RegisteredBlocks | src/Core/Blocks.php:77-109 | A path is registered exactly when the filter accepts it and it is a non-dot entry, holding a `block.json`, of a listed `/blocks` template directory; it is registered as often as it was announced. |
| Blocks.Metadata | src/Core/Blocks.php:111-149 | Foreign or outside blocks are returned unchanged; only `name`, `render` and `renderEngine` can change; a name without `/` gets `picowind/` and the slug; a supported block gets `twig` without `render`, has a supported `render` moved to `renderEngine`, and keeps any other `render`. |
| Blocks.NamedBlock | src/Core/Blocks.php:129-133 | After defaulting the name holds a `/`, and a defaulted name lies in the `picowind` namespace. |
| Blocks.MetadataSettings | src/Core/Blocks.php:151-183 | Only `render_engine` and `render_callback` can change; a supported engine of a theme block is copied, and only the acf namespace gains the ACF callback. |
| Blocks.SettingsAfterMetadata | src/Core/Blocks.php:111-183 | Through both filters, a theme block of a supported namespace renders with `twig`, or with the engine its `render` names, and an acf block also gets the ACF callback. |
| Acf.BelowAsymmetric | src/Supports/AdvancedCustomFields.php:39 | Two strings are never each below the other. |
| Acf.BelowTotal | src/Supports/AdvancedCustomFields.php:39 | Any two different strings are ordered one way or the other. |
| Acf.BelowTransitive | src/Supports/AdvancedCustomFields.php:39 | The string order is transitive. |
| Acf.AscendingPairwise | src/Supports/AdvancedCustomFields.php:39 | In an ascending sequence no later element is below an earlier one. |
| Acf.InsertCount | src/Supports/AdvancedCustomFields.php:39 | Inserting adds exactly the one element. |
| Acf.InsertAscending | src/Supports/AdvancedCustomFields.php:39 | Inserting into an ascending sequence keeps it ascending. |
| Acf.Asort | src/Supports/AdvancedCustomFields.php:39 | The result is ascending and a permutation of the input. |
| Acf.CollectBlocks | src/Supports/AdvancedCustomFields.php:27-37 | The loop collects exactly the non-dot entries holding a `block.json`, in listing order. |
| Acf.RegisterBlocks | src/Supports/AdvancedCustomFields.php:25-44 | A missing `blocks` directory throws and registers nothing; otherwise the registered paths are an ascending permutation of the collected blocks. |
| Acf.RegisteredAcfBlocks | src/Supports/AdvancedCustomFields.php:25-44 | A path is registered exactly when it is a non-dot entry of `blocks` holding a `block.json`, and no path comes after a larger one. |
| Themes.CandidateInjective | src/Supports/ChildTheme.php:58-75 | Different counters give different candidate slugs, so the search never tries a slug twice. |
| Themes.TriedBound | src/Supports/ChildTheme.php:63-70 | A search that only moves past existing directories stops within one more step than there are directories. |
| Themes.FindOrCreate | src/Supports/ChildTheme.php:58-75 | The slug is the `k`-th candidate; every earlier candidate's directory exists and is not a Picowind child theme; an existing directory is returned only when it is a Picowind child theme; otherwise the source is mirrored into the new directory; the paths gain the chosen directory and nothing else changes. |
| Themes.FirstReusableOrFreeUnique | src/Supports/ChildTheme.php:58-75 | At most one candidate is the first whose directory is free or holds a Picowind child theme after only non-child directories, so the slug chosen is determined by the site. |
| Themes.CandidateNotParent | src/Supports/ChildTheme.php:53-55 | No candidate slug is `picowind`. |
| ChildThemes.SourceMissing | src/Supports/ChildTheme.php:47-49 | A runtime error whose message names the missing source directory. |
| ChildThemes.ChildTheme.constructor | src/Supports/ChildTheme.php:28-32 | The source is the parent theme's `child-theme/base`. |
| ChildThemes.ChildTheme.ExtractThemeOnActivation | src/Supports/ChildTheme.php:35-56 | Nothing changes when the current theme is already a Picowind child theme or is not the parent; a missing source throws with no change; otherwise the first candidate slug whose directory is free or holds a Picowind child theme (every earlier one existing and not a child theme) becomes active, never `picowind`; an existing directory is reused unchanged, a free one is created by mirroring the source, and the paths gain exactly that directory. |
| ChildThemeExtractors.ChildThemeExtractor.constructor | src/Supports/ChildThemeExtractor.php:28-32 | The source is the parent theme's `child-theme/base`. |
| ChildThemeExtractors.ChildThemeExtractor.Extract | src/Supports/ChildThemeExtractor.php:44-74 | A missing source throws with no change; otherwise the first candidate slug whose directory is free or holds a Picowind child theme becomes active (reused unchanged, or mirrored from the source), the paths gain exactly that directory, and `picowind_child_theme_extracted` fires once with its name. |
| ChildThemeExtractors.ChildThemeExtractor.ExtractOnThemeActivation | src/Supports/ChildThemeExtractor.php:35-42 | The theme it tests is the one `after_switch_theme` hands over, which is the theme switched away from. Nothing happens unless that theme is the parent itself; then it behaves as `extract`: a missing source throws with no change, otherwise the first reusable-or-free candidate becomes active, its directory is reused or mirrored, and the extracted action is appended naming it. |
| ChildThemeExtractors.ChildThemeExtractor.ExtractOnParentActivated | src/Supports/ChildThemeExtractor.php:35-42 | Intended handler: nothing happens unless the theme active when the hook fires is the parent itself; then it behaves as `extract`, with the same error case, candidate choice, reuse or mirroring, and action. |
| ChildThemeExtractors.ActivationTestsPreviousTheme | src/Supports/ChildThemeExtractor.php:35-42 | Switching from another theme to the parent: as written the parent stays active, while the intended handler switches to a child theme. |
| Onboarding.KeepTruthy | src/Api/OnboardingController.php:820 | The kept strings are exactly the truthy ones of the input (no "" and no "0"), never more than the input. |
| Onboarding.TrimAll | src/Api/OnboardingController.php:820 | Each piece is trimmed in place; the count is unchanged. |
| Onboarding.ParseThemeTags | src/Api/OnboardingController.php:814-821 | An empty header gives no tags; every tag is truthy and is a trimmed comma-separated piece of the header. |
| Onboarding.TrimClean | src/Api/OnboardingController.php:820 | A clean tag survives trimming, also with the space that follows a comma. |
| Onboarding.KeepAllTruthy | src/Api/OnboardingController.php:820 | Filtering a list of truthy strings keeps all of them in order. |
| Onboarding.TrimPiece | src/Api/OnboardingController.php:820 | Every piece of a comma-and-space joined list of clean tags trims back to its tag. |
| Onboarding.TrimSpaced | src/Api/OnboardingController.php:820 | Trimming all pieces of such a list gives the tags. |
| Onboarding.TagsRoundTrip | src/Api/OnboardingController.php:814-821 | Writing clean tags as `a, b, c` and parsing the header gives the same tags back. |
| Onboarding.SlugSource | src/Api/OnboardingController.php:782-790 | The slug source is the text domain when set, else the name when set, else the id. |
| Onboarding.ResolveBundledThemeSlug | src/Api/OnboardingController.php:780-799 | The sanitized source when non-empty, else the sanitized id (default `picowind-child`), else `picowind-child`; never empty. |
| Onboarding.StripBundledThemePath | src/Api/OnboardingController.php:773-778 | The record loses `path` and keeps every other key with its value. |
| Onboarding.GenerateUniqueThemeSlug | src/Api/OnboardingController.php:801-812 | The slug is some candidate `base`, `base-1`, ... whose directory does not exist, and every earlier candidate's directory exists. |
| Onboarding.LastSlashIsLast | src/Api/OnboardingController.php:636-638 | The position found holds a slash and no slash follows it; none is found exactly when there is no slash. |
| Onboarding.PluginFileParts | src/Api/OnboardingController.php:636-638 | For a file `dir/name.php`, `dirname` gives `dir` and `basename` without `.php` gives `name`. |
| Onboarding.PluginFileByPath | src/Api/OnboardingController.php:629-650 | If some plugin's directory or basename is the slug, the first such plugin's file is returned, whatever text domains say. |
| Onboarding.PluginFileByDomain | src/Api/OnboardingController.php:643-649 | With no directory or basename match, a file is returned exactly when some non-empty text domain equals the slug, and it is the first such plugin's. |
| Env.FindFirst | src/Api/OnboardingController.php:632-640 | The search loop with its early return stops at the first element the test accepts, and finds nothing exactly when no element passes. |
| Onboarding.GetPluginFileBySlug | src/Api/OnboardingController.php:629-650 | The two loops return the plugin file the first-match definition selects. |
| Onboarding.StatusOf | src/Api/OnboardingController.php:610-623 | An external plugin is neither installed nor active; a wporg plugin is installed exactly when its file is found, and active exactly when that file is truthy and active; active implies installed. |
| Onboarding.RecommendedPluginsWithStatus | src/Api/OnboardingController.php:605-627 | One status per catalog plugin, in catalog order. |
| Onboarding.LiveCanvasNotInstallable | src/Api/OnboardingController.php:591-598 | The external catalog plugin fails the install and activate guard. |
| Onboarding.InstallPlugin | src/Api/OnboardingController.php:237-317 | 404 unless the slug is a wporg catalog plugin; 200 when already installed; then the plugins_api error, the installer error, a false install and a missing file each give 500 with their message; otherwise 200 with the active flag. Success holds exactly with status 200 and always reports the plugin installed. |
| Onboarding.ActivatePlugin | src/Api/OnboardingController.php:342-394 | 404 unless a wporg catalog plugin, 404 when not installed, 200 when already active, 500 with the activation error, else 200; success holds exactly with status 200 and reports the plugin installed and active. |
| Onboarding.InstalledMatchIsChild | src/Api/OnboardingController.php:728-771 | A found theme is always a Picowind child theme, is the active or an installed theme, and shares the text domain, the name or the fallback slug. |
| Onboarding.InstalledMatchPriority | src/Api/OnboardingController.php:736-768 | A matching active child theme wins; otherwise an installed child theme with the text domain wins over the slug and name matches; nothing is found only when no installed child theme shares the text domain or name. |
| Onboarding.FindInstalledTheme | src/Api/OnboardingController.php:728-771 | The checks and loops return the theme the preference-order definition selects. |
| DaisyUi.AddToContext | src/Supports/DaisyUI.php:24-29 | The context gains `daisyui_enabled` set to the configured flag (false when unset); every other key is unchanged. |
| DaisyUi.Renumber | src/Supports/DaisyUI.php:48 | Renumbering keeps the length. |
| DaisyUi.RenumberKeeps | src/Supports/DaisyUI.php:48 | Entries keep their directories and namespaces in order; positional entries are numbered consecutively from the new start. |
| DaisyUi.PositionalAppend | src/Supports/DaisyUI.php:48 | Positional entries of a concatenation are those of the parts added up. |
| DaisyUi.AddDaisyUiLocations | src/Supports/DaisyUI.php:36-51 | With the flag off the locations are unchanged; with it on, the DaisyUI directory comes first and the old entries follow renumbered. |
| DaisyUi.DaisyUiFirst | src/Supports/DaisyUI.php:43-50 | With the flag on, there is one more entry, the first is `views/daisyui` under the parent theme, and the old directories follow in order under the same namespaces. |
| DaisyUi.DaisyUiOffByDefault | src/Supports/DaisyUI.php:39-41 | With the flag not configured, the locations are unchanged. |
| Shortcodes.RegisterShortcode | src/Supports/Shortcode.php:18-27 | Nothing is registered when the filter says no; otherwise exactly the tags twig, blade and latte, each handled with its own engine. |
| Shortcodes.RenderShortcode | src/Supports/Shortcode.php:29-50 | A template attribute is rendered as a file; else truthy content is rendered as a string; else the result is empty; a null render gives "". |
| Shortcodes.TemplateWins | src/Supports/Shortcode.php:41-47 | With a template attribute, the content and the string renderer make no difference. |
| Shortcodes.NullRenderIsEmpty | src/Supports/Shortcode.php:42-49 | Renderers that return null make every shortcode render as "". |
| Shortcodes.HandlersUseOwnEngine | src/Supports/Shortcode.php:29-96 | The twig, blade and latte handlers pass their own engine name to the renderer. |
| OmniIcon.IntText | src/Supports/OmniIconSupport.php:99-100 | An integer's text is never empty. |
| OmniIcon.IntTextInjective | src/Supports/OmniIconSupport.php:99-100 | Different integers get different texts. |
| OmniIcon.DecimalDigits | src/Supports/OmniIconSupport.php:99-100 | A natural number's decimal text has no minus sign. |
| OmniIcon.Stringify | src/Supports/OmniIconSupport.php:96-102 | Booleans become `true` or `false`, integers their decimal text, anything else is unchanged; no boolean or integer remains. |
| OmniIcon.StringifyIdempotent | src/Supports/OmniIconSupport.php:96-102 | Stringifying twice equals stringifying once. |
| OmniIcon.GetIcon | src/Supports/OmniIconSupport.php:74-113 | Null without the plugin, without `:` in the name or without a service; otherwise the service's answer for the name and the stringified attributes. |
| OmniIcon.SentAttributes | src/Supports/OmniIconSupport.php:96-105 | The service sees the same keys in the same order, no boolean or integer values, and every other value unchanged. |

## Left out

- Filesystem, WordPress, reflection, `md5`, `serialize`, `sanitize_title`, `name_slugify` and the Twig, Blade and Latte engines are not modelled as behaviour. Each one is a parameter: a set of existing paths, a map, a record or a function value.
- Output buffering and `echo` are left out; only the returned or echoed string is modelled. Two `error_log` sites are modelled as logs: the `WP_DEBUG` line for a class that fails in `scanLocation` (Manager.Failures) and the command instantiation failure (Commands.RegisterOutcome, the `errorLog` field). The others are left out: the reflection error in `DirectoryScanner` (line 87), and the `error_log` calls of `OmniIconSupport`, `Iconify` and `WindPress`.
- Exceptions.NewServiceNotFound: the message is the bare id. Symfony's text `You have requested a non-existent service "<id>".` is not modelled, so the command error log line quotes the id instead of that sentence.
- Scanner.DirectoryScanner.ScanPath: a child's path is the parent path, `/` and the entry name. `realpath` is applied only to the given path, not again to each child, so a symbolic link inside the tree (scanned under its resolved target, or skipped when broken) is not modelled.
- `require_once` of scanned class files is left out, and so is PHP autoloading. Whether a class loads is a given predicate.
- Concurrency and clocks are left out. Timestamps and file modification times are parameters.
- Floating point is left out. `OmniIconSupport` also stringifies floats; the attribute values here are booleans, integers, strings, arrays and null.
- OmniIcon.GetIcon: a float attribute is not represented, so its conversion to text is not stated.
- Onboarding.GetPluginFileBySlug: `dirname` is simplified to "the part before the last slash". PHP's stripping of trailing slashes never applies to a `get_plugins()` key such as `dir/file.php`.
- Onboarding.InstallPlugin: an exception thrown inside the `try` block, caught as a 500 with its message, is not modelled. The WordPress calls are given as results, not as code that throws.
- Onboarding.ActivatePlugin: the same holds for its `catch` branch.
- Onboarding.FindInstalledTheme: `wp_get_themes()` is a sequence in which each stylesheet appears once. The lookup by key is the theme with that stylesheet.
- Onboarding.TextOr reads a bundled theme record. A field that is not a string counts as absent, which only matters for records that the bundled-theme scan does not produce.
- `getBundledThemesCatalog`, `getBundledThemes` and `installBundledTheme` are left out, and so are the remaining REST endpoints. They scan directories, read `style.css` headers, sort with `strcasecmp`, and copy with Symfony `Filesystem`. `findInstalledTheme`, `resolveBundledThemeSlug`, `generateUniqueThemeSlug`, `stripBundledThemePath` and `parseThemeTags`, which they rely on, are modelled.
- Onboarding.ParseThemeTags drops the tag "0" as well as empty tags, because `array_filter` treats "0" as false. The round trip is stated for tags other than "0".
- LatteLoader.NormalizeIdempotent: idempotence holds except for a result that is a drive letter followed by `.`. The lemma beside it exhibits such an input.
- LatteLoader's `getContent` on an expired file calls `touch` and `trigger_error`. Only the expired flag is modelled.
- Cache.DiscoveryCache.Clear: the cache directory is a map from file names to cache files. `glob('*.cache')` skipping hidden files is modelled; `wp_mkdir_p` and files other than cache files are not.
- Blocks: the metadata filter is modelled as applied once per block. Applying it twice can change the render engine again.
- ChildThemes.ChildTheme.ExtractThemeOnActivation: the candidate slug is never `picowind`, so a site running the parent always switches. The "no switch when the name equals the current stylesheet" branch is modelled but cannot be reached here.
- Controllers.ControllerDiscovery.Apply: states the intended behaviour, built on the corrected registration. The code as written never registers a controller class and compiles the container at the first item; ControllerDiscovery.ApplyAsWritten states that.
- Manager.ProcessLocation: writes the cache file with the corrected per-location store. As written, each file holds the items of every location scanned so far (see Findings). Its contract only states that a file is written, so the file contents of a multi-location run differ from the program's.
- Exceptions: the classes under `src/Exceptions` and their duplicates under `src/Core/Exception` build the same messages and are modelled by one kind each. Which of the two PHP classes is thrown is not modelled.
- Containers.Container.Alias: Symfony's `setAlias` refuses an alias equal to its target with an InvalidArgumentException. The model adds such an alias instead, so Services.AliasesAfter and Services.ServiceDiscovery.RegisterServiceFromData do not model the exception for a `Service` attribute whose alias equals its id. It also removes a definition registered under the alias id; the model keeps that definition, so Containers.Container.Alias promises `definitions == old(definitions)` where Symfony would drop the colliding one.
- Containers.Container.Register: Symfony's `setDefinition` removes an alias under the same id. The model keeps the alias, so the key equations of Services.ServiceDiscovery.Apply and Services.ServiceDiscovery.RegisterAll, and Services.AliasesUntouched, do not cover a service id that collides with an existing alias.
- Containers: compiling is modelled only as removing the aliases and setting `wpdb`. Autowiring checks, the removal of unused private definitions and the other compiler passes are not modelled. Every definition made here is public.
- Reflector exceptions are modelled only for the `ClassReflector` constructor. An exception thrown inside a discovery's `discover` after other discoveries ran is left out.
- `ControllerDiscovery` is modelled on its own. `DiscoveryManager` lists only the service, hook and command discoveries.
- Services: `register()` always marks a definition public, so `public: false` in the attribute has no effect. This is modelled as written.
- `DiscoveryItems::getIterator` and `getByLocation` are modelled through `All` and the per-location map.
- Pages.PagePage: `Picowind\render` is not part of this model, so the default engine it applies when `page.php` passes none is a parameter.
- PhpRender: a first existing path that is the string "0" is falsy, so the code throws instead of including it. This is modelled as written.
- Blade: an empty array of paths reaches `pathinfo` as the empty array itself, which the model reports as the TypeError.

## Findings

| source | as written | input that shows it | evidently intended | confidence | as-written member | corrected member |
|---|---|---|---|---|---|---|
| src/Core/Discovery/ControllerDiscovery.php:80-82 | `has()` compiles the container, so `! has(..) && ! is_compiled()` is always false and `register` never runs | any controller class on a fresh, uncompiled container | register the controller class when the container neither knows it nor is compiled | high, not executed | Controllers.ControllerDiscovery.RegisterControllerFromDataAsWritten (witness Controllers.ControllerNeverRegistered; loop Controllers.ControllerDiscovery.ApplyAsWritten) | Controllers.ControllerDiscovery.RegisterControllerFromData |
| src/Core/Discovery/DiscoveryCache.php:32-35 | each location's cache file stores `getItems()->all()`, the items of every location scanned so far | two locations with one item each: the second file holds both items, and restoring both gives the first item twice | store only the items of the location being cached | high, not executed | Cache.DiscoveryCache.StoreAsWritten (witness Cache.StoredAllDuplicates) | Cache.DiscoveryCache.Store (proved by Cache.RestoreRebuildsScan) |
| src/Supports/ChildThemeExtractor.php:35-42 | `extract_on_theme_activation` tests the theme `after_switch_theme` passes, which WordPress documents as the previous theme | switching from another theme to picowind does not extract; switching from picowind to another theme extracts and switches back to a child theme | test the active theme, `wp_get_theme()`, as `ChildTheme::extract_theme_on_activation` does | medium, not executed | ChildThemeExtractors.ChildThemeExtractor.ExtractOnThemeActivation (witness ChildThemeExtractors.ActivationTestsPreviousTheme) | ChildThemeExtractors.ChildThemeExtractor.ExtractOnParentActivated |
