/** `Picowind\Api\OnboardingController`: the decisions behind the onboarding
    REST endpoints — reading bundled-theme metadata, choosing a slug for an
    installed child theme, matching installed themes and plugins, and the
    plugin catalog guards. The WordPress installers themselves are not
    part of this model. */
module Onboarding {
  import opened Php
  import opened Env
  import opened Exceptions
  import opened Themes

  // ---------------------------------------------------------------------
  // Bundled theme records

  /** A bundled theme record is a PHP array; `$b[$k] ?? $default` reads a
      string field of it. */
  function TextOr(b: Context, k: string, default: string): string {
    if k in b && b[k].Str? then b[k].s else default
  }

  /** `array_values(array_filter($xs))` on strings: drops "" and "0". */
  function KeepTruthy(xs: seq<string>): (r: seq<string>)
    ensures |r| <= |xs|
    ensures forall t :: t in r ==> Truthy(t) && t in xs
    ensures forall t :: t in xs && Truthy(t) ==> t in r
  {
    if xs == [] then []
    else
      assert forall t :: t in xs <==> t == xs[0] || t in xs[1..];
      (if Truthy(xs[0]) then [xs[0]] else []) + KeepTruthy(xs[1..])
  }

  /** `array_map('trim', $xs)`. */
  function TrimAll(xs: seq<string>): (r: seq<string>)
    ensures |r| == |xs|
    ensures forall i :: 0 <= i < |xs| ==> r[i] == Trim(xs[i])
  {
    seq(|xs|, i requires 0 <= i < |xs| => Trim(xs[i]))
  }

  /** `parseThemeTags`: the `Tags` header split on commas, each tag trimmed,
      empty (and "0") tags dropped. */
  function ParseThemeTags(tags: string): (r: seq<string>)
    ensures tags == "" ==> r == []
    ensures forall t :: t in r ==> Truthy(t)
    ensures forall t :: t in r ==> exists piece :: piece in Explode(tags, ',') && t == Trim(piece)
  {
    if tags == "" then []
    else
      var pieces := Explode(tags, ',');
      var trimmed := TrimAll(pieces);
      assert forall t :: t in trimmed ==> exists piece :: piece in pieces && t == Trim(piece) by {
        forall t | t in trimmed ensures exists piece :: piece in pieces && t == Trim(piece) {
          var i :| 0 <= i < |trimmed| && trimmed[i] == t;
          assert pieces[i] in pieces;
        }
      }
      KeepTruthy(trimmed)
  }

  /** A tag as a theme header would list it: no comma, no surrounding
      whitespace, and not empty or "0". */
  predicate CleanTag(t: string) {
    Truthy(t) && ',' !in t && t[0] !in Whitespace && t[|t| - 1] !in Whitespace
  }

  lemma TrimClean(t: string)
    requires CleanTag(t)
    ensures Trim(t) == t && Trim(" " + t) == t
  {
    assert LTrim(" " + t, Whitespace) == LTrim(t, Whitespace) by {
      assert (" " + t)[1..] == t;
    }
  }

  lemma {:induction false} KeepAllTruthy(xs: seq<string>)
    requires forall i :: 0 <= i < |xs| ==> Truthy(xs[i])
    ensures KeepTruthy(xs) == xs
    decreases |xs|
  {
    if xs != [] {
      KeepAllTruthy(xs[1..]);
    }
  }

  /** Trimming the pieces of a ", "-joined list of clean tags gives the
      tags. */
  lemma TrimPiece(ts: seq<string>, i: nat)
    requires i < |ts| && CleanTag(ts[i])
    ensures Trim(CommaSpaced(ts)[i]) == ts[i]
  {
    TrimClean(ts[i]);
    if i > 0 {
      assert CommaSpaced(ts)[i] == " " + ts[i];
    }
  }

  lemma TrimSpaced(ts: seq<string>)
    requires |ts| >= 1
    requires forall i :: 0 <= i < |ts| ==> CleanTag(ts[i])
    ensures TrimAll(CommaSpaced(ts)) == ts
  {
    forall i | 0 <= i < |ts| ensures TrimAll(CommaSpaced(ts))[i] == ts[i] {
      TrimPiece(ts, i);
    }
  }

  /** Writing clean tags as `a, b, c` and parsing the header gives the tags
      back. */
  lemma TagsRoundTrip(ts: seq<string>)
    requires |ts| >= 1
    requires forall i :: 0 <= i < |ts| ==> CleanTag(ts[i])
    ensures ParseThemeTags(Implode(ts, ", ")) == ts
  {
    var text := Implode(ts, ", ");
    assert text != "" by {
      assert |ts[0]| >= 1;
      if |ts| > 1 {
        assert text == ts[0] + ", " + Implode(ts[1..], ", ");
      }
    }
    SplitCommaSpace(ts);
    TrimSpaced(ts);
    KeepAllTruthy(ts);
  }

  /** The text the slug is derived from: the text domain, else the name,
      else the id. */
  function SlugSource(b: Context): (src: string)
    ensures TextOr(b, "textDomain", "") != "" ==> src == TextOr(b, "textDomain", "")
    ensures TextOr(b, "textDomain", "") == "" && TextOr(b, "name", "") != "" ==> src == TextOr(b, "name", "")
    ensures TextOr(b, "textDomain", "") == "" && TextOr(b, "name", "") == "" ==> src == TextOr(b, "id", "")
  {
    var domain := TextOr(b, "textDomain", "");
    var named := if domain == "" then TextOr(b, "name", "") else domain;
    if named == "" then TextOr(b, "id", "") else named
  }

  /** `resolveBundledThemeSlug`: `sanitize` is `sanitize_title`. The slug of
      the first non-empty source; if that sanitizes to nothing, the
      sanitized id (or `picowind-child` when there is no id); and never the
      empty string. */
  function ResolveBundledThemeSlug(b: Context, sanitize: string -> string): (r: string)
    ensures r != ""
    ensures sanitize(SlugSource(b)) != "" ==> r == sanitize(SlugSource(b))
    ensures sanitize(SlugSource(b)) == "" ==>
      r == (if sanitize(TextOr(b, "id", ChildThemeBaseName)) != "" then sanitize(TextOr(b, "id", ChildThemeBaseName))
            else ChildThemeBaseName)
  {
    var slug := sanitize(SlugSource(b));
    var fallback := if slug == "" then sanitize(TextOr(b, "id", ChildThemeBaseName)) else slug;
    if fallback == "" then ChildThemeBaseName else fallback
  }

  /** `stripBundledThemePath`: the record without its `path`. */
  function StripBundledThemePath(b: Context): (r: Context)
    ensures "path" !in r
    ensures forall k :: k != "path" ==> (k in r <==> k in b) && (k in b ==> r[k] == b[k])
  {
    b - {"path"}
  }

  // ---------------------------------------------------------------------
  // Slugs for installed child themes

  /** `generateUniqueThemeSlug`: `base` if no theme directory has that name,
      else the first of `base-1`, `base-2`, ... that is free. `dirs` is what
      `is_dir` sees. */
  method GenerateUniqueThemeSlug(base: string, themeRoot: string, dirs: set<string>) returns (slug: string)
    ensures TrailingSlashIt(themeRoot) + slug !in dirs
    ensures exists k: nat :: (slug == Candidate(base, k)
      && forall j :: 0 <= j < k ==> TrailingSlashIt(themeRoot) + Candidate(base, j) in dirs)
  {
    var prefix := TrailingSlashIt(themeRoot);
    slug := base;
    var counter := 1;
    while prefix + slug in dirs
      invariant counter >= 1 && slug == Candidate(base, counter - 1)
      invariant Tried(prefix, base, counter - 1) <= dirs
      invariant forall j :: 0 <= j < counter - 1 ==> prefix + Candidate(base, j) in dirs
      decreases |dirs| - (counter - 1)
    {
      assert Tried(prefix, base, counter) <= dirs;
      TriedBound(prefix, base, counter, dirs);
      slug := base + "-" + Decimal(counter);
      counter := counter + 1;
    }
  }

  // ---------------------------------------------------------------------
  // Plugins

  /** An entry of `get_plugins()`: the plugin file (relative to the plugins
      directory) and its `TextDomain` header. */
  datatype PluginEntry = PluginEntry(file: string, textDomain: string)

  /** The position of the last `/` in `s`, if any. */
  function LastSlash(s: string): (r: Option<nat>)
    ensures r.Some? ==> r.value < |s|
    decreases |s|
  {
    if s == [] then None
    else if s[|s| - 1] == '/' then Some(|s| - 1)
    else LastSlash(s[..|s| - 1])
  }

  lemma {:induction false} LastSlashIsLast(s: string)
    ensures LastSlash(s).None? <==> '/' !in s
    ensures LastSlash(s).Some? ==>
      LastSlash(s).value < |s| && s[LastSlash(s).value] == '/' && '/' !in s[LastSlash(s).value + 1..]
    decreases |s|
  {
    if s != [] && s[|s| - 1] != '/' {
      var init := s[..|s| - 1];
      LastSlashIsLast(init);
      assert s == init + [s[|s| - 1]];
      if LastSlash(init).Some? {
        var k := LastSlash(init).value;
        assert s[k + 1..] == init[k + 1..] + [s[|s| - 1]];
      }
    }
  }

  /** `dirname($file)` for a relative plugin file: the part before the last
      `/` (`/` itself when that is all), or `.` when there is none. */
  function DirName(file: string): string {
    match LastSlash(file)
    case None => "."
    case Some(k) => if k == 0 then "/" else file[..k]
  }

  /** `basename($file, $suffix)`: the part after the last `/`, without the
      suffix unless the suffix is all of it. */
  function BaseName(file: string, suffix: string): string {
    var last := match LastSlash(file) case None => file case Some(k) => file[k + 1..];
    if EndsWith(last, suffix) && last != suffix then last[..|last| - |suffix|] else last
  }

  /** A plugin file and its directory and basename fit together: the file
      is the directory, a `/`, and the basename with `.php`. */
  lemma PluginFileParts(dir: string, name: string)
    requires dir != "" && dir[0] != '/' && name != "" && '/' !in name
    ensures DirName(dir + "/" + name + ".php") == dir
    ensures BaseName(dir + "/" + name + ".php", ".php") == name
  {
    var file := dir + "/" + name + ".php";
    var k := SlashBeforeName(dir, name + ".php");
    assert file == dir + "/" + (name + ".php");
    assert file[..k] == dir;
    assert (name + ".php")[|name|..] == ".php";
  }

  /** The last `/` of `dir/rest` is the joint when `rest` has none. */
  lemma SlashBeforeName(dir: string, rest: string) returns (k: nat)
    requires '/' !in rest
    ensures LastSlash(dir + "/" + rest) == Some(|dir|) && k == |dir|
    ensures (dir + "/" + rest)[k + 1..] == rest
  {
    var file := dir + "/" + rest;
    LastSlashSkips(dir + "/", rest);
    k := |dir|;
    assert file[k + 1..] == rest;
  }

  /** Characters other than `/` after a prefix do not move its last `/`. */
  lemma {:induction false} LastSlashSkips(pre: string, rest: string)
    requires '/' !in rest
    ensures LastSlash(pre + rest) == LastSlash(pre)
    decreases |rest|
  {
    if rest != [] {
      var init := rest[..|rest| - 1];
      assert (pre + rest)[..|pre + rest| - 1] == pre + init;
      assert rest[|rest| - 1] in rest;
      assert '/' !in init by { assert forall x :: x in init ==> x in rest; }
      LastSlashSkips(pre, init);
    } else {
      assert pre + rest == pre;
    }
  }

  predicate PathMatch(p: PluginEntry, slug: string) {
    DirName(p.file) == slug || BaseName(p.file, ".php") == slug
  }

  /** `! empty($data['TextDomain']) && $data['TextDomain'] === $slug`. */
  predicate DomainMatch(p: PluginEntry, slug: string) {
    Truthy(p.textDomain) && p.textDomain == slug
  }

  function PathMatcher(slug: string): PluginEntry -> bool {
    p => PathMatch(p, slug)
  }

  function DomainMatcher(slug: string): PluginEntry -> bool {
    p => DomainMatch(p, slug)
  }

  /** The plugin file `getPluginFileBySlug` returns: the first entry whose
      directory or basename is the slug; failing that, the first whose text
      domain is; failing that, none. */
  function PluginFile(plugins: seq<PluginEntry>, slug: string): Option<string> {
    match FirstIndex(plugins, PathMatcher(slug))
    case Some(i) => Some(plugins[i].file)
    case None =>
      match FirstIndex(plugins, DomainMatcher(slug))
      case Some(i) => Some(plugins[i].file)
      case None => None
  }

  /** A directory or basename match anywhere beats a text-domain match:
      the file of the first entry matching that way is found. */
  lemma PluginFileByPath(plugins: seq<PluginEntry>, slug: string, i: nat)
    requires i < |plugins| && PathMatch(plugins[i], slug)
    ensures exists k :: (0 <= k <= i && PathMatch(plugins[k], slug) && PluginFile(plugins, slug) == Some(plugins[k].file)
      && forall j :: 0 <= j < k ==> !PathMatch(plugins[j], slug))
  {
    var found := FirstIndex(plugins, PathMatcher(slug));
    assert PathMatcher(slug)(plugins[i]);
    assert found.Some?;
    var k := found.value;
    assert PathMatch(plugins[k], slug) by { assert PathMatcher(slug)(plugins[k]); }
    forall j | 0 <= j < k ensures !PathMatch(plugins[j], slug) {
      assert !PathMatcher(slug)(plugins[j]);
    }
  }

  /** With no directory or basename match, the file of the first entry
      whose text domain is the slug is found, and nothing when there is
      none. */
  lemma PluginFileByDomain(plugins: seq<PluginEntry>, slug: string)
    requires forall i :: 0 <= i < |plugins| ==> !PathMatch(plugins[i], slug)
    ensures PluginFile(plugins, slug).Some? <==> exists i :: 0 <= i < |plugins| && DomainMatch(plugins[i], slug)
    ensures PluginFile(plugins, slug).Some? ==>
      exists k :: (0 <= k < |plugins| && DomainMatch(plugins[k], slug) && PluginFile(plugins, slug) == Some(plugins[k].file)
      && forall j :: 0 <= j < k ==> !DomainMatch(plugins[j], slug))
  {
    FirstIndexAt(plugins, PathMatcher(slug), |plugins|);
    var found := FirstIndex(plugins, DomainMatcher(slug));
    if found.Some? {
      var k := found.value;
      assert DomainMatch(plugins[k], slug) by { assert DomainMatcher(slug)(plugins[k]); }
      forall j | 0 <= j < k ensures !DomainMatch(plugins[j], slug) {
        assert !DomainMatcher(slug)(plugins[j]);
      }
    } else {
      forall i | 0 <= i < |plugins| ensures !DomainMatch(plugins[i], slug) {
        assert !DomainMatcher(slug)(plugins[i]);
      }
    }
  }

  /** `getPluginFileBySlug`: two passes over the installed plugins. */
  method GetPluginFileBySlug(plugins: seq<PluginEntry>, slug: string) returns (r: Option<string>)
    ensures r == PluginFile(plugins, slug)
  {
    var found := FindFirst(plugins, PathMatcher(slug));
    if found.Some? {
      return Some(plugins[found.value].file);
    }
    found := FindFirst(plugins, DomainMatcher(slug));
    if found.Some? {
      return Some(plugins[found.value].file);
    }
    return None;
  }

  /** A plugin of the recommended catalog. */
  datatype CatalogPlugin = CatalogPlugin(id: string, name: string, slug: string, source: string, url: string, description: string)

  /** `getRecommendedPluginsCatalog`, in key order; each key is the
      plugin's id. */
  const Catalog: seq<CatalogPlugin> := [
    CatalogPlugin("windpress", "WindPress", "windpress", "wporg", "https://wordpress.org/plugins/windpress/",
                  "Tailwind CSS integration for the block editor, page builders, and themes."),
    CatalogPlugin("omni-icon", "Omni Icon", "omni-icon", "wporg", "https://wordpress.org/plugins/omni-icon/",
                  "Unified icon management with Iconify, local uploads, and bundled icons."),
    CatalogPlugin("livecanvas", "LiveCanvas", "livecanvas", "external", "https://livecanvas.com/",
                  "Professional page builder for WordPress with front-end editing.")
  ]

  /** A catalog plugin with its installed and active flags. */
  datatype PluginStatus = PluginStatus(plugin: CatalogPlugin, installed: bool, active: bool)

  /** The status reported for one catalog plugin. `activeFiles` are the
      plugin files `is_plugin_active` accepts. */
  function StatusOf(p: CatalogPlugin, plugins: seq<PluginEntry>, activeFiles: set<string>): (s: PluginStatus)
    ensures s.plugin == p
    ensures p.source != "wporg" ==> !s.installed && !s.active
    ensures p.source == "wporg" ==> (s.installed <==> PluginFile(plugins, p.slug).Some?)
    ensures s.active ==> s.installed
    ensures s.active <==>
      p.source == "wporg" && PluginFile(plugins, p.slug).Some?
      && Truthy(PluginFile(plugins, p.slug).value) && PluginFile(plugins, p.slug).value in activeFiles
  {
    if p.source != "wporg" then PluginStatus(p, false, false)
    else
      var file := PluginFile(plugins, p.slug);
      PluginStatus(p, file.Some?, file.Some? && Truthy(file.value) && file.value in activeFiles)
  }

  /** `getRecommendedPluginsWithStatus`: every catalog plugin, in catalog
      order, with its status. */
  method RecommendedPluginsWithStatus(plugins: seq<PluginEntry>, activeFiles: set<string>) returns (r: seq<PluginStatus>)
    ensures |r| == |Catalog|
    ensures forall i :: 0 <= i < |r| ==> r[i] == StatusOf(Catalog[i], plugins, activeFiles)
  {
    r := [];
    var i := 0;
    while i < |Catalog|
      invariant i <= |Catalog| && |r| == i
      invariant forall j :: 0 <= j < i ==> r[j] == StatusOf(Catalog[j], plugins, activeFiles)
    {
      var plugin := Catalog[i];
      if plugin.source != "wporg" {
        r := r + [PluginStatus(plugin, false, false)];
      } else {
        var file := GetPluginFileBySlug(plugins, plugin.slug);
        r := r + [PluginStatus(plugin, file != None, file.Some? && Truthy(file.value) && file.value in activeFiles)];
      }
      i := i + 1;
    }
  }

  /** `isset($catalog[$slug]) && ($catalog[$slug]['source'] ?? '') === 'wporg'`. */
  predicate Installable(slug: string) {
    exists i :: 0 <= i < |Catalog| && Catalog[i].id == slug && Catalog[i].source == "wporg"
  }

  /** The external plugin of the catalog can never be installed or
      activated through the endpoints. */
  lemma LiveCanvasNotInstallable()
    ensures !Installable("livecanvas")
  {
    assert Catalog[0].id != "livecanvas" by { assert Catalog[0].id[0] == 'w'; }
    assert Catalog[1].id != "livecanvas" by { assert Catalog[1].id[0] == 'o'; }
    assert Catalog[2].source != "wporg" by { assert Catalog[2].source[0] == 'e'; }
  }

  /** The `data` of a successful plugin response. */
  datatype PluginData = PluginData(installed: bool, active: bool)

  /** A plugin endpoint's `WP_REST_Response`: the HTTP status, `success`,
      `message` and, on success, `data`. */
  datatype PluginResponse = PluginResponse(status: int, success: bool, message: string, data: Option<PluginData>)

  function Failure(status: int, message: string): PluginResponse {
    PluginResponse(status, false, message, None)
  }

  /** What installing the download returns: a `WP_Error`, `false`, or
      success. */
  datatype InstallOutcome = InstallError(message: string) | InstallFailed | Installed

  /** `installPlugin`. `pluginInfo` is what `plugins_api` returns (the
      download link, or the message of its `WP_Error`), `upgrade` what the
      plugin installer returns for a link, and `pluginsAfter` what `get_plugins`
      lists once the installer is done. */
  method InstallPlugin(slug: string, plugins: seq<PluginEntry>, activeFiles: set<string>,
                       pluginInfo: Result<string, string>, upgrade: string -> InstallOutcome,
                       pluginsAfter: seq<PluginEntry>) returns (r: PluginResponse)
    ensures !Installable(slug) ==> r == Failure(404, "Plugin is not available for installation")
    ensures Installable(slug) && PluginFile(plugins, slug).Some? && Truthy(PluginFile(plugins, slug).value) ==>
      r == PluginResponse(200, true, "Plugin is already installed",
                          Some(PluginData(true, PluginFile(plugins, slug).value in activeFiles)))
    ensures Installable(slug) && !(PluginFile(plugins, slug).Some? && Truthy(PluginFile(plugins, slug).value)) ==>
      match pluginInfo
      case Err(message) => r == Failure(500, message)
      case Ok(link) =>
        match upgrade(link)
        case InstallError(message) => r == Failure(500, message)
        case InstallFailed => r == Failure(500, "Plugin installation failed")
        case Installed =>
          var file := PluginFile(pluginsAfter, slug);
          if file.Some? && Truthy(file.value) then
            r == PluginResponse(200, true, "Plugin installed successfully", Some(PluginData(true, file.value in activeFiles)))
          else r == Failure(500, "Plugin installation completed, but plugin file could not be found")
    // Success always comes with status 200 and reports the plugin installed.
    ensures r.success <==> r.status == 200
    ensures r.success ==> Installable(slug) && r.data.Some? && r.data.value.installed
  {
    if !(exists i :: 0 <= i < |Catalog| && Catalog[i].id == slug && Catalog[i].source == "wporg") {
      return Failure(404, "Plugin is not available for installation");
    }
    var existing := GetPluginFileBySlug(plugins, slug);
    if existing.Some? && Truthy(existing.value) {
      return PluginResponse(200, true, "Plugin is already installed", Some(PluginData(true, existing.value in activeFiles)));
    }
    if pluginInfo.Err? {
      return Failure(500, pluginInfo.error);
    }
    var result := upgrade(pluginInfo.value);
    if result.InstallError? {
      return Failure(500, result.message);
    }
    if result.InstallFailed? {
      return Failure(500, "Plugin installation failed");
    }
    var pluginFile := GetPluginFileBySlug(pluginsAfter, slug);
    if !(pluginFile.Some? && Truthy(pluginFile.value)) {
      return Failure(500, "Plugin installation completed, but plugin file could not be found");
    }
    r := PluginResponse(200, true, "Plugin installed successfully", Some(PluginData(true, pluginFile.value in activeFiles)));
  }

  /** `activatePlugin`. `activation` is the message of the `WP_Error`
      `activate_plugin` returns, if it returns one. */
  method ActivatePlugin(slug: string, plugins: seq<PluginEntry>, activeFiles: set<string>, activation: Option<string>)
    returns (r: PluginResponse)
    ensures !Installable(slug) ==> r == Failure(404, "Plugin is not available for activation")
    ensures Installable(slug) ==>
      var file := PluginFile(plugins, slug);
      if !(file.Some? && Truthy(file.value)) then r == Failure(404, "Plugin is not installed")
      else if file.value in activeFiles then
        r == PluginResponse(200, true, "Plugin is already active", Some(PluginData(true, true)))
      else if activation.Some? then r == Failure(500, activation.value)
      else r == PluginResponse(200, true, "Plugin activated successfully", Some(PluginData(true, true)))
    // Success always reports the plugin installed and active.
    ensures r.success <==> r.status == 200
    ensures r.success ==> Installable(slug) && r.data == Some(PluginData(true, true))
  {
    if !(exists i :: 0 <= i < |Catalog| && Catalog[i].id == slug && Catalog[i].source == "wporg") {
      return Failure(404, "Plugin is not available for activation");
    }
    var file := GetPluginFileBySlug(plugins, slug);
    if !(file.Some? && Truthy(file.value)) {
      return Failure(404, "Plugin is not installed");
    }
    if file.value in activeFiles {
      return PluginResponse(200, true, "Plugin is already active", Some(PluginData(true, true)));
    }
    if activation.Some? {
      return Failure(500, activation.value);
    }
    r := PluginResponse(200, true, "Plugin activated successfully", Some(PluginData(true, true)));
  }

  // ---------------------------------------------------------------------
  // Matching installed themes

  /** What makes an installed theme the bundled theme `b`: the same text
      domain, the same name, or (for the theme stored under that key) the
      fallback slug. */
  predicate SameDomain(t: Theme, b: Context) {
    TextOr(b, "textDomain", "") != "" && t.textDomain == TextOr(b, "textDomain", "")
  }

  predicate SameName(t: Theme, b: Context) {
    TextOr(b, "name", "") != "" && t.name == TextOr(b, "name", "")
  }

  /** The theme `findInstalledTheme` returns. `installed` is
      `wp_get_themes()` in its order; a theme is stored under its
      stylesheet, so the theme under a key is the one with that
      stylesheet. */
  function InstalledMatch(installed: seq<Theme>, b: Context, active: Theme, sanitize: string -> string): Option<Theme> {
    var fallback := ResolveBundledThemeSlug(b, sanitize);
    if IsPicowindChildTheme(active) && SameDomain(active, b) then Some(active)
    else if IsPicowindChildTheme(active) && SameName(active, b) then Some(active)
    else
      var byDomain := FirstIndex(installed, (t: Theme) => SameDomain(t, b) && IsPicowindChildTheme(t));
      if byDomain.Some? then Some(installed[byDomain.value])
      else
        var keyed := FirstIndex(installed, (t: Theme) => t.stylesheet == fallback);
        if keyed.Some? && IsPicowindChildTheme(installed[keyed.value]) then Some(installed[keyed.value])
        else
          var byName := FirstIndex(installed, (t: Theme) => SameName(t, b) && IsPicowindChildTheme(t));
          if byName.Some? then Some(installed[byName.value]) else None
  }

  /** Only a Picowind child theme that is the active theme or installed,
      and that shares the text domain, the name or the fallback slug, is
      ever found. */
  lemma InstalledMatchIsChild(installed: seq<Theme>, b: Context, active: Theme, sanitize: string -> string)
    ensures var r := InstalledMatch(installed, b, active, sanitize);
      r.Some? ==>
        IsPicowindChildTheme(r.value) && (r.value == active || r.value in installed)
        && (SameDomain(r.value, b) || SameName(r.value, b) || r.value.stylesheet == ResolveBundledThemeSlug(b, sanitize))
  {
    var fallback := ResolveBundledThemeSlug(b, sanitize);
    var byDomain := FirstIndex(installed, (t: Theme) => SameDomain(t, b) && IsPicowindChildTheme(t));
    var keyed := FirstIndex(installed, (t: Theme) => t.stylesheet == fallback);
    var byName := FirstIndex(installed, (t: Theme) => SameName(t, b) && IsPicowindChildTheme(t));
    if byDomain.Some? {
      assert SameDomain(installed[byDomain.value], b);
    }
    if keyed.Some? {
      assert installed[keyed.value].stylesheet == fallback;
    }
    if byName.Some? {
      assert SameName(installed[byName.value], b);
    }
  }

  /** The order of preference: the active child theme (by text domain, then
      by name), then the first installed child theme with the text domain;
      and nothing is found only when no installed child theme shares the
      text domain or the name. */
  lemma InstalledMatchPriority(installed: seq<Theme>, b: Context, active: Theme, sanitize: string -> string)
    ensures var r := InstalledMatch(installed, b, active, sanitize);
      IsPicowindChildTheme(active) && (SameDomain(active, b) || SameName(active, b)) ==> r == Some(active)
    ensures var r := InstalledMatch(installed, b, active, sanitize);
      !(IsPicowindChildTheme(active) && (SameDomain(active, b) || SameName(active, b)))
      && (exists t :: t in installed && IsPicowindChildTheme(t) && SameDomain(t, b)) ==>
        r.Some? && SameDomain(r.value, b)
    ensures var r := InstalledMatch(installed, b, active, sanitize);
      r.None? ==> forall t :: t in installed && IsPicowindChildTheme(t) ==> !SameDomain(t, b) && !SameName(t, b)
  {
    var byDomain := FirstIndex(installed, (t: Theme) => SameDomain(t, b) && IsPicowindChildTheme(t));
    var byName := FirstIndex(installed, (t: Theme) => SameName(t, b) && IsPicowindChildTheme(t));
    if byDomain.Some? {
      assert SameDomain(installed[byDomain.value], b);
    }
    forall t | t in installed && IsPicowindChildTheme(t)
      ensures byDomain.None? ==> !SameDomain(t, b)
      ensures byName.None? ==> !SameName(t, b)
    {
      var i :| 0 <= i < |installed| && installed[i] == t;
    }
  }

  /** `findInstalledTheme`. */
  method FindInstalledTheme(installed: seq<Theme>, b: Context, active: Theme, sanitize: string -> string)
    returns (r: Option<Theme>)
    ensures r == InstalledMatch(installed, b, active, sanitize)
  {
    var textDomain := TextOr(b, "textDomain", "");
    var name := TextOr(b, "name", "");
    var fallbackSlug := ResolveBundledThemeSlug(b, sanitize);
    if IsPicowindChildTheme(active) {
      if textDomain != "" && active.textDomain == textDomain {
        return Some(active);
      }
      if name != "" && active.name == name {
        return Some(active);
      }
    }
    if textDomain != "" {
      var i := 0;
      while i < |installed|
        invariant i <= |installed|
        invariant forall j :: 0 <= j < i ==> !(SameDomain(installed[j], b) && IsPicowindChildTheme(installed[j]))
      {
        if installed[i].textDomain == textDomain && IsPicowindChildTheme(installed[i]) {
          return Some(installed[i]);
        }
        i := i + 1;
      }
    }
    var keyed := FirstIndex(installed, (t: Theme) => t.stylesheet == fallbackSlug);
    if fallbackSlug != "" && keyed.Some? {
      var candidate := installed[keyed.value];
      if IsPicowindChildTheme(candidate) {
        return Some(candidate);
      }
    }
    if name != "" {
      var i := 0;
      while i < |installed|
        invariant i <= |installed|
        invariant forall j :: 0 <= j < i ==> !(SameName(installed[j], b) && IsPicowindChildTheme(installed[j]))
      {
        if installed[i].name == name && IsPicowindChildTheme(installed[i]) {
          return Some(installed[i]);
        }
        i := i + 1;
      }
    }
    return None;
  }
}
