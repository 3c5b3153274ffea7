/** What the onboarding and child-theme code sees of WordPress themes, and
    the counter-suffixed slugs (`base`, `base-1`, `base-2`, ...) both use to
    find a free theme directory. */
module Themes {
  import opened Php
  import opened Exceptions

  /** A `WP_Theme`: whether it exists, its stylesheet (directory) and
      template, and the `Name` and `TextDomain` headers. */
  datatype Theme = Theme(present: bool, stylesheet: string, template: string, name: string, textDomain: string)

  /** `wp_get_theme($slug)`: a slug without an installed theme gives a theme
      object that does not exist. */
  function ThemeOf(themes: map<string, Theme>, slug: string): Theme {
    if slug in themes then themes[slug] else Theme(false, slug, "", "", "")
  }

  /** `isPicowindChildTheme` / `is_picowind_child_theme`: an existing theme
      whose template is `picowind` and that is not `picowind` itself. */
  predicate IsPicowindChildTheme(t: Theme) {
    t.present && t.template == "picowind" && t.stylesheet != "picowind"
  }

  /** `is_parent_activated` / `is_parent_theme_activated`: the parent theme
      itself is the theme in question. */
  predicate IsParentActivated(t: Theme) {
    t.template == "picowind" && t.stylesheet == "picowind"
  }

  const ChildThemeBaseName := "picowind-child"

  /** The `n`-th candidate slug: `base`, then `base-1`, `base-2`, ... */
  function Candidate(base: string, n: nat): string {
    if n == 0 then base else base + "-" + Decimal(n)
  }

  /** Different counters give different candidates. */
  lemma CandidateInjective(base: string, i: nat, j: nat)
    requires Candidate(base, i) == Candidate(base, j)
    ensures i == j
  {
    if i != 0 && j != 0 {
      var ci, cj := Candidate(base, i), Candidate(base, j);
      assert ci[|base| + 1..] == Decimal(i);
      assert cj[|base| + 1..] == Decimal(j);
      DecimalInjective(i, j);
    }
  }

  /** The paths of the first `n` candidates under a directory prefix. */
  function Tried(prefix: string, base: string, n: nat): set<string> {
    if n == 0 then {} else Tried(prefix, base, n - 1) + {prefix + Candidate(base, n - 1)}
  }

  lemma {:induction false} TriedMembers(prefix: string, base: string, n: nat)
    ensures forall p :: p in Tried(prefix, base, n) <==> exists j :: 0 <= j < n && p == prefix + Candidate(base, j)
    decreases n
  {
    if n > 0 {
      TriedMembers(prefix, base, n - 1);
    }
  }

  /** The tried paths are pairwise different, so there are `n` of them. */
  lemma {:induction false} TriedSize(prefix: string, base: string, n: nat)
    ensures |Tried(prefix, base, n)| == n
    decreases n
  {
    if n > 0 {
      TriedSize(prefix, base, n - 1);
      TriedMembers(prefix, base, n - 1);
      var last := prefix + Candidate(base, n - 1);
      if last in Tried(prefix, base, n - 1) {
        var j :| 0 <= j < n - 1 && last == prefix + Candidate(base, j);
        assert (prefix + Candidate(base, j))[|prefix|..] == Candidate(base, j);
        assert last[|prefix|..] == Candidate(base, n - 1);
        CandidateInjective(base, j, n - 1);
      }
    }
  }

  lemma {:induction false} SubsetSize<T>(a: set<T>, b: set<T>)
    requires a <= b
    ensures |a| <= |b|
    decreases |a|
  {
    if a != {} {
      var x :| x in a;
      SubsetSize(a - {x}, b - {x});
    }
  }

  /** A search through the candidates that only moves on past existing
      paths stops within `|paths| + 1` steps: the tried paths all exist and
      are pairwise different. */
  lemma TriedBound(prefix: string, base: string, n: nat, paths: set<string>)
    requires Tried(prefix, base, n) <= paths
    ensures n <= |paths|
  {
    TriedSize(prefix, base, n);
    SubsetSize(Tried(prefix, base, n), paths);
  }

  /** The `k`-th candidate is the one the child-theme search settles on
      under a theme root: every earlier candidate's directory exists and is
      not a Picowind child theme, and the `k`-th is either a Picowind child
      theme or has no directory yet. */
  ghost predicate FirstReusableOrFree(themeRoot: string, paths: set<string>, themes: map<string, Theme>, k: nat) {
    && (forall j :: 0 <= j < k ==>
          themeRoot + "/" + Candidate(ChildThemeBaseName, j) in paths
          && !IsPicowindChildTheme(ThemeOf(themes, Candidate(ChildThemeBaseName, j))))
    && (themeRoot + "/" + Candidate(ChildThemeBaseName, k) in paths ==>
          IsPicowindChildTheme(ThemeOf(themes, Candidate(ChildThemeBaseName, k))))
  }

  /** At most one candidate is the first reusable-or-free one, so the slug
      a site switches to is determined by its directories and themes. */
  lemma FirstReusableOrFreeUnique(themeRoot: string, paths: set<string>, themes: map<string, Theme>, i: nat, j: nat)
    requires FirstReusableOrFree(themeRoot, paths, themes, i)
    requires FirstReusableOrFree(themeRoot, paths, themes, j)
    ensures i == j
  {
  }

  /** `trailingslashit($s)`. */
  function TrailingSlashIt(s: string): string {
    RTrim(s, {'/', '\\'}) + "/"
  }

  /** The mutable part of the WordPress site the child-theme helpers act
      on: which paths exist, the installed themes, the active theme, the
      directories mirrored and the actions fired. */
  class Site {
    const themeRoot: string
    var paths: set<string>
    var themes: map<string, Theme>
    var active: string
    var mirrored: seq<(string, string)>
    var actions: seq<(string, string)>

    constructor(themeRoot: string, paths: set<string>, themes: map<string, Theme>, active: string)
      ensures this.themeRoot == themeRoot && this.paths == paths && this.themes == themes && this.active == active
      ensures mirrored == [] && actions == []
    {
      this.themeRoot := themeRoot;
      this.paths := paths;
      this.themes := themes;
      this.active := active;
      mirrored := [];
      actions := [];
    }

    /** `get_theme_root() . '/' . $themeName`. */
    function ThemePath(name: string): string
    {
      themeRoot + "/" + name
    }

    /** `wp_get_theme()`. */
    function Current(): Theme
      reads this
    {
      ThemeOf(themes, active)
    }
  }

  /** `find_or_create` (ChildTheme) and `find_or_create_child_theme`
      (ChildThemeExtractor), which are the same loop: walk the candidates
      from `picowind-child` while their directory exists, reuse the first
      one that is a Picowind child theme, and otherwise mirror the source
      into the first candidate whose directory does not exist. */
  method FindOrCreate(site: Site, sourcePath: string) returns (name: string, k: nat)
    modifies site
    ensures name == Candidate(ChildThemeBaseName, k)
    ensures FirstReusableOrFree(site.themeRoot, old(site.paths), old(site.themes), k)
    ensures site.paths == old(site.paths) + {site.ThemePath(name)}
    ensures forall j :: 0 <= j < k ==>
      site.ThemePath(Candidate(ChildThemeBaseName, j)) in old(site.paths)
      && !IsPicowindChildTheme(ThemeOf(old(site.themes), Candidate(ChildThemeBaseName, j)))
    ensures site.ThemePath(name) in old(site.paths) ==>
      IsPicowindChildTheme(ThemeOf(site.themes, name))
      && site.paths == old(site.paths) && site.mirrored == old(site.mirrored)
    ensures site.ThemePath(name) !in old(site.paths) ==>
      site.paths == old(site.paths) + {site.ThemePath(name)}
      && site.mirrored == old(site.mirrored) + [(sourcePath, site.ThemePath(name))]
    ensures site.themes == old(site.themes) && site.active == old(site.active) && site.actions == old(site.actions)
  {
    var prefix := site.themeRoot + "/";
    name := ChildThemeBaseName;
    k := 0;
    while site.ThemePath(name) in site.paths
      invariant name == Candidate(ChildThemeBaseName, k)
      invariant site.paths == old(site.paths) && site.mirrored == old(site.mirrored)
      invariant site.themes == old(site.themes) && site.active == old(site.active) && site.actions == old(site.actions)
      invariant Tried(prefix, ChildThemeBaseName, k) <= site.paths
      invariant forall j :: 0 <= j < k ==>
        site.ThemePath(Candidate(ChildThemeBaseName, j)) in site.paths
        && !IsPicowindChildTheme(ThemeOf(site.themes, Candidate(ChildThemeBaseName, j)))
      decreases |site.paths| - k
    {
      if IsPicowindChildTheme(ThemeOf(site.themes, name)) {
        return;
      }
      assert Tried(prefix, ChildThemeBaseName, k + 1) <= site.paths;
      TriedBound(prefix, ChildThemeBaseName, k + 1, site.paths);
      k := k + 1;
      name := Candidate(ChildThemeBaseName, k);
    }
    site.paths := site.paths + {site.ThemePath(name)};
    site.mirrored := site.mirrored + [(sourcePath, site.ThemePath(name))];
  }

  /** The slug found never names the parent theme, so a site running the
      parent always switches away from it. */
  lemma CandidateNotParent(k: nat)
    ensures Candidate(ChildThemeBaseName, k) != "picowind"
  {
    assert |Candidate(ChildThemeBaseName, k)| >= |ChildThemeBaseName|;
  }
}
