/** `Picowind\Supports\ChildThemeExtractor`: the same search as
    ChildTheme, switching unconditionally and announcing the result. */
module ChildThemeExtractors {
  import opened Php
  import opened Exceptions
  import opened Themes
  import ChildThemes

  class ChildThemeExtractor {
    const sourcePath: string

    constructor(templateDir: string)
      ensures sourcePath == templateDir + "/child-theme/base"
    {
      sourcePath := templateDir + "/child-theme/base";
    }

    /** `extract`: a missing source throws; otherwise the child theme found
        or created is switched to and `picowind_child_theme_extracted` fires
        with its name. */
    method Extract(site: Site) returns (err: Option<Exception>)
      modifies site
      ensures sourcePath !in old(site.paths) ==>
        err == Some(ChildThemes.SourceMissing(sourcePath))
        && site.paths == old(site.paths) && site.mirrored == old(site.mirrored)
        && site.active == old(site.active) && site.actions == old(site.actions)
      ensures sourcePath in old(site.paths) ==>
        err.None?
        && (exists k :: site.active == Candidate(ChildThemeBaseName, k)
              && FirstReusableOrFree(site.themeRoot, old(site.paths), old(site.themes), k))
        && site.paths == old(site.paths) + {site.ThemePath(site.active)}
        && site.actions == old(site.actions) + [("picowind_child_theme_extracted", site.active)]
        && (site.ThemePath(site.active) in old(site.paths) ==>
              IsPicowindChildTheme(ThemeOf(site.themes, site.active)) && site.mirrored == old(site.mirrored))
        && (site.ThemePath(site.active) !in old(site.paths) ==>
              site.mirrored == old(site.mirrored) + [(sourcePath, site.ThemePath(site.active))])
      ensures site.themes == old(site.themes)
    {
      if sourcePath !in site.paths {
        return Some(ChildThemes.SourceMissing(sourcePath));
      }
      var name, k := FindOrCreate(site, sourcePath);
      site.active := name;
      site.actions := site.actions + [("picowind_child_theme_extracted", name)];
      err := None;
    }

    /** `extract_on_theme_activation` as written: WordPress fires
        `after_switch_theme` with the name and theme the site switched AWAY
        from, so extraction runs only when the previous theme was the parent
        itself, whatever theme is active now. */
    method ExtractOnThemeActivation(site: Site, previousTheme: Theme) returns (err: Option<Exception>)
      modifies site
      ensures !IsParentActivated(previousTheme) ==>
        err.None? && site.paths == old(site.paths) && site.mirrored == old(site.mirrored)
        && site.active == old(site.active) && site.actions == old(site.actions)
      ensures IsParentActivated(previousTheme) && sourcePath in old(site.paths) ==>
        err.None?
        && (exists k :: site.active == Candidate(ChildThemeBaseName, k)
              && FirstReusableOrFree(site.themeRoot, old(site.paths), old(site.themes), k))
        && site.actions == old(site.actions) + [("picowind_child_theme_extracted", site.active)]
        && site.paths == old(site.paths) + {site.ThemePath(site.active)}
        && (site.ThemePath(site.active) in old(site.paths) ==>
              IsPicowindChildTheme(ThemeOf(site.themes, site.active)) && site.mirrored == old(site.mirrored))
        && (site.ThemePath(site.active) !in old(site.paths) ==>
              site.mirrored == old(site.mirrored) + [(sourcePath, site.ThemePath(site.active))])
      ensures IsParentActivated(previousTheme) && sourcePath !in old(site.paths) ==>
        err == Some(ChildThemes.SourceMissing(sourcePath))
        && site.paths == old(site.paths) && site.mirrored == old(site.mirrored)
        && site.active == old(site.active) && site.actions == old(site.actions)
      ensures site.themes == old(site.themes)
    {
      if !IsParentActivated(previousTheme) {
        return None;
      }
      err := Extract(site);
    }

    /** `extract_on_theme_activation` as intended: extract when the theme
        now active (`wp_get_theme()`, as `ChildTheme` asks) is the parent
        theme itself. */
    method ExtractOnParentActivated(site: Site) returns (err: Option<Exception>)
      modifies site
      ensures !IsParentActivated(ThemeOf(old(site.themes), old(site.active))) ==>
        err.None? && site.paths == old(site.paths) && site.mirrored == old(site.mirrored)
        && site.active == old(site.active) && site.actions == old(site.actions)
      ensures IsParentActivated(ThemeOf(old(site.themes), old(site.active))) && sourcePath in old(site.paths) ==>
        err.None?
        && (exists k :: site.active == Candidate(ChildThemeBaseName, k)
              && FirstReusableOrFree(site.themeRoot, old(site.paths), old(site.themes), k))
        && site.actions == old(site.actions) + [("picowind_child_theme_extracted", site.active)]
        && site.paths == old(site.paths) + {site.ThemePath(site.active)}
        && (site.ThemePath(site.active) in old(site.paths) ==>
              IsPicowindChildTheme(ThemeOf(site.themes, site.active)) && site.mirrored == old(site.mirrored))
        && (site.ThemePath(site.active) !in old(site.paths) ==>
              site.mirrored == old(site.mirrored) + [(sourcePath, site.ThemePath(site.active))])
      ensures IsParentActivated(ThemeOf(old(site.themes), old(site.active))) && sourcePath !in old(site.paths) ==>
        err == Some(ChildThemes.SourceMissing(sourcePath))
        && site.paths == old(site.paths) && site.mirrored == old(site.mirrored)
        && site.active == old(site.active) && site.actions == old(site.actions)
      ensures site.themes == old(site.themes)
    {
      if !IsParentActivated(site.Current()) {
        return None;
      }
      err := Extract(site);
    }
  }

  /** Switching from another theme to the parent: the as-written handler is
      given the previous theme and leaves the parent active, while the
      intended one switches to a child theme. */
  method ActivationTestsPreviousTheme() returns (asWritten: string, intended: string)
    ensures asWritten == "picowind" && intended != "picowind"
  {
    var parent := Theme(true, "picowind", "picowind", "Picowind", "picowind");
    var other := Theme(true, "other", "other", "Other", "other");
    var themes := map["picowind" := parent, "other" := other];
    var extractor := new ChildThemeExtractor("/themes/picowind");
    var paths := {extractor.sourcePath};

    var site1 := new Site("/themes", paths, themes, "picowind");
    var _ := extractor.ExtractOnThemeActivation(site1, other);
    asWritten := site1.active;

    var site2 := new Site("/themes", paths, themes, "picowind");
    var _ := extractor.ExtractOnParentActivated(site2);
    intended := site2.active;
    var k :| site2.active == Candidate(ChildThemeBaseName, k);
    CandidateNotParent(k);
  }
}
