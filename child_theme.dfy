/** `Picowind\Supports\ChildTheme`: when the parent theme is switched to,
    find or extract a `picowind-child` theme and switch to it. */
module ChildThemes {
  import opened Php
  import opened Exceptions
  import opened Themes

  /** The message thrown when the bundled child theme is missing. */
  function SourceMissing(sourcePath: string): (e: Exception)
    ensures e.kind == RuntimeError
    ensures e.message == "Source child theme directory not found: " + sourcePath
  {
    NewRuntime("Source child theme directory not found: " + sourcePath)
  }

  class ChildTheme {
    const sourcePath: string

    /** The bundled child theme lives under the parent's `child-theme/base`. */
    constructor(templateDir: string)
      ensures sourcePath == templateDir + "/child-theme/base"
    {
      sourcePath := templateDir + "/child-theme/base";
    }

    /** `extract_theme_on_activation`, the `after_switch_theme` hook: nothing
        happens when the current theme is already a Picowind child theme or
        is not the parent theme; a missing source throws; otherwise the
        child theme found or created becomes the active theme. */
    method ExtractThemeOnActivation(site: Site) returns (err: Option<Exception>)
      modifies site
      ensures var current := ThemeOf(old(site.themes), old(site.active));
        IsPicowindChildTheme(ThemeOf(old(site.themes), current.stylesheet)) || !IsParentActivated(current) ==>
          err.None? && site.paths == old(site.paths) && site.mirrored == old(site.mirrored)
          && site.active == old(site.active)
      ensures var current := ThemeOf(old(site.themes), old(site.active));
        !IsPicowindChildTheme(ThemeOf(old(site.themes), current.stylesheet)) && IsParentActivated(current) ==>
          if sourcePath !in old(site.paths) then
            err == Some(SourceMissing(sourcePath))
            && site.paths == old(site.paths) && site.mirrored == old(site.mirrored)
            && site.active == old(site.active)
          else
            err.None?
            && (exists k :: site.active == Candidate(ChildThemeBaseName, k)
                  && FirstReusableOrFree(site.themeRoot, old(site.paths), old(site.themes), k))
            && site.active != "picowind"
            && site.paths == old(site.paths) + {site.ThemePath(site.active)}
            && (site.ThemePath(site.active) in old(site.paths) ==>
                  IsPicowindChildTheme(ThemeOf(site.themes, site.active)) && site.mirrored == old(site.mirrored))
            && (site.ThemePath(site.active) !in old(site.paths) ==>
                  site.mirrored == old(site.mirrored) + [(sourcePath, site.ThemePath(site.active))])
      ensures site.themes == old(site.themes) && site.actions == old(site.actions)
    {
      var current := site.Current();
      if IsPicowindChildTheme(ThemeOf(site.themes, current.stylesheet)) {
        return None;
      }
      if !IsParentActivated(current) {
        return None;
      }
      if sourcePath !in site.paths {
        return Some(SourceMissing(sourcePath));
      }
      var name, k := FindOrCreate(site, sourcePath);
      CandidateNotParent(k);
      if name != current.stylesheet {
        site.active := name;
      }
      err := None;
    }
  }
}
