/** The Latte renderer: the name × directory search of `render_template`
    and the loader swap of `render_string`. */
module LatteRender {
  import opened Php
  import opened Env
  import opened Exceptions

  /** The loader the Latte engine holds: the multi-directory loader over the
      template directories, or a string loader over an in-memory map. */
  datatype Loader =
    | Directories(dirs: seq<string>)
    | StringLoader(templates: map<string, string>)

  /** The engine's `renderToString($name, $context)` under a given loader. */
  type Engine = (Loader, string, Context) -> Result<string, Exception>

  const NotFoundPrefix := "Latte template not found: "
  const StringTemplateKey := "__string_template__"

  /** `rtrim($dir, '/') . '/' . ltrim($path, '/')`. */
  function FullPath(dir: string, name: string): string {
    RTrim(dir, {'/'}) + "/" + LTrim(name, {'/'})
  }

  /** Extra separators at the joint do not change the candidate: one '/'
      stands between the directory and the name however many were given. */
  lemma FullPathJoinsOnce(dir: string, name: string, k: nat, m: nat)
    ensures FullPath(dir + seq(k, _ => '/'), seq(m, _ => '/') + name) == FullPath(dir, name)
  {
    RTrimSlashes(dir, k);
    LTrimSlashes(name, m);
  }

  lemma {:induction false} RTrimSlashes(s: string, k: nat)
    ensures RTrim(s + seq(k, _ => '/'), {'/'}) == RTrim(s, {'/'})
  {
    if k > 0 {
      var t := s + seq(k, _ => '/');
      assert t[..|t| - 1] == s + seq(k - 1, _ => '/');
      RTrimSlashes(s, k - 1);
    } else {
      assert s + seq(k, _ => '/') == s;
    }
  }

  lemma {:induction false} LTrimSlashes(s: string, m: nat)
    ensures LTrim(seq(m, _ => '/') + s, {'/'}) == LTrim(s, {'/'})
  {
    if m > 0 {
      var t := seq(m, _ => '/') + s;
      assert t[1..] == seq(m - 1, _ => '/') + s;
      LTrimSlashes(s, m - 1);
    } else {
      assert seq(m, _ => '/') + s == s;
    }
  }

  /** `$templates = is_array($paths) ? $paths : [$paths]`. */
  function Names(paths: PathArg): (ns: seq<string>)
    ensures paths.Path? ==> ns == [paths.path]
    ensures paths.Paths? ==> ns == paths.paths
  {
    match paths
    case Path(p) => [p]
    case Paths(ps) => ps
  }

  /** The name exists under one of the directories, tried in order. */
  predicate FoundIn(fs: FileSystem, dirs: seq<string>, name: string)
    decreases |dirs|
  {
    dirs != [] && (fs.Exists(FullPath(dirs[0], name)) || FoundIn(fs, dirs[1..], name))
  }

  /** The name is found exactly when the joined path exists for some
      directory of the list. */
  lemma {:induction false} FoundInSome(fs: FileSystem, dirs: seq<string>, name: string)
    ensures FoundIn(fs, dirs, name) <==> exists d :: d in dirs && fs.Exists(FullPath(d, name))
    decreases |dirs|
  {
    if dirs != [] {
      FoundInSome(fs, dirs[1..], name);
      assert forall d :: d in dirs <==> d == dirs[0] || d in dirs[1..];
    }
  }

  function FoundMatcher(fs: FileSystem, dirs: seq<string>): string -> bool {
    n => FoundIn(fs, dirs, n)
  }

  /** The relative name the nested search settles on: the first name, in
      order, that exists under some directory. */
  function SearchName(fs: FileSystem, dirs: seq<string>, names: seq<string>): Option<string> {
    match FirstIndex(names, FoundMatcher(fs, dirs))
    case Some(i) => Some(names[i])
    case None => None
  }

  /** Nothing is found exactly when no name exists under any directory;
      otherwise the result is the first name, in order, that does. */
  lemma SearchNameFirst(fs: FileSystem, dirs: seq<string>, names: seq<string>)
    ensures SearchName(fs, dirs, names).None? <==> forall i :: 0 <= i < |names| ==> !FoundIn(fs, dirs, names[i])
    ensures SearchName(fs, dirs, names).Some? ==> exists i :: (0 <= i < |names| && SearchName(fs, dirs, names).value == names[i] &&
      FoundIn(fs, dirs, names[i]) && (forall j :: 0 <= j < i ==> !FoundIn(fs, dirs, names[j])))
  {
    var f := FirstIndex(names, FoundMatcher(fs, dirs));
    if f.Some? {
      assert FoundMatcher(fs, dirs)(names[f.value]);
      forall j | 0 <= j < f.value ensures !FoundIn(fs, dirs, names[j]) {
        assert !FoundMatcher(fs, dirs)(names[j]);
      }
    } else {
      forall j | 0 <= j < |names| ensures !FoundIn(fs, dirs, names[j]) {
        assert !FoundMatcher(fs, dirs)(names[j]);
      }
    }
  }

  /** The exception when no name is found under any directory. */
  function NotFound(paths: PathArg): (e: Exception)
    ensures e.kind == RuntimeError
    ensures e.message == NotFoundPrefix + PathText(paths)
  {
    NewRuntime(NotFoundPrefix + PathText(paths))
  }

  /** `render_template($paths, $context, $print)` with `dirs` the theme's
      template directories and `loader` the engine's current loader. */
  function Render(fs: FileSystem, dirs: seq<string>, paths: PathArg, context: Context, echo: bool, loader: Loader, engine: Engine): Result<Emission, Exception> {
    match SearchName(fs, dirs, Names(paths))
    case None => Err(NotFound(paths))
    case Some(name) =>
      match engine(loader, name, context)
      case Err(e) => Err(e)
      case Ok(output) => Ok(Emit(output, echo))
  }

  /** What is handed to the engine is the relative name, not the joined path:
      the first name found under some directory, even when a later name
      exists under an earlier directory. */
  lemma RendersRelativeName(fs: FileSystem, dirs: seq<string>, names: seq<string>, i: nat, d: string)
    requires i < |names| && d in dirs && fs.Exists(FullPath(d, names[i]))
    requires forall j :: 0 <= j < i ==> !FoundIn(fs, dirs, names[j])
    ensures SearchName(fs, dirs, names) == Some(names[i])
  {
    FoundInSome(fs, dirs, names[i]);
    SearchNameAt(fs, dirs, names, i);
  }

  /** A single string is searched exactly as the one-element list. */
  lemma SingleNameIsList(fs: FileSystem, dirs: seq<string>, p: string, context: Context, echo: bool, loader: Loader, engine: Engine)
    ensures Render(fs, dirs, Path(p), context, echo, loader, engine) == Render(fs, dirs, Paths([p]), context, echo, loader, engine)
  {
  }

  /** The inner `foreach ($template_dirs as $dir)` loop. */
  method FoundInDirs(fs: FileSystem, dirs: seq<string>, name: string) returns (found: bool)
    ensures found == FoundIn(fs, dirs, name)
  {
    var k := 0;
    while k < |dirs|
      invariant 0 <= k <= |dirs|
      invariant FoundIn(fs, dirs, name) == FoundIn(fs, dirs[k..], name)
    {
      if fs.Exists(FullPath(dirs[k], name)) {
        return true;
      }
      assert dirs[k..][1..] == dirs[k + 1..];
      k := k + 1;
    }
    return false;
  }

  /** The nested search with its `break 2`. */
  method FindName(fs: FileSystem, dirs: seq<string>, names: seq<string>) returns (templateName: Option<string>)
    ensures templateName == SearchName(fs, dirs, names)
  {
    templateName := None;
    var i := 0;
    while i < |names|
      invariant 0 <= i <= |names|
      invariant SearchName(fs, dirs, names) == SearchName(fs, dirs, names[i..])
    {
      var found := FoundInDirs(fs, dirs, names[i]);
      SearchNameCons(fs, dirs, names[i..]);
      if found {
        return Some(names[i]);
      }
      assert names[i..][1..] == names[i + 1..];
      i := i + 1;
    }
  }

  /** The search looks at the first name, and only when it is not found
      goes on with the rest. */
  lemma SearchNameCons(fs: FileSystem, dirs: seq<string>, names: seq<string>)
    requires names != []
    ensures SearchName(fs, dirs, names) ==
      if FoundIn(fs, dirs, names[0]) then Some(names[0]) else SearchName(fs, dirs, names[1..])
  {
    assert FoundMatcher(fs, dirs)(names[0]) == FoundIn(fs, dirs, names[0]);
  }

  /** The search settles on the `i`-th name when it is found and no earlier
      one is, and on none when no name before `|names|` is found. */
  lemma SearchNameAt(fs: FileSystem, dirs: seq<string>, names: seq<string>, i: nat)
    requires i <= |names|
    requires forall j :: 0 <= j < i ==> !FoundIn(fs, dirs, names[j])
    requires i < |names| ==> FoundIn(fs, dirs, names[i])
    ensures SearchName(fs, dirs, names) == if i < |names| then Some(names[i]) else None
  {
    FirstIndexAt(names, FoundMatcher(fs, dirs), i);
  }

  class Latte {
    var loader: Loader

    /** The engine is created with the multi-directory loader over the
        template directories. */
    constructor (templateDirs: seq<string>)
      ensures loader == Directories(templateDirs)
    {
      loader := Directories(templateDirs);
    }

    method RenderTemplate(fs: FileSystem, dirs: seq<string>, paths: PathArg, context: Context, echo: bool, engine: Engine)
      returns (r: Result<Emission, Exception>)
      ensures r == Render(fs, dirs, paths, context, echo, loader, engine)
    {
      var templates := if paths.Paths? then paths.paths else [paths.path];
      var templateName := FindName(fs, dirs, templates);
      if templateName.None? {
        return Err(NewRuntime(NotFoundPrefix + PathText(paths)));
      }
      var output := engine(loader, templateName.value, context);
      if output.Err? {
        return Err(output.error);
      }
      r := Ok(Emit(output.value, echo));
    }

    /** `render_string($template_string, $context, $print)`: renders the
        string under a one-entry string loader and puts the original loader
        back, whether rendering succeeds or throws. */
    method RenderString(templateString: string, context: Context, echo: bool, engine: Engine)
      returns (r: Result<Emission, Exception>)
      modifies this
      ensures loader == old(loader)
      ensures engine(StringLoader(map[StringTemplateKey := templateString]), StringTemplateKey, context).Err? ==>
        r == Err(engine(StringLoader(map[StringTemplateKey := templateString]), StringTemplateKey, context).error)
      ensures engine(StringLoader(map[StringTemplateKey := templateString]), StringTemplateKey, context).Ok? ==>
        r == Ok(Emit(engine(StringLoader(map[StringTemplateKey := templateString]), StringTemplateKey, context).value, echo))
    {
      var originalLoader := loader;
      loader := StringLoader(map[StringTemplateKey := templateString]);
      var output := engine(loader, StringTemplateKey, context);
      if output.Err? {
        loader := originalLoader;
        return Err(output.error);
      }
      loader := originalLoader;
      r := Ok(Emit(output.value, echo));
    }
  }
}
