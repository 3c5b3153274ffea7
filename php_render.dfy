/** The plain PHP renderer: choosing the template file to `include`. */
module PhpRender {
  import opened Php
  import opened Env
  import opened Exceptions

  /** The file `render_template` includes, or the exception it throws: an
      array yields its first existing path (an empty or "0" choice counts as
      none), a string is used as it is. */
  function SelectTemplate(fs: FileSystem, path: PathArg): (r: Result<string, Exception>)
    ensures path.Path? ==> r == Ok(path.path)
    ensures path.Paths? && r.Ok? ==> r.value in path.paths && fs.Exists(r.value) && Truthy(r.value)
    ensures path.Paths? && r.Err? ==> r.error == NewTemplateNotExist(Path(Implode(path.paths, ", ")), 0, None)
  {
    match path
    case Path(p) => Ok(p)
    case Paths(ps) =>
      match FirstIndex(ps, (p: string) => fs.Exists(p))
      case Some(i) =>
        if Truthy(ps[i]) then Ok(ps[i]) else Err(NewTemplateNotExist(Path(Implode(ps, ", ")), 0, None))
      case None => Err(NewTemplateNotExist(Path(Implode(ps, ", ")), 0, None))
  }

  /** `render_template($path, $context, $print)` where `included` is the output
      the included file produces with the context extracted. */
  function Render(fs: FileSystem, path: PathArg, context: Context, echo: bool, included: (string, Context) -> string): Result<Emission, Exception> {
    match SelectTemplate(fs, path)
    case Err(e) => Err(e)
    case Ok(t) => Ok(Emit(included(t, context), echo))
  }

  /** In an array, the first existing path is the one included. */
  lemma SelectFirstExisting(fs: FileSystem, ps: seq<string>, i: nat)
    requires i < |ps| && fs.Exists(ps[i]) && Truthy(ps[i])
    requires forall j :: 0 <= j < i ==> !fs.Exists(ps[j])
    ensures SelectTemplate(fs, Paths(ps)) == Ok(ps[i])
  {
    var f := FirstIndex(ps, (p: string) => fs.Exists(p));
    assert f.Some? && f.value == i;
  }

  /** An array none of whose paths exists (the empty array included) raises
      the exception naming all of them, joined by ", ". */
  lemma SelectNoneExisting(fs: FileSystem, ps: seq<string>)
    requires forall j :: 0 <= j < |ps| ==> !fs.Exists(ps[j])
    ensures SelectTemplate(fs, Paths(ps)) == Err(NewTemplateNotExist(Paths(ps), 0, None))
  {
    var f := FirstIndex(ps, (p: string) => fs.Exists(p));
    assert f.None?;
  }

  /** The `foreach ($path as $single_path)` search with its `break`: the
      position of the first existing path. */
  method FindExisting(fs: FileSystem, ps: seq<string>) returns (found: Option<nat>)
    ensures found == FirstIndex(ps, (p: string) => fs.Exists(p))
  {
    var i := 0;
    while i < |ps|
      invariant 0 <= i <= |ps|
      invariant forall j :: 0 <= j < i ==> !fs.Exists(ps[j])
    {
      if fs.Exists(ps[i]) {
        ghost var f := FirstIndex(ps, (p: string) => fs.Exists(p));
        assert f.Some? && f.value == i;
        return Some(i);
      }
      i := i + 1;
    }
    return None;
  }

  method RenderTemplate(fs: FileSystem, path: PathArg, context: Context, echo: bool, included: (string, Context) -> string)
    returns (r: Result<Emission, Exception>)
    ensures r == Render(fs, path, context, echo, included)
  {
    var templatePath: string;
    if path.Paths? {
      var found := FindExisting(fs, path.paths);
      if found.None? || !Truthy(path.paths[found.value]) {
        return Err(NewTemplateNotExist(Path(Implode(path.paths, ", ")), 0, None));
      }
      templatePath := path.paths[found.value];
    } else {
      templatePath := path.path;
    }
    r := Ok(Emit(included(templatePath, context), echo));
  }
}
