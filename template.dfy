/** The core template singleton: its ordered template directories and the
    `.?` extension rewriting and engine dispatch of `render_template`. */
module Template {
  import opened Php
  import opened Env
  import opened Exceptions

  /** The engine `render_template` hands a resolved, existing path to. */
  datatype Dispatch =
    | TwigRender(path: string)
    | BladeRender(path: string)
    | PhpInclude(path: string)

  /** The extension a `.?` suffix stands for under `engine`, if the engine is
      one of the three. */
  function EngineExtension(engine: string): Option<string> {
    if engine == "twig" then Some(".twig")
    else if engine == "blade" then Some(".blade.php")
    else if engine == "php" then Some(".php")
    else None
  }

  /** The first half of `render_template`: the path after `.?` rewriting. */
  function ResolvePath(engine: string, path: string): (r: Result<string, Exception>)
    ensures !EndsWith(path, ".?") ==> r == Ok(path)
    ensures EndsWith(path, ".?") && EngineExtension(engine).Some? ==>
      r == Ok(path[..|path| - 2] + EngineExtension(engine).value)
    ensures EndsWith(path, ".?") && EngineExtension(engine).None? ==>
      r == Err(NewTemplateNotExist(Path(path), 0, None))
  {
    if EndsWith(path, ".?") then
      match EngineExtension(engine)
      case Some(ext) => Ok(path[..|path| - 2] + ext)
      case None => Err(NewTemplateNotExist(Path(path), 0, None))
    else Ok(path)
  }

  /** `render_template($engine, $path, $context)`: the engine call it makes,
      or the exception it throws. */
  function RenderTarget(fs: FileSystem, engine: string, path: string): (r: Result<Dispatch, Exception>)
    ensures ResolvePath(engine, path).Ok? && !fs.Exists(ResolvePath(engine, path).value) ==>
      r == Err(NewTemplateNotExist(Path(ResolvePath(engine, path).value), 0, None))
    ensures r.Ok? <==> ResolvePath(engine, path).Ok? && fs.Exists(ResolvePath(engine, path).value) && EngineExtension(engine).Some?
    ensures r.Ok? ==> fs.Exists(r.value.path) && r.value.path == ResolvePath(engine, path).value
    ensures ResolvePath(engine, path).Ok? && fs.Exists(ResolvePath(engine, path).value) && EngineExtension(engine).None? ==>
      r == Err(NewUnsupportedRenderEngine(Some(engine), "", 0, None))
    ensures r.Ok? ==> (r.value.TwigRender? <==> engine == "twig")
    ensures r.Ok? ==> (r.value.BladeRender? <==> engine == "blade")
    ensures r.Ok? ==> (r.value.PhpInclude? <==> engine == "php")
  {
    match ResolvePath(engine, path)
    case Err(e) => Err(e)
    case Ok(p) =>
      if !fs.Exists(p) then Err(NewTemplateNotExist(Path(p), 0, None))
      else if engine == "twig" then Ok(TwigRender(p))
      else if engine == "blade" then Ok(BladeRender(p))
      else if engine == "php" then Ok(PhpInclude(p))
      else Err(NewUnsupportedRenderEngine(Some(engine), "", 0, None))
  }

  /** Resolving twice is resolving once for the three engines: the rewritten
      path no longer ends in ".?". */
  lemma ResolvePathSettles(engine: string, path: string)
    requires EngineExtension(engine).Some?
    ensures ResolvePath(engine, path).Ok?
    ensures ResolvePath(engine, ResolvePath(engine, path).value) == ResolvePath(engine, path)
  {
    var r := ResolvePath(engine, path).value;
    if EndsWith(path, ".?") {
      var ext := EngineExtension(engine).value;
      assert r[|r| - 1] == ext[|ext| - 1];
    }
  }

  /** The directories templates are looked up in. */
  function TemplateDirs(currentDir: string, isChildTheme: bool, parentDir: string): (dirs: seq<string>)
    ensures |dirs| == if isChildTheme then 4 else 2
    ensures dirs[..2] == [currentDir + "/blocks", currentDir + "/views"]
    ensures isChildTheme ==> dirs[2..] == [parentDir + "/blocks", parentDir + "/views"]
  {
    var own := [currentDir + "/blocks", currentDir + "/views"];
    if isChildTheme then own + [parentDir + "/blocks", parentDir + "/views"] else own
  }

  class Template {
    var twigCachePath: string
    var bladeCachePath: string
    var templateDirs: seq<string>

    /** The private constructor, given `wp_upload_dir()['basedir']` and the
        current and parent theme directories. */
    constructor (uploadDir: string, currentDir: string, isChildTheme: bool, parentDir: string)
      ensures twigCachePath == uploadDir + "/picowind/cache/twig"
      ensures bladeCachePath == uploadDir + "/picowind/cache/blade"
      ensures templateDirs == TemplateDirs(currentDir, isChildTheme, parentDir)
    {
      twigCachePath := uploadDir + "/picowind/cache/twig";
      bladeCachePath := uploadDir + "/picowind/cache/blade";
      templateDirs := [currentDir + "/blocks", currentDir + "/views"];
      if isChildTheme {
        templateDirs := templateDirs + [parentDir + "/blocks"];
        templateDirs := templateDirs + [parentDir + "/views"];
      }
    }
  }
}
