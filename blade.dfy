/** The Blade renderer: turning a template path into a dotted view name and
    choosing the view among several candidate paths. */
module Blade {
  import opened Php
  import opened Env
  import opened Exceptions

  const BladeExtension := ".blade.php"

  /** `str_replace(['/', '.blade.php'], ['.', ''], $p)`: every '/' becomes
      '.', then every ".blade.php" is removed. */
  function Dotted(p: string): (v: string)
    ensures '/' !in v
  {
    var slashless := Replace(p, "/", ".");
    ReplaceRemovesChar(p, '/', ".");
    ReplaceKeepsAbsent(slashless, BladeExtension, "", '/');
    Replace(slashless, BladeExtension, "")
  }

  /** `substr($path, strlen($dir) + 1)`: empty when the offset passes the end. */
  function AfterDir(path: string, dir: string): string {
    if |dir| + 1 <= |path| then path[|dir| + 1..] else ""
  }

  /** The `$resolve_view_name` closure. */
  function ResolveViewName(dirs: seq<string>, path: string): (v: string)
    ensures '/' !in v
  {
    match FirstIndex(dirs, (d: string) => StartsWith(path, d))
    case Some(i) => Dotted(AfterDir(path, dirs[i]))
    case None =>
      var relative := if EndsWith(path, BladeExtension) then path else path + BladeExtension;
      Dotted(LTrim(relative, {'/'}))
  }

  /** The first directory, in list order, that is a prefix of the path is
      the one stripped, together with one separator. */
  lemma ViewNameStripsFirstDir(dirs: seq<string>, path: string, i: nat)
    requires i < |dirs| && StartsWith(path, dirs[i])
    requires forall j :: 0 <= j < i ==> !StartsWith(path, dirs[j])
    ensures ResolveViewName(dirs, path) == Dotted(AfterDir(path, dirs[i]))
  {
    var f := FirstIndex(dirs, (d: string) => StartsWith(path, d));
    assert f.Some? && f.value == i;
  }

  lemma ExtensionOnly()
    ensures Replace(BladeExtension, BladeExtension, "") == ""
  {
  }

  /** A dot-free, slash-free name with the extension becomes the bare name. */
  lemma DottedOne(b: string)
    requires '.' !in b && '/' !in b
    ensures Dotted(b + BladeExtension) == b
  {
    ImplodeAbsent([b, BladeExtension], "", '/');
    ReplaceAbsent(b + BladeExtension, '/', ".");
    ReplacePassThrough(b, BladeExtension, BladeExtension, "");
    ExtensionOnly();
  }

  /** "." followed by a dot-free name and the extension does not itself
      start with the extension. */
  lemma NoMatchAtDot(b: string)
    requires '.' !in b
    ensures ("." + b + BladeExtension)[..10] != BladeExtension
  {
    var w := "." + b + BladeExtension;
    if |b| >= 6 {
      assert w[6] == b[5];
      assert b[5] in b;
    } else if |b| == 5 {
      assert w[7] == BladeExtension[1];
    } else {
      assert w[1 + |b|] == '.';
    }
  }

  lemma SlashOnly()
    ensures Replace("/", "/", ".") == "."
  {
  }

  lemma SlashToDot(a: string, tail: string)
    requires '/' !in a && '/' !in tail
    ensures Replace(a + "/" + tail, "/", ".") == a + "." + tail
  {
    var rest := "/" + tail;
    assert a + "/" + tail == a + rest;
    ReplaceCharConcat(a, rest, '/', ".");
    ReplaceCharConcat("/", tail, '/', ".");
    ReplaceAbsent(a, '/', ".");
    ReplaceAbsent(tail, '/', ".");
    SlashOnly();
    assert Replace(rest, "/", ".") == "." + tail;
  }

  lemma ExtensionDropped(a: string, b: string)
    requires '.' !in a && '.' !in b
    ensures Replace(a + "." + b + BladeExtension, BladeExtension, "") == a + "." + b
  {
    var tail := b + BladeExtension;
    assert a + "." + b + BladeExtension == a + ("." + tail);
    ReplacePassThrough(a, "." + tail, BladeExtension, "");
    DotTailDropped(b);
  }

  /** The dot before the last segment survives and the extension after it
      goes. */
  lemma DotTailDropped(b: string)
    requires '.' !in b
    ensures Replace("." + (b + BladeExtension), BladeExtension, "") == "." + b
  {
    var tail := b + BladeExtension;
    var w := "." + tail;
    assert w[..10] != BladeExtension by {
      NoMatchAtDot(b);
      assert w == "." + b + BladeExtension;
    }
    assert w[1..] == tail;
    assert Replace(w, BladeExtension, "") == [w[0]] + Replace(tail, BladeExtension, "");
    TailDropped(b);
  }

  lemma TailDropped(b: string)
    requires '.' !in b
    ensures Replace(b + BladeExtension, BladeExtension, "") == b
  {
    ReplacePassThrough(b, BladeExtension, BladeExtension, "");
    ExtensionOnly();
  }

  /** "a/b.blade.php" with dot-free, slash-free segments becomes "a.b". */
  lemma DottedTwo(a: string, b: string)
    requires '.' !in a && '/' !in a && '.' !in b && '/' !in b
    ensures Dotted(a + "/" + b + BladeExtension) == a + "." + b
  {
    ImplodeAbsent([b, BladeExtension], "", '/');
    SlashToDot(a, b + BladeExtension);
    assert a + "/" + (b + BladeExtension) == a + "/" + b + BladeExtension;
    assert a + "." + (b + BladeExtension) == a + "." + b + BladeExtension;
    ExtensionDropped(a, b);
  }

  /** A template "<dir>/<a>/<b>.blade.php" under the first matching
      directory is the view "<a>.<b>". */
  lemma ViewNameUnderDir(dirs: seq<string>, i: nat, a: string, b: string)
    requires '.' !in a && '/' !in a && '.' !in b && '/' !in b
    requires i < |dirs|
    requires forall j :: 0 <= j < i ==> !StartsWith(dirs[i] + "/" + a + "/" + b + BladeExtension, dirs[j])
    ensures ResolveViewName(dirs, dirs[i] + "/" + a + "/" + b + BladeExtension) == a + "." + b
  {
    var rel := a + "/" + b + BladeExtension;
    var path := dirs[i] + "/" + rel;
    assert path == dirs[i] + "/" + a + "/" + b + BladeExtension;
    assert StartsWith(path, dirs[i]);
    ViewNameStripsFirstDir(dirs, path, i);
    assert AfterDir(path, dirs[i]) == rel;
    DottedTwo(a, b);
  }

  /** A name "<a>/<b>" under no directory is the view "<a>.<b>". */
  lemma ViewNameRelative(dirs: seq<string>, a: string, b: string)
    requires '.' !in a && '/' !in a && '.' !in b && '/' !in b && a != ""
    requires forall j :: 0 <= j < |dirs| ==> !StartsWith(a + "/" + b, dirs[j])
    ensures ResolveViewName(dirs, a + "/" + b) == a + "." + b
  {
    var path := a + "/" + b;
    assert FirstIndex(dirs, (d: string) => StartsWith(path, d)).None?;
    assert !EndsWith(path, BladeExtension) by {
      ImplodeAbsent([a, b], "/", '.');
      assert Implode([a, b], "/") == path;
      assert |path| >= 10 ==> path[|path| - 10..][0] == path[|path| - 10];
    }
    assert path[0] == a[0] && a[0] in a;
    assert LTrim(path + BladeExtension, {'/'}) == path + BladeExtension;
    assert path + BladeExtension == a + "/" + b + BladeExtension;
    DottedTwo(a, b);
  }

  // ---------------------------------------------------------------------
  // `render_template`.

  /** The view name the loop over an array of paths settles on, for a
      naming function `name`: the first truthy name, else the last one
      computed, else nothing (empty array). */
  function PickView(ps: seq<string>, name: string -> string): (v: Option<string>)
    ensures v.None? <==> ps == []
  {
    if ps == [] then None
    else
      match FirstIndex(ps, (p: string) => Truthy(name(p)))
      case Some(i) => Some(name(ps[i]))
      case None => Some(name(ps[|ps| - 1]))
  }

  function ChooseView(dirs: seq<string>, ps: seq<string>): Option<string> {
    PickView(ps, (p: string) => ResolveViewName(dirs, p))
  }

  /** The view `render_template` asks Blade for, or None when it falls back
      to `pathinfo` on an array. */
  function SelectView(dirs: seq<string>, paths: PathArg): Option<string> {
    match paths
    case Path(p) => Some(ResolveViewName(dirs, p))
    case Paths(ps) => ChooseView(dirs, ps)
  }

  /** `pathinfo()` given an array: PHP 8 throws a TypeError. */
  const PathinfoTypeError := Exception(TypeError, "pathinfo(): Argument #1 ($path) must be of type string, array given", 0, None)

  /** `render_template($paths, $context, $print)` where `make` is Blade's
      `make(...)->render()`. */
  function Render(dirs: seq<string>, paths: PathArg, context: Context, echo: bool, make: (string, Context) -> string): Result<Emission, Exception> {
    match SelectView(dirs, paths)
    case None => Err(PathinfoTypeError)
    case Some(v) => Ok(Emit(make(v, context), echo))
  }

  /** For an array, the first path whose view name is truthy is used. */
  lemma PickViewFirstTruthy(ps: seq<string>, name: string -> string, i: nat)
    requires i < |ps| && Truthy(name(ps[i]))
    requires forall j :: 0 <= j < i ==> !Truthy(name(ps[j]))
    ensures PickView(ps, name) == Some(name(ps[i]))
  {
    var f := FirstIndex(ps, (p: string) => Truthy(name(p)));
    assert f.Some? && f.value == i;
  }

  /** With no truthy view name the array's last path decides. */
  lemma PickViewNoneTruthy(ps: seq<string>, name: string -> string)
    requires ps != []
    requires forall j :: 0 <= j < |ps| ==> !Truthy(name(ps[j]))
    ensures PickView(ps, name) == Some(name(ps[|ps| - 1]))
  {
    var f := FirstIndex(ps, (p: string) => Truthy(name(p)));
    assert f.None?;
  }

  /** The `foreach ($paths as $single_path)` loop with its `break`. */
  method PickViewLoop(ps: seq<string>, name: string -> string) returns (viewName: Option<string>)
    ensures viewName == PickView(ps, name)
  {
    viewName := None;
    var i := 0;
    while i < |ps|
      invariant 0 <= i <= |ps|
      invariant forall j :: 0 <= j < i ==> !Truthy(name(ps[j]))
      invariant i == 0 ==> viewName.None?
      invariant i > 0 ==> viewName == Some(name(ps[i - 1]))
    {
      var n := name(ps[i]);
      viewName := Some(n);
      if Truthy(n) {
        PickViewFirstTruthy(ps, name, i);
        return;
      }
      i := i + 1;
    }
    if ps != [] {
      PickViewNoneTruthy(ps, name);
    }
  }

  method RenderTemplate(dirs: seq<string>, paths: PathArg, context: Context, echo: bool, make: (string, Context) -> string)
    returns (r: Result<Emission, Exception>)
    ensures r == Render(dirs, paths, context, echo, make)
  {
    var viewName: Option<string>;
    if paths.Paths? {
      viewName := PickViewLoop(paths.paths, (p: string) => ResolveViewName(dirs, p));
    } else {
      viewName := Some(ResolveViewName(dirs, paths.path));
    }
    if viewName.None? {
      return Err(PathinfoTypeError);
    }
    var output := make(viewName.value, context);
    r := Ok(Emit(output, echo));
  }
}
