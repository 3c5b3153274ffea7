/** The environment the theme runs in, reduced to values: the filesystem,
    template context values, and first-match search over a list. */
module Env {
  import opened Php

  /** What `file_exists`, `is_dir`, `is_file`, `file_get_contents` and
      `filemtime` observe. */
  datatype FileSystem = FileSystem(dirs: set<string>, files: map<string, string>, mtimes: map<string, int>)
  {
    predicate Exists(p: string) { p in dirs || p in files }
    predicate IsDir(p: string) { p in dirs }
    predicate IsFile(p: string) { p in files }
  }

  /** A post as Timber hands it to the page scripts. */
  datatype Post = Post(id: int, postType: string, slug: string, postName: string)

  /** A value stored in a template context or an attribute array. */
  datatype Value =
    | Null
    | Bool(b: bool)
    | Int(i: int)
    | Str(s: string)
    | List(items: seq<Value>)
    | PostValue(post: Post)

  type Context = map<string, Value>

  /** How PHP reads a value as a condition: null, false, 0, "", "0" and the
      empty array are false; objects are true. */
  predicate ValueTruthy(v: Value) {
    match v
    case Null => false
    case Bool(b) => b
    case Int(i) => i != 0
    case Str(s) => Truthy(s)
    case List(items) => items != []
    case PostValue(_) => true
  }

  /** What a renderer does with its output: echo it (and return nothing) or
      return it. */
  datatype Emission = Emission(echoed: string, returned: Option<string>)

  /** `if ($print) { echo $output; } else { return $output; }` */
  function Emit(output: string, echo: bool): (e: Emission)
    ensures echo ==> e.echoed == output && e.returned.None?
    ensures !echo ==> e.echoed == "" && e.returned == Some(output)
  {
    if echo then Emission(output, None) else Emission("", Some(output))
  }

  /** Index of the first element satisfying `p`, if any: the shape of every
      `foreach ... if (...) { return/break; }` search in the theme. */
  function FirstIndex<T>(xs: seq<T>, p: T -> bool): (r: Option<nat>)
    ensures r.Some? ==> r.value < |xs| && p(xs[r.value])
    ensures r.Some? ==> forall j :: 0 <= j < r.value ==> !p(xs[j])
    ensures r.None? <==> forall j :: 0 <= j < |xs| ==> !p(xs[j])
  {
    if xs == [] then None
    else if p(xs[0]) then Some(0)
    else
      match FirstIndex(xs[1..], p)
      case None => None
      case Some(i) => Some(i + 1)
  }

  /** The first index is `i` when `p` holds at `i` and nowhere before; no
      index is found when `p` holds nowhere before `|xs|`. */
  lemma FirstIndexAt<T>(xs: seq<T>, p: T -> bool, i: nat)
    requires i <= |xs|
    requires forall j :: 0 <= j < i ==> !p(xs[j])
    requires i < |xs| ==> p(xs[i])
    ensures FirstIndex(xs, p) == if i < |xs| then Some(i) else None
  {
  }

  /** The `foreach ($xs as $x) { if (p($x)) { return ...; } }` loop: it
      stops at exactly the index `FirstIndex` names. */
  method FindFirst<T>(xs: seq<T>, p: T -> bool) returns (r: Option<nat>)
    ensures r == FirstIndex(xs, p)
  {
    var i := 0;
    while i < |xs|
      invariant i <= |xs|
      invariant forall j :: 0 <= j < i ==> !p(xs[j])
    {
      if p(xs[i]) {
        FirstIndexAt(xs, p, i);
        return Some(i);
      }
      i := i + 1;
    }
    FirstIndexAt(xs, p, |xs|);
    return None;
  }

  /** Concatenation regrouped; a step several loops need. */
  lemma ConcatAssoc<T>(a: seq<T>, b: seq<T>, c: seq<T>)
    ensures a + b + c == a + (b + c)
  {
  }

  /** A finite set of integers has a smallest element. */
  lemma MinimumOf(s: set<int>) returns (p: int)
    requires s != {}
    ensures p in s && forall q :: q in s ==> p <= q
  {
    var x := Pick(s);
    var rest := s - {x};
    if rest == {} {
      assert forall q :: q in s ==> q == x by {
        forall q | q in s ensures q == x {
          assert q !in rest;
        }
      }
      p := x;
    } else {
      var r := MinimumOf(rest);
      assert forall q :: q in s ==> q == x || q in rest;
      p := if x < r then x else r;
    }
  }

  lemma Pick<T>(s: set<T>) returns (x: T)
    requires |s| > 0
    ensures x in s
  {
    x :| x in s;
  }
}
