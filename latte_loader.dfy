/** The Latte loader that looks a template up in several directories in
    order, with its path normalisation and the check that a loaded file lies
    inside one of the configured directories. */
module LatteLoader {
  import opened Php
  import opened Env

  /** The characters `rtrim`/`ltrim` strip from directories and names. */
  const Slashes: set<char> := {'/', '\\'}

  // ---------------------------------------------------------------------
  // The prefix `#^([a-z]:|phar://.+?/)?#i` keeps verbatim.

  /** A drive letter and a colon, `[a-z]:` case-insensitively. */
  predicate IsDrive(s: string) {
    |s| >= 2 && IsLetter(s[0]) && s[1] == ':'
  }

  /** The scheme `phar://`, case-insensitively. */
  predicate HasPharScheme(s: string) {
    |s| >= 7 && Lower(s[..7]) == "phar://"
  }

  /** Position of the first '/' at or after `k`, provided no line break comes
      first (`.` does not match a line break). */
  function SlashFrom(t: string, k: nat): (r: Option<nat>)
    ensures r.Some? ==> k <= r.value < |t| && t[r.value] == '/'
    ensures r.Some? ==> forall i :: k <= i < r.value ==> t[i] != '/' && t[i] != '\n'
    decreases |t| - k
  {
    if k >= |t| then None
    else if t[k] == '/' then Some(k)
    else if t[k] == '\n' then None
    else SlashFrom(t, k + 1)
  }

  /** Where the lazy `.+?/` after `phar://` ends: at least one character,
      then the first '/'. */
  function PharHost(t: string): Option<nat> {
    if t == [] || t[0] == '\n' then None else SlashFrom(t, 1)
  }

  /** Length of the prefix group `$m[1]`. */
  function PrefixLength(p: string): (n: nat)
    ensures n <= |p|
    ensures n > 0 && !IsDrive(p) ==> n >= 8 && HasPharScheme(p) && p[n - 1] == '/'
    ensures IsDrive(p) ==> n == 2
  {
    if IsDrive(p) then 2
    else if HasPharScheme(p) && PharHost(p[7..]).Some? then 7 + PharHost(p[7..]).value + 1
    else 0
  }

  /** The text before the first line break: what `(.*)` captures. */
  function Line(s: string): (r: string)
    ensures '\n' !in r
    ensures |r| <= |s| && r == s[..|r|]
    decreases |s|
  {
    if s == [] || s[0] == '\n' then [] else [s[0]] + Line(s[1..])
  }

  // ---------------------------------------------------------------------
  // Collapsing "." and ".." segments.

  /** One step of the `foreach` in `normalizePath`. */
  function Step(res: seq<string>, part: string): seq<string> {
    if part == ".." && res != [] && res[|res| - 1] != ".." && res[|res| - 1] != "" then res[..|res| - 1]
    else if part != "." then res + [part]
    else res
  }

  /** The segments left after the whole loop. */
  function Collapse(parts: seq<string>): seq<string>
    decreases |parts|
  {
    if parts == [] then [] else Step(Collapse(parts[..|parts| - 1]), parts[|parts| - 1])
  }

  /** The segments of the part after the prefix, with every backslash read as
      a slash. */
  function Segments(p: string): seq<string> {
    Explode(Replace(Line(p[PrefixLength(p)..]), "\\", "/"), '/')
  }

  /** `normalizePath($p)` with `DIRECTORY_SEPARATOR` = `sep`. */
  function Normalize(p: string, sep: char): string {
    p[..PrefixLength(p)] + Implode(Collapse(Segments(p)), [sep])
  }

  /** A segment list the loop leaves unchanged: no "." and no ".." that a
      preceding segment could absorb. */
  predicate Stable(xs: seq<string>) {
    (forall i :: 0 <= i < |xs| ==> xs[i] != ".") &&
    (forall i :: 0 < i < |xs| && xs[i] == ".." ==> xs[i - 1] == ".." || xs[i - 1] == "")
  }

  /** A segment free of separators and line breaks. */
  predicate Clean(s: string) {
    '/' !in s && '\\' !in s && '\n' !in s
  }

  predicate AllClean(xs: seq<string>) {
    forall k :: 0 <= k < |xs| ==> Clean(xs[k])
  }

  /** A drive followed by a "." segment: the one shape a second normalisation
      changes again. */
  predicate DriveDotHead(s: string) {
    IsDrive(s) && (s[2..] == "." || StartsWith(s[2..], "./"))
  }

  // ---------------------------------------------------------------------
  // Facts about the normalisation.

  /** The loop's result never holds "." and keeps a ".." only at the start or
      after another ".." or an empty segment; its segments come from the input. */
  lemma {:induction false} CollapseStable(parts: seq<string>)
    ensures Stable(Collapse(parts))
    ensures forall k :: 0 <= k < |Collapse(parts)| ==> Collapse(parts)[k] in parts
    decreases |parts|
  {
    if parts != [] {
      var init := parts[..|parts| - 1];
      CollapseStable(init);
      assert forall x :: x in init ==> x in parts;
    }
  }

  /** On an already stable list the loop changes nothing. */
  lemma {:induction false} CollapseOfStable(xs: seq<string>)
    requires Stable(xs)
    ensures Collapse(xs) == xs
    decreases |xs|
  {
    if xs != [] {
      var init := xs[..|xs| - 1];
      assert Stable(init) by {
        assert forall i :: 0 <= i < |init| ==> init[i] == xs[i];
      }
      CollapseOfStable(init);
      assert init + [xs[|xs| - 1]] == xs;
    }
  }

  /** A ".." removes the named segment just before it. */
  lemma {:induction false} DotDotCancels(parts: seq<string>, seg: string)
    requires seg != "" && seg != "." && seg != ".."
    ensures Collapse(parts + [seg, ".."]) == Collapse(parts)
  {
    var whole := parts + [seg, ".."];
    assert whole[..|whole| - 1] == parts + [seg];
    assert (parts + [seg])[..|parts|] == parts;
    assert Collapse(parts + [seg]) == Collapse(parts) + [seg];
  }

  /** A ".." with nothing to remove, or after "..", or after an empty
      segment, is kept. */
  lemma {:induction false} DotDotKept(parts: seq<string>)
    requires var c := Collapse(parts); c == [] || c[|c| - 1] == ".." || c[|c| - 1] == ""
    ensures Collapse(parts + [".."]) == Collapse(parts) + [".."]
  {
    assert (parts + [".."])[..|parts|] == parts;
  }

  /** A "." segment is dropped. */
  lemma {:induction false} DotDropped(parts: seq<string>)
    ensures Collapse(parts + ["."]) == Collapse(parts)
  {
    assert (parts + ["."])[..|parts|] == parts;
  }

  lemma {:induction false} SegmentsClean(p: string)
    ensures AllClean(Segments(p))
  {
    var l := Line(p[PrefixLength(p)..]);
    var s := Replace(l, "\\", "/");
    ReplaceRemovesChar(l, '\\', "/");
    ReplaceKeepsAbsent(l, "\\", "/", '\n');
    ExplodeParts(s, '/');
    ExplodePartsFrom(s, '/');
  }

  lemma CollapsedClean(p: string)
    ensures AllClean(Collapse(Segments(p)))
    ensures Stable(Collapse(Segments(p)))
  {
    SegmentsClean(p);
    CollapseStable(Segments(p));
  }

  lemma {:induction false} LineWhole(s: string)
    requires '\n' !in s
    ensures Line(s) == s
    decreases |s|
  {
    if s != [] {
      assert '\n' !in s[1..] by { assert forall x :: x in s[1..] ==> x in s; }
      LineWhole(s[1..]);
      assert [s[0]] + s[1..] == s;
    }
  }

  /** Normalised output: after the prefix no backslash is left when the
      separator is '/', and its segments hold no "." and no ".." that could
      still be collapsed. */
  lemma NormalizeOutputStable(p: string)
    ensures var out := Normalize(p, '/')[PrefixLength(p)..];
      '\\' !in out && Stable(Explode(out, '/'))
  {
    var res := Collapse(Segments(p));
    CollapsedClean(p);
    var out := Normalize(p, '/')[PrefixLength(p)..];
    assert out == Implode(res, "/");
    ImplodeAbsent(res, "/", '\\');
    if res == [] {
      assert Explode(out, '/') == [""];
    } else {
      ExplodeImplode(res, '/');
    }
  }

  /** A rest that is already a stable, clean, '/'-joined list normalises to
      itself. */
  lemma Renormalize(rest: string, res: seq<string>)
    requires AllClean(res) && Stable(res) && rest == Implode(res, "/")
    ensures Implode(Collapse(Explode(Replace(Line(rest), "\\", "/"), '/')), "/") == rest
  {
    ImplodeAbsent(res, "/", '\n');
    LineWhole(rest);
    ImplodeAbsent(res, "/", '\\');
    ReplaceAbsent(rest, '\\', "/");
    if res == [] {
      assert Explode("", '/') == [""];
      assert Collapse([""]) == Step([], "");
    } else {
      ExplodeImplode(res, '/');
      CollapseOfStable(res);
    }
  }

  lemma FixedPoint(q: string, res: seq<string>)
    requires AllClean(res) && Stable(res)
    requires q[PrefixLength(q)..] == Implode(res, "/")
    ensures Normalize(q, '/') == q
  {
    Renormalize(q[PrefixLength(q)..], res);
  }

  lemma {:induction false} SlashFromAgree(t: string, t': string, k: nat, e: nat)
    requires SlashFrom(t, k) == Some(e)
    requires e < |t'|
    requires forall i :: k <= i <= e ==> t'[i] == t[i]
    ensures SlashFrom(t', k) == Some(e)
    decreases e - k
  {
    if t[k] != '/' {
      SlashFromAgree(t, t', k + 1, e);
    }
  }

  /** The prefix is recognised again after anything is appended to it. */
  lemma PrefixLengthKept(p: string, x: string)
    requires PrefixLength(p) > 0
    ensures PrefixLength(p[..PrefixLength(p)] + x) == PrefixLength(p)
  {
    var n := PrefixLength(p);
    var q := p[..n] + x;
    if !IsDrive(p) {
      assert q[..7] == p[..7];
      assert !IsDrive(q) by { assert q[0] == p[0] && q[1] == p[1]; }
      var e := PharHost(p[7..]).value;
      assert n == 8 + e;
      SlashFromAgree(p[7..], q[7..], 1, e);
    }
  }

  lemma {:induction false} ImplodeDropHead(res: seq<string>, g: string, n: nat)
    requires |res| >= 1 && n <= |res[0]|
    ensures Implode(res, g)[n..] == Implode([res[0][n..]] + res[1..], g)
  {
    var res' := [res[0][n..]] + res[1..];
    if |res| > 1 {
      assert res'[1..] == res[1..];
    }
  }

  /** The text after a '/' of a '/'-joined clean list is the join of a
      proper suffix of the list. */
  lemma {:induction false} ImplodeSplitAtSlash(res: seq<string>, k: nat)
    requires AllClean(res)
    requires k < |Implode(res, "/")| && Implode(res, "/")[k] == '/'
    ensures exists j :: 1 <= j < |res| && Implode(res, "/")[k + 1..] == Implode(res[j..], "/")
    decreases |res|
  {
    var J := Implode(res, "/");
    if |res| == 1 {
      assert false;
    }
    assert J == res[0] + "/" + Implode(res[1..], "/");
    if k < |res[0]| {
      assert false;
    } else if k == |res[0]| {
      assert J[k + 1..] == Implode(res[1..], "/");
    } else {
      var k' := k - |res[0]| - 1;
      assert Implode(res[1..], "/")[k'] == J[k];
      assert AllClean(res[1..]) by {
        assert forall i :: 0 <= i < |res[1..]| ==> res[1..][i] == res[i + 1];
      }
      ImplodeSplitAtSlash(res[1..], k');
      var j' :| 1 <= j' < |res[1..]| && Implode(res[1..], "/")[k' + 1..] == Implode(res[1..][j'..], "/");
      assert res[1..][j'..] == res[j' + 1..];
      assert J[k + 1..] == Implode(res[1..], "/")[k' + 1..];
    }
  }

  /** A drive-led join of a clean stable list that does not continue with a
      "." segment is a fixed point. */
  lemma DriveJoinFixed(J: string, res: seq<string>)
    requires AllClean(res) && Stable(res) && J == Implode(res, "/")
    requires IsDrive(J) && !DriveDotHead(J)
    ensures Normalize(J, '/') == J
  {
    assert res != [];
    if |res| > 1 {
      assert J == res[0] + "/" + Implode(res[1..], "/");
    }
    assert J[0] != '/' && J[1] != '/';
    assert |res[0]| >= 2 && res[0][1] == ':';
    var res' := [res[0][2..]] + res[1..];
    ImplodeDropHead(res, "/", 2);
    assert AllClean(res') by {
      assert forall x :: x in res[0][2..] ==> x in res[0];
      assert forall i :: 1 <= i < |res'| ==> res'[i] == res[i];
    }
    assert res'[0] != "." by {
      if |res'| > 1 {
        assert J[2..] == res'[0] + "/" + Implode(res'[1..], "/");
      }
    }
    assert Stable(res') by {
      assert forall i :: 1 <= i < |res'| ==> res'[i] == res[i];
    }
    FixedPoint(J, res');
  }

  /** A join of a clean stable list is a fixed point, unless it is a drive
      followed by a "." segment. */
  lemma JoinFixed(J: string, res: seq<string>)
    requires AllClean(res) && Stable(res) && J == Implode(res, "/")
    requires !DriveDotHead(J)
    ensures Normalize(J, '/') == J
  {
    var m := PrefixLength(J);
    if m == 0 {
      FixedPoint(J, res);
    } else if IsDrive(J) {
      DriveJoinFixed(J, res);
    } else {
      ImplodeSplitAtSlash(res, m - 1);
      var j :| 1 <= j < |res| && J[m..] == Implode(res[j..], "/");
      assert forall i :: 0 <= i < |res[j..]| ==> res[j..][i] == res[j + i];
      FixedPoint(J, res[j..]);
    }
  }

  /** Normalising twice gives the same path as normalising once, with '/' as
      the separator, except when the result is a drive followed by a "."
      segment (see `NormalizeNotIdempotent`). */
  lemma NormalizeIdempotent(p: string)
    requires !DriveDotHead(Normalize(p, '/'))
    ensures Normalize(Normalize(p, '/'), '/') == Normalize(p, '/')
  {
    var n := PrefixLength(p);
    var res := Collapse(Segments(p));
    var J := Implode(res, "/");
    var out := Normalize(p, '/');
    assert out == p[..n] + J;
    CollapsedClean(p);
    if n > 0 {
      PrefixLengthKept(p, J);
      assert out[PrefixLength(out)..] == J;
      FixedPoint(out, res);
    } else {
      assert out == J;
      JoinFixed(J, res);
    }
  }

  lemma UncoverPrefix()
    ensures PrefixLength("a/../c:.") == 0
  {
    var p := "a/../c:.";
    assert !IsDrive(p) by { assert p[1] == '/'; }
    assert Lower(p[..7])[0] == 'a';
  }

  lemma UncoverSegments()
    ensures Segments("a/../c:.") == ["a", "..", "c:."]
  {
    var p := "a/../c:.";
    var parts := ["a", "..", "c:."];
    UncoverPrefix();
    assert p[0..] == p;
    assert Implode(parts, "/") == p;
    assert AllClean(parts) by {
      assert forall k :: 0 <= k < 3 ==> Clean(parts[k]);
    }
    ImplodeAbsent(parts, "/", '\n');
    ImplodeAbsent(parts, "/", '\\');
    LineWhole(p);
    ReplaceAbsent(p, '\\', "/");
    ExplodeImplode(parts, '/');
  }

  /** The first step of the exception: a ".." cancelling the first segment
      uncovers a drive followed by ".". */
  lemma NormalizeUncoversDrive()
    ensures Normalize("a/../c:.", '/') == "c:."
  {
    var parts := ["a", "..", "c:."];
    UncoverPrefix();
    UncoverSegments();
    assert parts[..2] == ["a", ".."];
    assert ["a", ".."][..1] == ["a"];
    assert Collapse(["a"]) == ["a"];
    assert Collapse(["a", ".."]) == [];
    assert Collapse(parts) == ["c:."];
  }

  /** The second step: normalising "c:." again drops the ".". */
  lemma NormalizeDropsDriveDot()
    ensures Normalize("c:.", '/') == "c:"
  {
    var q := "c:.";
    assert PrefixLength(q) == 2;
    assert q[2..] == ".";
    LineWhole(".");
    ReplaceAbsent(".", '\\', "/");
    ExplodeNoSep(".", '/');
    assert Segments(q) == ["."];
    assert Collapse(["."]) == [];
  }

  /** Normalisation is not idempotent on every input: the two steps above
      chain into a path that a second pass shortens. */
  lemma NormalizeNotIdempotent()
    ensures DriveDotHead(Normalize("a/../c:.", '/'))
    ensures Normalize(Normalize("a/../c:.", '/'), '/') != Normalize("a/../c:.", '/')
  {
    NormalizeUncoversDrive();
    NormalizeDropsDriveDot();
    assert "c:."[2..] == ".";
  }

  lemma {:induction false} ImplodeAppend(xs: seq<string>, y: string, g: string)
    requires xs != []
    ensures Implode(xs + [y], g) == Implode(xs, g) + g + y
    decreases |xs|
  {
    if |xs| > 1 {
      assert (xs + [y])[1..] == xs[1..] + [y];
      ImplodeAppend(xs[1..], y, g);
    }
  }

  lemma EndsWithConcat(a: string, b: string, sep: char)
    ensures EndsWith(a + (b + [sep] + ""), [sep])
  {
    assert a + (b + [sep] + "") == (a + b) + [sep];
  }

  /** The segments of a path whose part after the prefix ends with a slash
      end with an empty segment, which the loop keeps. */
  lemma TrailingEmptySegment(q: string) returns (xs: seq<string>)
    requires PrefixLength(q) < |q| && q[|q| - 1] == '/' && '\n' !in q[PrefixLength(q)..]
    ensures Segments(q) == xs + [""] && Collapse(Segments(q)) == Collapse(xs) + [""]
  {
    var rest := q[PrefixLength(q)..];
    var s := Replace(rest, "\\", "/");
    SegmentsOfLine(q);
    ReplaceKeepsLastSlash(rest);
    ExplodeLastEmpty(s, '/');
    xs := Explode(s[..|s| - 1], '/');
    CollapseSnoc(xs, "");
  }

  /** Without a line break after the prefix, the segments split the whole
      rest. */
  lemma SegmentsOfLine(q: string)
    requires '\n' !in q[PrefixLength(q)..]
    ensures Segments(q) == Explode(Replace(q[PrefixLength(q)..], "\\", "/"), '/')
  {
    LineWhole(q[PrefixLength(q)..]);
  }

  /** Reading backslashes as slashes keeps a final slash. */
  lemma ReplaceKeepsLastSlash(rest: string)
    requires |rest| > 0 && rest[|rest| - 1] == '/'
    ensures var s := Replace(rest, "\\", "/"); |s| == |rest| && s[|s| - 1] == '/'
  {
    ReplaceCharAt(rest, '\\', '/');
  }

  /** A string ending in the delimiter explodes with a final empty part. */
  lemma ExplodeLastEmpty(s: string, c: char)
    requires |s| > 0 && s[|s| - 1] == c
    ensures Explode(s, c) == Explode(s[..|s| - 1], c) + [""]
  {
    assert s == s[..|s| - 1] + [c];
    ExplodeTrailing(s[..|s| - 1], c);
  }

  /** The loop's last step acts on what the earlier steps left. */
  lemma CollapseSnoc(xs: seq<string>, x: string)
    ensures Collapse(xs + [x]) == Step(Collapse(xs), x)
  {
    assert (xs + [x])[..|xs|] == xs;
  }

  /** Joining segments that end with an empty one ends with the separator,
      unless there is nothing before it. */
  lemma ImplodeTrailing(head: string, xs: seq<string>, sep: char)
    ensures var r := head + Implode(xs + [""], [sep]);
      EndsWith(r, [sep]) || r == head
  {
    if xs != [] {
      ImplodeAppend(xs, "", [sep]);
      EndsWithConcat(head, Implode(xs, [sep]), sep);
    } else {
      assert xs + [""] == [""];
    }
  }

  /** `rtrim($dir, '/\\') . '/'` normalises to a path ending with the
      separator, unless all that is left of it is its prefix. */
  lemma DirectoryEndsWithSeparator(d: string, sep: char)
    requires '\n' !in d
    ensures var q := RTrim(d, Slashes) + "/";
      var r := Normalize(q, sep);
      EndsWith(r, [sep]) || r == q[..PrefixLength(q)]
  {
    var q := RTrim(d, Slashes) + "/";
    var n := PrefixLength(q);
    if n < |q| {
      assert '\n' !in q[n..] by {
        assert forall i :: 0 <= i < |RTrim(d, Slashes)| ==> RTrim(d, Slashes)[i] == d[i];
      }
      var xs := TrailingEmptySegment(q);
      ImplodeTrailing(q[..n], Collapse(xs), sep);
    } else {
      assert Segments(q) == [""];
      assert Collapse([""]) == Step([], "");
      assert Normalize(q, sep) == q[..n] + "";
    }
  }

  /** A named segment: not empty, not "." or "..", and free of separators,
      line breaks and colons. */
  predicate Plain(s: string) {
    Clean(s) && s != "" && s != "." && s != ".." && ':' !in s
  }

  /** A '/'-join of plain segments has no prefix and splits back into the
      same segments. */
  lemma PlainJoinSegments(parts: seq<string>)
    requires |parts| >= 1 && Plain(parts[0])
    requires forall k :: 0 <= k < |parts| ==> Clean(parts[k]) && ':' !in parts[k]
    ensures PrefixLength(Implode(parts, "/")) == 0
    ensures Segments(Implode(parts, "/")) == parts
  {
    var x := Implode(parts, "/");
    ImplodeAbsent(parts, "/", ':');
    assert x != [];
    assert |x| >= 2 ==> x[1] in x;
    assert !HasPharScheme(x) by {
      if |x| >= 7 {
        assert x[4] in x;
        assert Lower(x[..7])[4] == LowerChar(x[4]);
      }
    }
    ImplodeAbsent(parts, "/", '\n');
    LineWhole(x);
    ImplodeAbsent(parts, "/", '\\');
    ReplaceAbsent(x, '\\', "/");
    ExplodeImplode(parts, '/');
  }

  lemma CollapseSiblingStep(dirs: seq<string>, f: string, name: string)
    requires forall k :: 0 <= k < |dirs| ==> Plain(dirs[k])
    requires Plain(f) && Plain(name)
    ensures Collapse(dirs + [f, "..", name]) == dirs + [name]
  {
    var parts := dirs + [f, "..", name];
    assert parts[..|parts| - 1] == dirs + [f, ".."];
    DotDotCancels(dirs, f);
    CollapseOfStable(dirs);
  }

  lemma SiblingPartsClean(dirs: seq<string>, f: string, name: string)
    requires forall k :: 0 <= k < |dirs| ==> Plain(dirs[k])
    requires Plain(f) && Plain(name)
    ensures var parts := dirs + [f, "..", name];
      Plain(parts[0]) && forall k :: 0 <= k < |parts| ==> Clean(parts[k]) && ':' !in parts[k]
  {
  }

  lemma SiblingJoin(dirs: seq<string>, f: string, name: string)
    ensures Implode(dirs + [f], "/") + "/../" + name == Implode(dirs + [f, "..", name], "/")
  {
    ImplodeAppend(dirs + [f], "..", "/");
    assert dirs + [f] + [".."] == dirs + [f, ".."];
    ImplodeAppend(dirs + [f, ".."], name, "/");
    assert dirs + [f, ".."] + [name] == dirs + [f, "..", name];
  }

  /** A plain segment is not an absolute name for `getReferredName`. */
  lemma PlainIsRelative(name: string)
    requires Plain(name)
    ensures !IsReferredAbsolute(name)
  {
    assert name[0] in name;
    if |name| >= 2 {
      assert name[1] in name;
    }
    if |name| >= 5 {
      assert name[4] in name;
      assert Lower(name[..5])[4] == LowerChar(name[4]);
    }
  }

  /** "<dirs>/<f>" + "/../" + "<name>" resolves to "<dirs>/<name>" when every
      segment is plain. */
  lemma PlainPathRoundTrip(dirs: seq<string>, f: string, name: string)
    requires forall k :: 0 <= k < |dirs| ==> Plain(dirs[k])
    requires Plain(f) && Plain(name)
    ensures Normalize(Implode(dirs + [f], "/") + "/../" + name, '/') == Implode(dirs + [name], "/")
  {
    var parts := dirs + [f, "..", name];
    SiblingJoin(dirs, f, name);
    var x := Implode(parts, "/");
    SiblingPartsClean(dirs, f, name);
    PlainJoinSegments(parts);
    CollapseSiblingStep(dirs, f, name);
    assert Normalize(x, '/') == x[..0] + Implode(Collapse(Segments(x)), "/");
  }

  // ---------------------------------------------------------------------
  // The loader.

  datatype LoadError =
    | TemplateNotFound(message: string)
    | OutsideAllowedPaths(message: string)

  /** What `getContent` hands back: the file's text, and whether it also
      touches the file because it counts as expired. */
  datatype Loaded = Loaded(content: string, touches: bool)

  /** The form a directory is stored in: trailing slashes trimmed, one '/'
      appended, normalised. */
  function StoredDirectory(dir: string, sep: char): string {
    Normalize(RTrim(dir, Slashes) + "/", sep)
  }

  /** `$fileName[0] === '/' || $fileName[0] === '\\'`; on an empty name the
      offset reads as "" and the test is false. */
  predicate IsRooted(name: string) {
    |name| > 0 && name[0] in Slashes
  }

  /** What `preg_match('#/|\\\\|[a-z]:|phar:#iA', $name)` accepts: a name
      starting with a slash, a backslash, a drive or "phar:". */
  predicate IsReferredAbsolute(name: string) {
    (|name| > 0 && name[0] in Slashes) || IsDrive(name) || (|name| >= 5 && Lower(name[..5]) == "phar:")
  }

  function ExistsMatcher(fs: FileSystem): string -> bool {
    p => fs.Exists(p)
  }

  class MultiDirectoryLoader {
    /** The configured directories, in lookup order, as stored. */
    const directories: seq<string>
    /** `DIRECTORY_SEPARATOR`. */
    const sep: char

    constructor (dirs: seq<string>, separator: char)
      ensures directories == seq(|dirs|, i requires 0 <= i < |dirs| => StoredDirectory(dirs[i], separator))
      ensures sep == separator
    {
      directories := seq(|dirs|, i requires 0 <= i < |dirs| => StoredDirectory(dirs[i], separator));
      sep := separator;
    }

    /** `$this->normalizePath($path)`. */
    method NormalizePath(path: string) returns (r: string)
      ensures r == Normalize(path, sep)
    {
      var n := PrefixLength(path);
      var parts := Explode(Replace(Line(path[n..]), "\\", "/"), '/');
      var res: seq<string> := [];
      var i := 0;
      while i < |parts|
        invariant 0 <= i <= |parts|
        invariant res == Collapse(parts[..i])
      {
        var part := parts[i];
        assert parts[..i + 1][..i] == parts[..i];
        if part == ".." && res != [] && res[|res| - 1] != ".." && res[|res| - 1] != "" {
          res := res[..|res| - 1];
        } else if part != "." {
          res := res + [part];
        }
        i := i + 1;
      }
      assert parts[..|parts|] == parts;
      r := path[..n] + Implode(res, [sep]);
    }

    /** The normalised path lies under one of the configured directories. */
    predicate Allowed(path: string) {
      exists d :: d in directories && StartsWith(path, d)
    }

    /** The path tried in directory `dir` for a name. */
    function Candidates(name: string): (cs: seq<string>)
      ensures |cs| == |directories|
    {
      seq(|directories|, i requires 0 <= i < |directories| => Normalize(directories[i] + LTrim(name, Slashes), sep))
    }

    /** `findTemplate($name)`. */
    function Lookup(fs: FileSystem, name: string): Option<string> {
      var nn := Normalize(name, sep);
      if IsRooted(name) && fs.Exists(nn) then
        if Allowed(nn) then Some(nn) else None
      else
        RelativeLookup(fs, name)
    }

    /** The candidate of the first directory, in order, where it exists. */
    function RelativeLookup(fs: FileSystem, name: string): Option<string> {
      match FirstIndex(Candidates(name), ExistsMatcher(fs))
      case None => None
      case Some(i) => Some(Candidates(name)[i])
    }

    method FindTemplate(fs: FileSystem, name: string) returns (r: Option<string>)
      ensures r == Lookup(fs, name)
    {
      var nn := NormalizePath(name);
      if IsRooted(name) && fs.Exists(nn) {
        r := FindRooted(nn);
        return;
      }
      r := FindRelative(fs, name);
    }

    /** The first loop of `findTemplate`: an existing rooted name is
        returned when it starts with some directory, and null otherwise. */
    method FindRooted(nn: string) returns (r: Option<string>)
      ensures r == if Allowed(nn) then Some(nn) else None
    {
      var i := 0;
      while i < |directories|
        invariant 0 <= i <= |directories|
        invariant forall j :: 0 <= j < i ==> !StartsWith(nn, directories[j])
      {
        if StartsWith(nn, directories[i]) {
          return Some(nn);
        }
        i := i + 1;
      }
      return None;
    }

    /** The second loop of `findTemplate`: the candidate of the first
        directory where it exists. */
    method FindRelative(fs: FileSystem, name: string) returns (r: Option<string>)
      ensures r == RelativeLookup(fs, name)
    {
      var i := 0;
      while i < |directories|
        invariant 0 <= i <= |directories|
        invariant forall j :: 0 <= j < i ==> !fs.Exists(Candidates(name)[j])
      {
        var path := NormalizePath(directories[i] + LTrim(name, Slashes));
        if fs.Exists(path) {
          assert path == Candidates(name)[i];
          FirstIndexAt(Candidates(name), ExistsMatcher(fs), i);
          return Some(path);
        }
        i := i + 1;
      }
      FirstIndexAt(Candidates(name), ExistsMatcher(fs), |directories|);
      return None;
    }

    /** Directory `i` is the first, in configured order, whose candidate
        path for `name` exists. */
    predicate FirstExistingAt(fs: FileSystem, name: string, i: int) {
      0 <= i < |directories| && fs.Exists(Candidates(name)[i]) &&
      forall j :: 0 <= j < i ==> !fs.Exists(Candidates(name)[j])
    }

    /** A relative name is found in the first directory, in configured order,
        whose candidate exists; a rooted name that exists is never looked up
        relative to the directories, even when it lies outside all of them. */
    lemma LookupOrder(fs: FileSystem, name: string)
      ensures IsRooted(name) && fs.Exists(Normalize(name, sep)) ==>
        Lookup(fs, name) == (if Allowed(Normalize(name, sep)) then Some(Normalize(name, sep)) else None)
      ensures !(IsRooted(name) && fs.Exists(Normalize(name, sep))) ==>
        forall path :: Lookup(fs, name) == Some(path) <==>
          exists i :: FirstExistingAt(fs, name, i) && path == Candidates(name)[i]
    {
      if !(IsRooted(name) && fs.Exists(Normalize(name, sep))) {
        var cs := Candidates(name);
        forall path ensures Lookup(fs, name) == Some(path) <==>
          exists i :: FirstExistingAt(fs, name, i) && path == cs[i]
        {
          if exists i :: FirstExistingAt(fs, name, i) && path == cs[i] {
            var i :| FirstExistingAt(fs, name, i) && path == cs[i];
            var f := FirstIndex(cs, ExistsMatcher(fs));
            assert f.Some?;
            assert f.value == i;
          }
        }
      }
    }

    /** `isExpired($name, $time)`: a template that cannot be found counts as
        expired; otherwise it is expired when its modification time is later
        than `time` (an unreadable time compares as false). */
    function Expired(fs: FileSystem, name: string, time: int): bool {
      match Lookup(fs, name)
      case None => true
      case Some(path) => path in fs.mtimes && fs.mtimes[path] > time
    }

    method IsExpired(fs: FileSystem, name: string, time: int) returns (r: bool)
      ensures r == Expired(fs, name, time)
    {
      var path := FindTemplate(fs, name);
      if path.None? {
        return true;
      }
      r := path.value in fs.mtimes && fs.mtimes[path.value] > time;
    }

    /** `getContent($name)` at time `now`. */
    function Load(fs: FileSystem, name: string, now: int): Result<Loaded, LoadError> {
      match Lookup(fs, name)
      case None => Err(TemplateNotFound("Template '" + name + "' not found in any directory."))
      case Some(path) =>
        if !Allowed(Normalize(path, sep)) then
          Err(OutsideAllowedPaths("Template '" + path + "' is not within the allowed paths."))
        else if !fs.IsFile(path) then
          Err(TemplateNotFound("Missing template file '" + path + "'."))
        else
          Ok(Loaded(fs.files[path], Expired(fs, name, now)))
    }

    /** The `foreach` over the directories in `getContent`. */
    method IsInAllowedDir(path: string) returns (r: bool)
      ensures r == Allowed(path)
    {
      r := false;
      var i := 0;
      while i < |directories|
        invariant 0 <= i <= |directories|
        invariant forall j :: 0 <= j < i ==> !StartsWith(path, directories[j])
      {
        if StartsWith(path, directories[i]) {
          return true;
        }
        i := i + 1;
      }
    }

    method GetContent(fs: FileSystem, name: string, now: int) returns (r: Result<Loaded, LoadError>)
      ensures r == Load(fs, name, now)
    {
      var path := FindTemplate(fs, name);
      if path.None? {
        return Err(TemplateNotFound("Template '" + name + "' not found in any directory."));
      }
      var normalized := NormalizePath(path.value);
      var inAllowedDir := IsInAllowedDir(normalized);
      if !inAllowedDir {
        return Err(OutsideAllowedPaths("Template '" + path.value + "' is not within the allowed paths."));
      }
      if !fs.IsFile(path.value) {
        return Err(TemplateNotFound("Missing template file '" + path.value + "'."));
      }
      var expired := IsExpired(fs, name, now);
      r := Ok(Loaded(fs.files[path.value], expired));
    }

    /** Every template `getContent` returns is a file whose path, with '/' as
        the separator, lies under one of the configured directories. */
    lemma LoadedFileIsInsideDirectories(fs: FileSystem, name: string, now: int)
      requires sep == '/'
      requires Load(fs, name, now).Ok?
      requires !DriveDotHead(Lookup(fs, name).value)
      ensures Lookup(fs, name).value in fs.files
      ensures Load(fs, name, now).value.content == fs.files[Lookup(fs, name).value]
      ensures Allowed(Lookup(fs, name).value)
    {
      var path := Lookup(fs, name).value;
      var nn := Normalize(name, sep);
      if IsRooted(name) && fs.Exists(nn) {
        NormalizeIdempotent(name);
      } else {
        var i := FirstIndex(Candidates(name), ExistsMatcher(fs)).value;
        NormalizeIdempotent(directories[i] + LTrim(name, Slashes));
      }
      assert Normalize(path, sep) == path;
    }

    /** `getReferredName($name, $referring)`. */
    function ReferredName(name: string, referring: string): string {
      if !IsReferredAbsolute(name) then Normalize(referring + "/../" + name, sep) else name
    }

    method GetReferredName(name: string, referring: string) returns (r: string)
      ensures r == ReferredName(name, referring)
    {
      r := name;
      if !IsReferredAbsolute(name) {
        r := NormalizePath(referring + "/../" + name);
      }
    }

    /** A plain relative name resolves next to the file that refers to it. */
    lemma ReferredNameIsSibling(dirs: seq<string>, f: string, name: string)
      requires sep == '/'
      requires forall k :: 0 <= k < |dirs| ==> Plain(dirs[k])
      requires Plain(f) && Plain(name)
      ensures ReferredName(name, Implode(dirs + [f], "/")) == Implode(dirs + [name], "/")
    {
      PlainIsRelative(name);
      PlainPathRoundTrip(dirs, f, name);
    }

    /** `getUniqueId($name)`: the found path with '/' turned into the
        separator, or the name itself when nothing (or "0") is found. */
    method GetUniqueId(fs: FileSystem, name: string) returns (r: string)
      ensures Lookup(fs, name).Some? && Truthy(Lookup(fs, name).value) ==> r == Replace(Lookup(fs, name).value, "/", [sep])
      ensures !(Lookup(fs, name).Some? && Truthy(Lookup(fs, name).value)) ==> r == name
      ensures sep == '/' && Lookup(fs, name).Some? && Truthy(Lookup(fs, name).value) ==> r == Lookup(fs, name).value
    {
      var path := FindTemplate(fs, name);
      if path.Some? && Truthy(path.value) {
        r := Replace(path.value, "/", [sep]);
        if sep == '/' {
          ReplaceSame(path.value, '/');
        }
      } else {
        r := name;
      }
    }
  }

  lemma {:induction false} ReplaceSame(s: string, c: char)
    ensures Replace(s, [c], [c]) == s
    decreases |s|
  {
    if |s| >= 1 {
      ReplaceSame(s[1..], c);
      assert s[..1] == [s[0]];
      assert [s[0]] + s[1..] == s;
    }
  }
}
