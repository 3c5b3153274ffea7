/** A discovery location: a PSR-4 namespace prefix and the directory it maps
    to, with the file-path-to-class-name rewriting and the vendor test. */
module Locations {
  import opened Php

  datatype DiscoveryLocation = DiscoveryLocation(namespace: string, path: string)

  /** The key `DiscoveryItems` files a location's items under. */
  function LocationKey(loc: DiscoveryLocation): (k: string)
    ensures |k| == |loc.namespace| + 1 + |loc.path|
    ensures k[..|loc.namespace|] == loc.namespace && k[|loc.namespace|] == '|'
    ensures k[|loc.namespace| + 1..] == loc.path
  {
    loc.namespace + "|" + loc.path
  }

  /** Two locations whose namespaces hold no '|' share a key only if they
      are the same location. */
  lemma LocationKeyInjective(a: DiscoveryLocation, b: DiscoveryLocation)
    requires '|' !in a.namespace && '|' !in b.namespace
    requires LocationKey(a) == LocationKey(b)
    ensures a == b
  {
  }

  /** `isVendor()`. */
  predicate IsVendor(loc: DiscoveryLocation) {
    Contains(loc.path, "/vendor/") || Contains(loc.path, "\\vendor\\")
  }

  /** A location anywhere under a `vendor` directory is a vendor location,
      whichever separator the path uses. */
  lemma UnderVendor(a: string, b: string, namespace: string)
    ensures IsVendor(DiscoveryLocation(namespace, a + "/vendor/" + b))
    ensures IsVendor(DiscoveryLocation(namespace, a + "\\vendor\\" + b))
  {
    ContainsMiddle(a, "/vendor/", b);
    ContainsMiddle(a, "\\vendor\\", b);
  }

  /** The root `toClassName` strips: `realpath($this->path)`, or the stored
      path when `realpath` fails. */
  function Root(loc: DiscoveryLocation, realPath: Option<string>): (r: string)
    ensures realPath.None? ==> r == loc.path
    ensures realPath.Some? ==> r == realPath.value
  {
    match realPath
    case Some(p) => p
    case None => loc.path
  }

  /** `toClassName($filePath)`: the four replacements of the `str_replace`
      call, each over the whole result of the previous one. */
  function ToClassName(loc: DiscoveryLocation, realPath: Option<string>, filePath: string): string {
    var s1 := Replace(filePath, Root(loc, realPath), RTrim(loc.namespace, {'\\'}));
    var s2 := Replace(s1, "/", "\\");
    var s3 := Replace(s2, "\\\\", "\\");
    Replace(s3, ".php", "")
  }

  /** No two backslashes stand next to each other. */
  predicate NoDouble(s: string) {
    forall i :: 0 <= i < |s| - 1 ==> s[i] != '\\' || s[i + 1] != '\\'
  }

  lemma {:induction false} ReplaceNoDouble(s: string)
    requires NoDouble(s)
    ensures Replace(s, "\\\\", "\\") == s
    decreases |s|
  {
    if |s| >= 2 {
      assert s[..2] != "\\\\" by { assert s[..2][0] == s[0] && s[..2][1] == s[1]; }
      ReplaceNoDouble(s[1..]);
      assert [s[0]] + s[1..] == s;
    }
  }

  lemma NoDoubleConcat(a: string, b: string)
    requires NoDouble(a) && NoDouble(b)
    requires a == [] || b == [] || a[|a| - 1] != '\\' || b[0] != '\\'
    ensures NoDouble(a + b)
  {
    var s := a + b;
    forall i | 0 <= i < |s| - 1
      ensures s[i] != '\\' || s[i + 1] != '\\'
    {
      if i + 1 < |a| {
        assert s[i] == a[i] && s[i + 1] == a[i + 1];
      } else if i >= |a| {
        assert s[i] == b[i - |a|] && s[i + 1] == b[i - |a| + 1];
      }
    }
  }

  /** A segment of a class name: non-empty, without separators or dots. */
  predicate Segment(s: string) {
    s != [] && '/' !in s && '\\' !in s && '.' !in s
  }

  lemma {:induction false} ImplodeSegments(segs: seq<string>)
    requires |segs| >= 1
    requires forall k :: 0 <= k < |segs| ==> Segment(segs[k])
    ensures var j := Implode(segs, "\\");
      j != [] && NoDouble(j) && j[0] != '\\' && j[|j| - 1] != '\\' && '.' !in j && '/' !in j
    decreases |segs|
  {
    var j := Implode(segs, "\\");
    if |segs| == 1 {
      assert segs[0][0] in segs[0];
      assert segs[0][|segs[0]| - 1] in segs[0];
    } else {
      var rest := Implode(segs[1..], "\\");
      ImplodeSegments(segs[1..]);
      assert segs[0][0] in segs[0];
      assert segs[0][|segs[0]| - 1] in segs[0];
      assert NoDouble(segs[0]);
      NoDoubleConcat(segs[0], "\\");
      NoDoubleConcat(segs[0] + "\\", rest);
      assert j == segs[0] + "\\" + rest;
      assert j[|j| - 1] == rest[|rest| - 1];
    }
  }

  /** Every '/' of `<namespace>/<A>/.../<Z>.php` becomes '\'. */
  lemma SlashesToBackslashes(n: string, segs: seq<string>)
    requires '/' !in n
    requires forall k :: 0 <= k < |segs| ==> '/' !in segs[k]
    ensures Replace(n + ("/" + Implode(segs, "/") + ".php"), "/", "\\") == n + "\\" + Implode(segs, "\\") + ".php"
  {
    var j := Implode(segs, "/");
    ReplaceAbsent(n, '/', "\\");
    ReplaceCharConcat(n, "/" + j + ".php", '/', "\\");
    ReplaceCharConcat("/" + j, ".php", '/', "\\");
    ReplaceCharConcat("/", j, '/', "\\");
    assert Replace("/", "/", "\\") == "\\" + Replace("", "/", "\\");
    ReplaceGlue(segs, '/', "\\");
    ReplaceAbsent(".php", '/', "\\");
  }

  /** `<namespace>\A\...\Z.php` has no doubled backslash to collapse. */
  lemma ClassPathNoDouble(ns: string, segs: seq<string>)
    requires |segs| >= 1 && forall k :: 0 <= k < |segs| ==> Segment(segs[k])
    requires NoDouble(ns)
    ensures NoDouble(RTrim(ns, {'\\'}) + "\\" + Implode(segs, "\\") + ".php")
  {
    var n := RTrim(ns, {'\\'});
    var i := Implode(segs, "\\");
    ImplodeSegments(segs);
    assert NoDouble(n) by {
      forall k | 0 <= k < |n| - 1 ensures n[k] != '\\' || n[k + 1] != '\\' {
        assert n[k] == ns[k] && n[k + 1] == ns[k + 1];
      }
    }
    NoDoubleConcat(n, "\\");
    NoDoubleConcat(n + "\\", i);
    NoDoubleConcat(n + "\\" + i, ".php");
  }

  /** The trailing ".php" is the only one and is dropped. */
  lemma DropExtension(n: string, segs: seq<string>)
    requires '.' !in n
    requires |segs| >= 1 && forall k :: 0 <= k < |segs| ==> Segment(segs[k])
    ensures Replace(n + "\\" + Implode(segs, "\\") + ".php", ".php", "") == n + "\\" + Implode(segs, "\\")
  {
    var i := Implode(segs, "\\");
    var p := n + "\\" + i;
    ImplodeSegments(segs);
    assert '.' !in p by {
      assert forall x :: x in p ==> x in n || x == '\\' || x in i;
    }
    ReplacePassThrough(p, ".php", ".php", "");
    assert Replace(".php", ".php", "") == "" + Replace("", ".php", "");
    assert p + "" == p;
  }

  lemma Regroup(a: string, b: string, c: string, d: string)
    ensures a + b + c + d == a + (b + c + d)
  {
  }

  /** The PSR-4 mapping (section 3 of PSR-4): a file
      `<root>/<A>/.../<Z>.php` under the location becomes the class
      `<namespace>\A\...\Z`, the namespace taken without trailing '\'. */
  lemma ToClassNamePsr4(loc: DiscoveryLocation, realPath: Option<string>, segs: seq<string>)
    requires Root(loc, realPath) != []
    requires |segs| >= 1 && forall k :: 0 <= k < |segs| ==> Segment(segs[k])
    requires '/' !in loc.namespace && '.' !in loc.namespace && NoDouble(loc.namespace)
    requires !Contains("/" + Implode(segs, "/") + ".php", Root(loc, realPath))
    ensures ToClassName(loc, realPath, Root(loc, realPath) + "/" + Implode(segs, "/") + ".php") ==
      RTrim(loc.namespace, {'\\'}) + "\\" + Implode(segs, "\\")
  {
    var root := Root(loc, realPath);
    var n := RTrim(loc.namespace, {'\\'});
    RootReplaced(root, n, segs);
    assert forall x :: x in n ==> x in loc.namespace;
    SlashesToBackslashes(n, segs);
    var s2 := n + "\\" + Implode(segs, "\\") + ".php";
    ClassPathNoDouble(loc.namespace, segs);
    ReplaceNoDouble(s2);
    DropExtension(n, segs);
  }

  /** The first step of the mapping: the root at the start of the path
      becomes the namespace, and nothing else of the path changes. */
  lemma RootReplaced(root: string, n: string, segs: seq<string>)
    requires root != []
    requires !Contains("/" + Implode(segs, "/") + ".php", root)
    ensures Replace(root + "/" + Implode(segs, "/") + ".php", root, n) == n + ("/" + Implode(segs, "/") + ".php")
  {
    var j := Implode(segs, "/");
    var t := "/" + j + ".php";
    Regroup(root, "/", j, ".php");
    ReplaceAtStart(t, root, n);
    ReplaceNoMatch(t, root, n);
  }
}
