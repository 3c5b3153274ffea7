/** `Picowind\Supports\AdvancedCustomFields::acf_register_blocks`: every
    directory under the parent theme's `blocks` directory that holds a
    `block.json` is registered, in ascending path order. */
module Acf {
  import opened Php
  import opened Env
  import Blocks

  /** `strcmp($a, $b) < 0`: how `asort` orders two non-numeric strings
      (block paths always contain `/`, so PHP never compares them as
      numbers). */
  predicate Below(a: string, b: string)
    decreases |a|
  {
    if a == [] then b != []
    else if b == [] then false
    else if a[0] != b[0] then a[0] < b[0]
    else Below(a[1..], b[1..])
  }

  /** Ascending order, duplicates allowed. */
  predicate Ascending(s: seq<string>) {
    forall i :: 0 < i < |s| ==> !Below(s[i], s[i - 1])
  }

  lemma {:induction false} BelowAsymmetric(a: string, b: string)
    ensures Below(a, b) ==> !Below(b, a)
    decreases |a|
  {
    if a != [] && b != [] && a[0] == b[0] {
      BelowAsymmetric(a[1..], b[1..]);
    }
  }

  lemma {:induction false} BelowTotal(a: string, b: string)
    ensures a == b || Below(a, b) || Below(b, a)
    decreases |a|
  {
    if a != [] && b != [] && a[0] == b[0] {
      BelowTotal(a[1..], b[1..]);
      if a[1..] == b[1..] {
        assert a == [a[0]] + a[1..] && b == [b[0]] + b[1..];
      }
    }
  }

  lemma {:induction false} BelowTransitive(a: string, b: string, c: string)
    requires Below(a, b) && Below(b, c)
    ensures Below(a, c)
    decreases |a|
  {
    if a != [] && a[0] == b[0] && b[0] == c[0] {
      BelowTransitive(a[1..], b[1..], c[1..]);
    }
  }

  /** Not-below is transitive, so an ascending sequence is ordered between
      any two positions, not only neighbouring ones. */
  lemma {:induction false} AscendingPairwise(s: seq<string>, i: nat, j: nat)
    requires Ascending(s) && i < j < |s|
    ensures !Below(s[j], s[i])
    decreases j - i
  {
    if i + 1 < j {
      AscendingPairwise(s, i, j - 1);
      if Below(s[j], s[i]) {
        BelowTotal(s[j - 1], s[i]);
        if s[j - 1] != s[i] {
          BelowTransitive(s[j], s[i], s[j - 1]);
        }
      }
    }
  }

  /** `x` placed after every element not above it. */
  function Insert(s: seq<string>, x: string): seq<string> {
    if s == [] then [x]
    else if Below(x, s[0]) then [x] + s
    else [s[0]] + Insert(s[1..], x)
  }

  lemma {:induction false} InsertCount(s: seq<string>, x: string)
    ensures multiset(Insert(s, x)) == multiset(s) + multiset{x}
    ensures Insert(s, x)[0] == x || (s != [] && Insert(s, x)[0] == s[0])
    decreases |s|
  {
    if s != [] && !Below(x, s[0]) {
      InsertCount(s[1..], x);
      assert s == [s[0]] + s[1..];
    }
  }

  lemma {:induction false} InsertAscending(s: seq<string>, x: string)
    requires Ascending(s)
    ensures Ascending(Insert(s, x))
    decreases |s|
  {
    if s != [] {
      if Below(x, s[0]) {
        BelowAsymmetric(x, s[0]);
      } else {
        var rest := s[1..];
        InsertAscending(rest, x);
        InsertCount(rest, x);
        var r := Insert(rest, x);
        var whole := [s[0]] + r;
        assert Insert(s, x) == whole;
        forall i | 0 < i < |whole| ensures !Below(whole[i], whole[i - 1]) {
          if i > 1 {
            assert whole[i] == r[i - 1] && whole[i - 1] == r[i - 2];
          }
        }
      }
    }
  }

  /** `asort($blocks)`: the collected paths in ascending order. Only what
      `asort` promises is stated (an ascending permutation); the sort
      algorithm is PHP's, not the theme's. */
  method Asort(blocks: seq<string>) returns (sorted: seq<string>)
    ensures Ascending(sorted)
    ensures multiset(sorted) == multiset(blocks)
  {
    sorted := [];
    var i := 0;
    while i < |blocks|
      invariant i <= |blocks|
      invariant Ascending(sorted)
      invariant multiset(sorted) == multiset(blocks[..i])
    {
      InsertAscending(sorted, blocks[i]);
      InsertCount(sorted, blocks[i]);
      assert blocks[..i + 1] == blocks[..i] + [blocks[i]];
      sorted := Insert(sorted, blocks[i]);
      i := i + 1;
    }
    assert blocks[..i] == blocks;
  }

  /** The collecting loop: the non-dot entries holding a `block.json`, in
      listing order. */
  method CollectBlocks(dir: string, entries: seq<string>, fs: FileSystem) returns (blocks: seq<string>)
    ensures blocks == Blocks.BlockDirs(dir, entries, fs)
  {
    blocks := [];
    var k := 0;
    while k < |entries|
      invariant k <= |entries|
      invariant blocks == Blocks.BlockDirs(dir, entries[..k], fs)
    {
      Blocks.BlockDirsSnoc(dir, entries, k, fs);
      var path := Blocks.PathName(dir, entries[k]);
      if !Blocks.IsDot(entries[k]) && fs.Exists(Blocks.BlockJson(path)) {
        blocks := blocks + [path];
      }
      k := k + 1;
    }
    assert entries[..k] == entries;
  }

  /** `acf_register_blocks`, given the parent theme's directory. `listing`
      is what `DirectoryIterator` yields for a directory; a `blocks`
      directory missing from it makes the method throw before anything is
      registered (`failed`). */
  method RegisterBlocks(templateDir: string, listing: map<string, seq<string>>, fs: FileSystem)
    returns (registered: seq<string>, failed: bool)
    ensures failed <==> templateDir + "/blocks" !in listing
    ensures failed ==> registered == []
    ensures !failed ==>
      Ascending(registered)
      && multiset(registered) == multiset(Blocks.BlockDirs(templateDir + "/blocks", listing[templateDir + "/blocks"], fs))
  {
    var dir := templateDir + "/blocks";
    if dir !in listing {
      return [], true;
    }
    var blocks := CollectBlocks(dir, listing[dir], fs);
    var sorted := Asort(blocks);
    registered := Blocks.RegisterAll(sorted);
    failed := false;
  }

  /** What `acf_register_blocks` registers: exactly the non-dot entries of
      the `blocks` directory holding a `block.json`, each as often as it was
      collected, with a path never registered before a smaller one. */
  lemma RegisteredAcfBlocks(dir: string, entries: seq<string>, fs: FileSystem, registered: seq<string>, p: string)
    requires Ascending(registered)
    requires multiset(registered) == multiset(Blocks.BlockDirs(dir, entries, fs))
    ensures p in registered <==>
      exists e :: e in entries && !Blocks.IsDot(e) && p == Blocks.PathName(dir, e)
                  && fs.Exists(Blocks.BlockJson(Blocks.PathName(dir, e)))
    ensures forall i, j :: 0 <= i < j < |registered| ==> !Below(registered[j], registered[i])
  {
    Blocks.BlockDirsMembers(dir, entries, fs);
    assert p in registered <==> p in multiset(registered);
    assert p in Blocks.BlockDirs(dir, entries, fs) <==> p in multiset(Blocks.BlockDirs(dir, entries, fs));
    forall i, j | 0 <= i < j < |registered|
      ensures !Below(registered[j], registered[i])
    {
      AscendingPairwise(registered, i, j);
    }
  }
}
