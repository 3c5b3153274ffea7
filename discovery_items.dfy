/** `DiscoveryItems`: the items one discovery has found, filed by location
    and kept in insertion order. */
module Items {
  import opened Locations

  /** The items of the locations in `keys`, location after location. */
  function Flatten<T>(keys: seq<string>, m: map<string, seq<T>>): seq<T>
    requires forall k :: k in keys ==> k in m
  {
    if keys == [] then [] else Flatten(keys[..|keys| - 1], m) + m[keys[|keys| - 1]]
  }

  predicate Distinct(keys: seq<string>) {
    forall i, j :: 0 <= i < j < |keys| ==> keys[i] != keys[j]
  }

  lemma {:induction false} FlattenConcat<T>(a: seq<string>, b: seq<string>, m: map<string, seq<T>>)
    requires forall k :: k in a + b ==> k in m
    ensures Flatten(a + b, m) == Flatten(a, m) + Flatten(b, m)
    decreases |b|
  {
    if b == [] {
      assert a + b == a;
    } else {
      assert (a + b)[..|a + b| - 1] == a + b[..|b| - 1];
      FlattenConcat(a, b[..|b| - 1], m);
    }
  }

  /** Changing the list of a location not among `keys` changes nothing. */
  lemma {:induction false} FlattenIgnores<T>(keys: seq<string>, m: map<string, seq<T>>, k: string, v: seq<T>)
    requires forall x :: x in keys ==> x in m
    requires k !in keys
    ensures Flatten(keys, m[k := v]) == Flatten(keys, m)
    decreases |keys|
  {
    if keys != [] {
      FlattenIgnores(keys[..|keys| - 1], m, k, v);
    }
  }

  lemma {:induction false} FlattenLength<T>(keys: seq<string>, m: map<string, seq<T>>)
    requires forall k :: k in keys ==> k in m
    requires forall k :: k in keys ==> m[k] != []
    ensures |Flatten(keys, m)| >= |keys|
    decreases |keys|
  {
    if keys != [] {
      FlattenLength(keys[..|keys| - 1], m);
    }
  }

  /** `add` to a known location: the item lands right after that
      location's last item, everything before and after stays in place. */
  lemma FlattenAppendAt<T>(keys: seq<string>, m: map<string, seq<T>>, i: nat, x: T)
    requires forall k :: k in keys ==> k in m
    requires Distinct(keys) && i < |keys|
    ensures Flatten(keys, m[keys[i] := m[keys[i]] + [x]]) ==
      Flatten(keys[..i + 1], m) + [x] + Flatten(keys[i + 1..], m)
  {
    var k := keys[i];
    var m' := m[k := m[k] + [x]];
    var before, upto, after := keys[..i], keys[..i + 1], keys[i + 1..];
    assert keys == upto + after;
    assert upto == before + [k];
    assert k !in before && k !in after;
    FlattenConcat(upto, after, m');
    FlattenSnoc(before, k, m');
    FlattenSnoc(before, k, m);
    FlattenIgnores(before, m, k, m[k] + [x]);
    FlattenIgnores(after, m, k, m[k] + [x]);
    calc {
      Flatten(keys, m');
      Flatten(upto, m') + Flatten(after, m');
      Flatten(before, m) + (m[k] + [x]) + Flatten(after, m);
      Flatten(upto, m) + [x] + Flatten(after, m);
    }
  }

  lemma FlattenSnoc<T>(keys: seq<string>, k: string, m: map<string, seq<T>>)
    requires forall key :: key in keys + [k] ==> key in m
    ensures Flatten(keys + [k], m) == Flatten(keys, m) + m[k]
  {
    assert (keys + [k])[..|keys + [k]| - 1] == keys;
  }

  /** `add` to a new location: the item comes after everything else. */
  lemma FlattenAppendNew<T>(keys: seq<string>, m: map<string, seq<T>>, k: string, x: T)
    requires forall key :: key in keys ==> key in m
    requires k !in keys
    ensures Flatten(keys + [k], m[k := [x]]) == Flatten(keys, m) + [x]
  {
    assert (keys + [k])[..|keys + [k]| - 1] == keys;
    FlattenIgnores(keys, m, k, [x]);
  }

  /** The invariant of the item store: the key order lists exactly the
      locations used, once each, no location's list is empty, and the
      stored items are, as a multiset, the items ever added. */
  ghost predicate ValidState<T>(order: seq<string>, items: map<string, seq<T>>, added: seq<T>) {
    && (forall k :: k in order <==> k in items)
    && Distinct(order)
    && (forall k :: k in items ==> items[k] != [])
    && |Flatten(order, items)| == |added|
    && multiset(Flatten(order, items)) == multiset(added)
  }

  lemma AddNewKeepsValid<T>(order: seq<string>, items: map<string, seq<T>>, added: seq<T>, key: string, x: T)
    requires ValidState(order, items, added) && key !in items
    ensures ValidState(order + [key], items[key := [x]], added + [x])
  {
    FlattenAppendNew(order, items, key, x);
  }

  lemma InsertCounts<T>(a: seq<T>, b: seq<T>, x: T)
    ensures |a + [x] + b| == |a + b| + 1
    ensures multiset(a + [x] + b) == multiset(a + b) + multiset{x}
  {
  }

  lemma FlattenSplit<T>(order: seq<string>, items: map<string, seq<T>>, i: nat)
    requires forall k :: k in order ==> k in items
    requires i < |order|
    ensures Flatten(order, items) == Flatten(order[..i + 1], items) + Flatten(order[i + 1..], items)
  {
    assert order[..i + 1] + order[i + 1..] == order;
    FlattenConcat(order[..i + 1], order[i + 1..], items);
  }

  lemma AddExistingKeepsValid<T>(order: seq<string>, items: map<string, seq<T>>, added: seq<T>, i: nat, x: T)
    requires ValidState(order, items, added) && i < |order|
    ensures ValidState(order, items[order[i] := items[order[i]] + [x]], added + [x])
  {
    var k := order[i];
    var items' := items[k := items[k] + [x]];
    var a, b := Flatten(order[..i + 1], items), Flatten(order[i + 1..], items);
    FlattenAppendAt(order, items, i, x);
    FlattenSplit(order, items, i);
    InsertCounts(a, b, x);
    assert Flatten(order, items') == a + [x] + b;
    assert Flatten(order, items) == a + b;
    assert forall key :: key in order <==> key in items' by {
      assert k in items;
    }
    assert forall key :: key in items' ==> items'[key] != [];
  }

  class DiscoveryItems<T> {
    /** The location keys in the order they were first used (PHP's array
        key order). */
    var order: seq<string>
    var items: map<string, seq<T>>
    /** Every item ever passed to `add`, in call order. */
    ghost var added: seq<T>

    ghost predicate Valid()
      reads this
    {
      ValidState(order, items, added)
    }

    constructor ()
      ensures Valid()
      ensures order == [] && items == map[] && added == []
    {
      order := [];
      items := map[];
      added := [];
    }

    /** `add($location, $item)`. */
    method Add(loc: DiscoveryLocation, x: T)
      requires Valid()
      modifies this
      ensures Valid()
      ensures added == old(added) + [x]
      ensures LocationKey(loc) in old(items) ==>
        order == old(order) && items == old(items)[LocationKey(loc) := old(items)[LocationKey(loc)] + [x]]
      ensures LocationKey(loc) !in old(items) ==>
        order == old(order) + [LocationKey(loc)] && items == old(items)[LocationKey(loc) := [x]]
    {
      var key := LocationKey(loc);
      if key !in items {
        AddNewKeepsValid(order, items, added, key, x);
        order := order + [key];
        items := items[key := [x]];
      } else {
        var i :| 0 <= i < |order| && order[i] == key;
        AddExistingKeepsValid(order, items, added, i, x);
        items := items[key := items[key] + [x]];
      }
      added := added + [x];
    }

    /** `all()`: the lists of all locations joined with `array_merge`. */
    method All() returns (r: seq<T>)
      requires Valid()
      ensures r == Flatten(order, items)
      ensures |r| == |added| && multiset(r) == multiset(added)
    {
      r := [];
      var i := 0;
      while i < |order|
        invariant 0 <= i <= |order|
        invariant r == Flatten(order[..i], items)
      {
        assert order[..i + 1][..i] == order[..i];
        r := r + items[order[i]];
        i := i + 1;
      }
      assert order[..|order|] == order;
    }

    /** `isEmpty()`: no location has been used, that is no `add` yet. */
    method IsEmpty() returns (r: bool)
      requires Valid()
      ensures r <==> added == []
      ensures r <==> items == map[]
    {
      r := items == map[];
      if order != [] {
        assert order[0] in items;
        FlattenLength(order, items);
      } else {
        assert items == map[];
      }
    }

    /** `count()`: the number of `add` calls so far. */
    method Count() returns (n: nat)
      requires Valid()
      ensures n == |added|
    {
      var all := All();
      n := |all|;
    }
  }
}
