/** `HookDiscovery`: collects `#[Hook]` methods, turns the collected items
    into hook records, and registers them with WordPress grouped by
    ascending priority. */
module Hooks {
  import opened Php
  import opened Env
  import opened Locations
  import opened Reflection
  import opened Items
  import opened Containers

  /** An item as `apply` meets it: an array whose keys may be missing or
      null (items restored from a cache are not checked), or not an array. */
  datatype HookItem =
    | HookData(className: Option<string>, methodName: Option<string>, hook: Option<string>,
               hookType: Option<string>, priority: Option<int>, acceptedArgs: Option<int>)
    | NotArray

  /** An entry of the `hooks` field. */
  datatype HookRecord = HookRecord(className: string, methodName: string, hook: string, hookType: string,
                                   priority: int, acceptedArgs: int)

  /** A call made to WordPress; the callback is the method of the service
      the container returns for the class. */
  datatype Registration =
    | AddAction(hook: string, service: string, methodName: string, priority: int, acceptedArgs: int)
    | AddFilter(hook: string, service: string, methodName: string, priority: int, acceptedArgs: int)

  // ---------------------------------------------------------------------
  // discover

  /** The item `discover` adds for a method carrying a Hook attribute. */
  function ItemFor(className: string, m: MethodInfo, a: HookAttr): HookItem {
    HookData(Some(className), Some(m.name), Some(a.name), Some(a.hookType), Some(a.priority), Some(a.acceptedArgs))
  }

  /** The items `discover` adds for a list of public methods: one per
      method with a Hook attribute (its first), in method order. */
  function DiscoveredHooks(className: string, ms: seq<MethodInfo>): (r: seq<HookItem>)
    ensures |r| <= |ms|
    ensures r == [] <==> forall i :: 0 <= i < |ms| ==> ms[i].hooks == []
  {
    if ms == [] then []
    else
      var last := ms[|ms| - 1];
      var before := DiscoveredHooks(className, ms[..|ms| - 1]);
      match GetAttribute(last.hooks)
      case None => before
      case Some(a) => before + [ItemFor(className, last, a)]
  }

  /** The items of one more method follow those of the methods before. */
  lemma DiscoveredHooksSnoc(className: string, ms: seq<MethodInfo>, i: nat)
    requires i < |ms|
    ensures DiscoveredHooks(className, ms[..i + 1]) ==
      DiscoveredHooks(className, ms[..i]) + DiscoveredHooks(className, [ms[i]])
  {
    assert ms[..i + 1][..i] == ms[..i];
    assert [ms[i]][..0] == [];
  }

  // ---------------------------------------------------------------------
  // apply

  /** The `isset` test of `apply`: every key but `type` present. */
  predicate Complete(x: HookItem) {
    x.HookData? && x.className.Some? && x.methodName.Some? && x.hook.Some? && x.priority.Some? && x.acceptedArgs.Some?
  }

  /** The record `apply` builds from a complete item; a missing type
      becomes `filter`. */
  function RecordOf(x: HookItem): (h: HookRecord)
    requires Complete(x)
    ensures h.hookType == (if x.hookType.Some? then x.hookType.value else "filter")
  {
    HookRecord(x.className.value, x.methodName.value, x.hook.value,
               if x.hookType.Some? then x.hookType.value else "filter",
               x.priority.value, x.acceptedArgs.value)
  }

  /** The records `apply` appends for a list of items, in order. */
  function Records(xs: seq<HookItem>): (r: seq<HookRecord>)
    ensures |r| <= |xs|
    ensures (forall i :: 0 <= i < |xs| ==> Complete(xs[i])) ==> |r| == |xs|
  {
    if xs == [] then []
    else
      var last := xs[|xs| - 1];
      Records(xs[..|xs| - 1]) + (if Complete(last) then [RecordOf(last)] else [])
  }

  /** The records of a class's hooks read straight off the attributes, the
      attribute defaults already in place. */
  function AttributeRecords(className: string, ms: seq<MethodInfo>): seq<HookRecord> {
    if ms == [] then []
    else
      var last := ms[|ms| - 1];
      AttributeRecords(className, ms[..|ms| - 1]) +
      (if last.hooks == [] then []
       else [HookRecord(className, last.name, last.hooks[0].name, last.hooks[0].hookType,
                        last.hooks[0].priority, last.hooks[0].acceptedArgs)])
  }

  lemma RecordsSnoc(xs: seq<HookItem>, x: HookItem)
    ensures Records(xs + [x]) == Records(xs) + (if Complete(x) then [RecordOf(x)] else [])
  {
    assert (xs + [x])[..|xs|] == xs;
  }

  lemma {:induction false} RecordsConcat(a: seq<HookItem>, b: seq<HookItem>)
    ensures Records(a + b) == Records(a) + Records(b)
    decreases |b|
  {
    if b == [] {
      assert a + b == a;
    } else {
      assert (a + b)[..|a + b| - 1] == a + b[..|b| - 1];
      RecordsConcat(a, b[..|b| - 1]);
    }
  }

  /** What `discover` stores, `apply` reads back whole: discovering a class
      and applying yields exactly the hook attributes of its methods. */
  lemma {:induction false} DiscoverThenApply(className: string, ms: seq<MethodInfo>)
    ensures Records(DiscoveredHooks(className, ms)) == AttributeRecords(className, ms)
    decreases |ms|
  {
    if ms != [] {
      var last := ms[|ms| - 1];
      var init := ms[..|ms| - 1];
      DiscoverThenApply(className, init);
      if last.hooks != [] {
        var item := ItemFor(className, last, last.hooks[0]);
        assert DiscoveredHooks(className, ms) == DiscoveredHooks(className, init) + [item];
        RecordsConcat(DiscoveredHooks(className, init), [item]);
        assert Records([item]) == Records([]) + [RecordOf(item)];
      } else {
        assert DiscoveredHooks(className, ms) == DiscoveredHooks(className, init);
      }
    }
  }

  // ---------------------------------------------------------------------
  // registerHooks: grouped by priority, ascending, stable

  /** The hooks of priority `p`, in order. */
  function WithPriority(hs: seq<HookRecord>, p: int): (r: seq<HookRecord>)
    ensures |r| <= |hs|
  {
    if hs == [] then []
    else WithPriority(hs[..|hs| - 1], p) + (if hs[|hs| - 1].priority == p then [hs[|hs| - 1]] else [])
  }

  /** The hooks of any other priority, in order. */
  function WithoutPriority(hs: seq<HookRecord>, p: int): (r: seq<HookRecord>)
    ensures |r| <= |hs|
  {
    if hs == [] then []
    else WithoutPriority(hs[..|hs| - 1], p) + (if hs[|hs| - 1].priority != p then [hs[|hs| - 1]] else [])
  }

  /** The two filters split the list: each hook lands in exactly one. */
  lemma {:induction false} SplitMembers(hs: seq<HookRecord>, p: int)
    ensures forall h :: h in WithPriority(hs, p) <==> h in hs && h.priority == p
    ensures forall h :: h in WithoutPriority(hs, p) <==> h in hs && h.priority != p
    ensures |WithPriority(hs, p)| + |WithoutPriority(hs, p)| == |hs|
    decreases |hs|
  {
    if hs != [] {
      var init, last := hs[..|hs| - 1], hs[|hs| - 1];
      SplitMembers(init, p);
      assert hs == init + [last];
      assert forall h :: h in hs <==> h in init || h == last;
      var w, wo := WithPriority(init, p), WithoutPriority(init, p);
      if last.priority == p {
        assert WithPriority(hs, p) == w + [last];
        assert WithoutPriority(hs, p) == wo;
        assert forall h :: h in w + [last] <==> h in w || h == last;
      } else {
        assert WithPriority(hs, p) == w;
        assert WithoutPriority(hs, p) == wo + [last];
        assert forall h :: h in wo + [last] <==> h in wo || h == last;
      }
    }
  }

  /** The smallest priority present. */
  function MinPriority(hs: seq<HookRecord>): (m: int)
    requires hs != []
    ensures exists i :: 0 <= i < |hs| && hs[i].priority == m
    ensures forall i :: 0 <= i < |hs| ==> m <= hs[i].priority
  {
    if |hs| == 1 then hs[0].priority
    else
      var init := hs[..|hs| - 1];
      var rest := MinPriority(init);
      assert forall i :: 0 <= i < |hs| - 1 ==> hs[i] == init[i];
      if hs[|hs| - 1].priority <= rest then hs[|hs| - 1].priority else rest
  }

  /** The group of the smallest priority is never empty. */
  lemma MinGroupNonEmpty(hs: seq<HookRecord>)
    requires hs != []
    ensures WithPriority(hs, MinPriority(hs)) != []
    ensures |WithoutPriority(hs, MinPriority(hs))| < |hs|
  {
    var m := MinPriority(hs);
    var i :| 0 <= i < |hs| && hs[i].priority == m;
    SplitMembers(hs, m);
    assert hs[i] in WithPriority(hs, m);
  }

  /** The order in which `registerHooks` registers: the group of the
      smallest priority first, then the rest by the same rule. */
  function ByPriority(hs: seq<HookRecord>): seq<HookRecord>
    decreases |hs|
  {
    if hs == [] then []
    else
      var m := MinPriority(hs);
      MinGroupNonEmpty(hs);
      WithPriority(hs, m) + ByPriority(WithoutPriority(hs, m))
  }

  lemma {:induction false} SplitPermutes(hs: seq<HookRecord>, p: int)
    ensures multiset(WithPriority(hs, p)) + multiset(WithoutPriority(hs, p)) == multiset(hs)
    decreases |hs|
  {
    if hs != [] {
      var init, last := hs[..|hs| - 1], hs[|hs| - 1];
      SplitPermutes(init, p);
      assert hs == init + [last];
      var w, wo := WithPriority(init, p), WithoutPriority(init, p);
      if last.priority == p {
        assert WithPriority(hs, p) == w + [last];
        assert WithoutPriority(hs, p) == wo;
      } else {
        assert WithPriority(hs, p) == w;
        assert WithoutPriority(hs, p) == wo + [last];
      }
    }
  }

  /** Every hook is registered exactly once. */
  lemma {:induction false} ByPriorityPermutes(hs: seq<HookRecord>)
    ensures multiset(ByPriority(hs)) == multiset(hs)
    decreases |hs|
  {
    if hs != [] {
      var m := MinPriority(hs);
      MinGroupNonEmpty(hs);
      ByPriorityPermutes(WithoutPriority(hs, m));
      SplitPermutes(hs, m);
    }
  }

  predicate SortedByPriority(hs: seq<HookRecord>) {
    forall i, j :: 0 <= i < j < |hs| ==> hs[i].priority <= hs[j].priority
  }

  /** Every hook of a group has the group's priority. */
  lemma GroupPriority(hs: seq<HookRecord>, p: int)
    ensures forall i :: 0 <= i < |WithPriority(hs, p)| ==> WithPriority(hs, p)[i].priority == p
  {
    var a := WithPriority(hs, p);
    SplitMembers(hs, p);
    forall i | 0 <= i < |a| ensures a[i].priority == p {
      assert a[i] in a;
    }
  }

  /** What is registered after the first group has priorities above it. */
  lemma LaterGroupsAbove(hs: seq<HookRecord>)
    requires hs != []
    ensures var m := MinPriority(hs);
      forall j :: 0 <= j < |ByPriority(WithoutPriority(hs, m))| ==> ByPriority(WithoutPriority(hs, m))[j].priority > m
  {
    var m := MinPriority(hs);
    var rest := WithoutPriority(hs, m);
    var b := ByPriority(rest);
    MinGroupNonEmpty(hs);
    ByPriorityPermutes(rest);
    SplitMembers(hs, m);
    forall j | 0 <= j < |b| ensures b[j].priority > m {
      assert b[j] in multiset(b);
      assert b[j] in rest;
      var k :| 0 <= k < |hs| && hs[k] == b[j];
    }
  }

  lemma SortedJoin(a: seq<HookRecord>, b: seq<HookRecord>, m: int)
    requires forall i :: 0 <= i < |a| ==> a[i].priority == m
    requires forall j :: 0 <= j < |b| ==> b[j].priority > m
    requires SortedByPriority(b)
    ensures SortedByPriority(a + b)
  {
  }

  /** Hooks are registered in ascending priority. */
  lemma {:induction false} ByPrioritySorted(hs: seq<HookRecord>)
    ensures SortedByPriority(ByPriority(hs))
    decreases |hs|
  {
    if hs != [] {
      var m := MinPriority(hs);
      MinGroupNonEmpty(hs);
      var rest := WithoutPriority(hs, m);
      ByPrioritySorted(rest);
      GroupPriority(hs, m);
      LaterGroupsAbove(hs);
      SortedJoin(WithPriority(hs, m), ByPriority(rest), m);
    }
  }

  lemma {:induction false} WithPriorityConcat(a: seq<HookRecord>, b: seq<HookRecord>, p: int)
    ensures WithPriority(a + b, p) == WithPriority(a, p) + WithPriority(b, p)
    decreases |b|
  {
    if b == [] {
      assert a + b == a;
    } else {
      assert (a + b)[..|a + b| - 1] == a + b[..|b| - 1];
      WithPriorityConcat(a, b[..|b| - 1], p);
    }
  }

  lemma {:induction false} WithPriorityAll(hs: seq<HookRecord>, p: int)
    requires forall i :: 0 <= i < |hs| ==> hs[i].priority == p
    ensures WithPriority(hs, p) == hs
    decreases |hs|
  {
    if hs != [] {
      WithPriorityAll(hs[..|hs| - 1], p);
      assert hs[..|hs| - 1] + [hs[|hs| - 1]] == hs;
    }
  }

  lemma {:induction false} WithPriorityNone(hs: seq<HookRecord>, p: int)
    requires forall i :: 0 <= i < |hs| ==> hs[i].priority != p
    ensures WithPriority(hs, p) == []
    decreases |hs|
  {
    if hs != [] {
      WithPriorityNone(hs[..|hs| - 1], p);
    }
  }

  /** Filtering out one priority does not disturb the group of another. */
  lemma {:induction false} WithPriorityOfRest(hs: seq<HookRecord>, m: int, p: int)
    requires p != m
    ensures WithPriority(WithoutPriority(hs, m), p) == WithPriority(hs, p)
    decreases |hs|
  {
    if hs != [] {
      var init, last := hs[..|hs| - 1], hs[|hs| - 1];
      WithPriorityOfRest(init, m, p);
      assert WithPriority(hs, p) == WithPriority(init, p) + (if last.priority == p then [last] else []);
      assert WithoutPriority(hs, m) == WithoutPriority(init, m) + (if last.priority != m then [last] else []);
      if last.priority != m {
        WithPriorityConcat(WithoutPriority(init, m), [last], p);
        assert WithPriority([last], p) == WithPriority([], p) + (if last.priority == p then [last] else []);
      } else {
        assert WithoutPriority(hs, m) == WithoutPriority(init, m);
      }
    }
  }

  /** Hooks of equal priority are registered in the order they were
      collected. */
  lemma {:induction false} ByPriorityStable(hs: seq<HookRecord>, p: int)
    ensures WithPriority(ByPriority(hs), p) == WithPriority(hs, p)
    decreases |hs|
  {
    if hs != [] {
      var m := MinPriority(hs);
      MinGroupNonEmpty(hs);
      var a, rest := WithPriority(hs, m), WithoutPriority(hs, m);
      var b := ByPriority(rest);
      assert ByPriority(hs) == a + b;
      WithPriorityConcat(a, b, p);
      GroupPriority(hs, m);
      if p == m {
        WithPriorityAll(a, m);
        LaterGroupsAbove(hs);
        WithPriorityNone(b, m);
      } else {
        WithPriorityNone(a, p);
        ByPriorityStable(rest, p);
        WithPriorityOfRest(hs, m, p);
      }
    }
  }

  /** The registration for one record, if its class is known to the
      container: `add_action` for type `action`, `add_filter` otherwise. */
  function RegistrationFor(h: HookRecord, c: Container): (r: Option<Registration>)
    reads c
    ensures r.None? <==> !c.Knows(h.className)
    ensures r.Some? ==> (r.value.AddAction? <==> h.hookType == "action")
    ensures r.Some? ==> (r.value.hook == h.hook && r.value.methodName == h.methodName &&
      r.value.priority == h.priority && r.value.acceptedArgs == h.acceptedArgs)
  {
    if !c.Knows(h.className) then None
    else
      var service := if h.className in c.aliases then c.aliases[h.className] else h.className;
      if h.hookType == "action" then Some(AddAction(h.hook, service, h.methodName, h.priority, h.acceptedArgs))
      else Some(AddFilter(h.hook, service, h.methodName, h.priority, h.acceptedArgs))
  }

  /** The registrations for a list of records, in order. */
  function Registrations(hs: seq<HookRecord>, c: Container): (r: seq<Registration>)
    reads c
    ensures |r| <= |hs|
  {
    if hs == [] then []
    else
      var last := RegistrationFor(hs[|hs| - 1], c);
      Registrations(hs[..|hs| - 1], c) + (if last.Some? then [last.value] else [])
  }

  lemma {:induction false} RegistrationsConcat(a: seq<HookRecord>, b: seq<HookRecord>, c: Container)
    ensures Registrations(a + b, c) == Registrations(a, c) + Registrations(b, c)
    decreases |b|
  {
    if b == [] {
      assert a + b == a;
    } else {
      assert (a + b)[..|a + b| - 1] == a + b[..|b| - 1];
      RegistrationsConcat(a, b[..|b| - 1], c);
    }
  }

  /** `grouped` holds, for each priority present in `rest`, the hooks of
      that priority in order, and nothing else. */
  ghost predicate GroupsOf(grouped: map<int, seq<HookRecord>>, rest: seq<HookRecord>) {
    && (forall q :: q in grouped <==> WithPriority(rest, q) != [])
    && (forall q :: q in grouped ==> grouped[q] == WithPriority(rest, q))
  }

  /** The first loop of `registerHooks`: `$groupedHooks[$priority][] = $hook`. */
  method GroupByPriority(hooks: seq<HookRecord>) returns (grouped: map<int, seq<HookRecord>>)
    ensures forall q :: q in grouped <==> WithPriority(hooks, q) != []
    ensures forall q :: q in grouped ==> grouped[q] == WithPriority(hooks, q)
  {
    grouped := map[];
    var i := 0;
    while i < |hooks|
      invariant 0 <= i <= |hooks|
      invariant forall q :: q in grouped <==> WithPriority(hooks[..i], q) != []
      invariant forall q :: q in grouped ==> grouped[q] == WithPriority(hooks[..i], q)
    {
      var h := hooks[i];
      assert hooks[..i + 1][..i] == hooks[..i];
      grouped := grouped[h.priority := (if h.priority in grouped then grouped[h.priority] else []) + [h]];
      i := i + 1;
    }
    assert hooks[..i] == hooks;
  }

  /** `ksort`: the smallest key left. */
  method SmallestKey(grouped: map<int, seq<HookRecord>>) returns (p: int)
    requires grouped != map[]
    ensures p in grouped && forall q :: q in grouped ==> p <= q
  {
    ghost var m := MinimumOf(grouped.Keys);
    p :| p in grouped && forall q :: q in grouped ==> p <= q;
  }

  /** The smallest key of the groups is the smallest priority of the hooks
      not yet registered, and its group comes first. */
  lemma SmallestKeyIsMin(rest: seq<HookRecord>, grouped: map<int, seq<HookRecord>>, p: int)
    requires GroupsOf(grouped, rest)
    requires p in grouped && forall q :: q in grouped ==> p <= q
    ensures rest != [] && p == MinPriority(rest)
  {
    SplitMembers(rest, p);
    assert WithPriority(rest, p)[0] in WithPriority(rest, p);
    var m := MinPriority(rest);
    MinGroupNonEmpty(rest);
    var i :| 0 <= i < |rest| && rest[i] == WithPriority(rest, p)[0];
  }

  /** After a group is registered the remaining groups are those of the
      remaining hooks. */
  lemma GroupsOfRest(rest: seq<HookRecord>, grouped: map<int, seq<HookRecord>>, p: int)
    requires GroupsOf(grouped, rest)
    ensures GroupsOf(map q | q in grouped && q != p :: grouped[q], WithoutPriority(rest, p))
  {
    forall q | q != p
      ensures WithPriority(WithoutPriority(rest, p), q) == WithPriority(rest, q)
    {
      WithPriorityOfRest(rest, p, q);
    }
    SplitMembers(rest, p);
    var wo := WithoutPriority(rest, p);
    assert forall i :: 0 <= i < |wo| ==> wo[i].priority != p by {
      forall i | 0 <= i < |wo| ensures wo[i].priority != p {
        assert wo[i] in wo;
      }
    }
    WithPriorityNone(wo, p);
  }

  /** The loop of `apply`: the records of the complete items, in order. */
  method RecordsOf(items: seq<HookItem>) returns (built: seq<HookRecord>)
    ensures built == Records(items)
  {
    built := [];
    var i := 0;
    while i < |items|
      invariant 0 <= i <= |items|
      invariant built == Records(items[..i])
    {
      var x := items[i];
      RecordsSnoc(items[..i], x);
      assert items[..i + 1] == items[..i] + [x];
      if Complete(x) {
        built := built + [RecordOf(x)];
      }
      i := i + 1;
    }
    assert items[..i] == items;
  }

  /** Once every group is registered no hook is left. */
  lemma NoGroupsNoHooks(grouped: map<int, seq<HookRecord>>, rest: seq<HookRecord>)
    requires GroupsOf(grouped, rest)
    ensures rest != [] ==> rest[0].priority in grouped
  {
    if rest != [] {
      SplitMembers(rest, rest[0].priority);
      assert rest[0] in WithPriority(rest, rest[0].priority);
    }
  }

  /** One round of the registration loop: the smallest key's group is
      the next slice of `ByPriority(hooks)`, and the other keys group the
      hooks left. */
  lemma GroupStep(hooks: seq<HookRecord>, rest: seq<HookRecord>, grouped: map<int, seq<HookRecord>>, p: int,
                  visited: seq<HookRecord>)
    requires GroupsOf(grouped, rest)
    requires p in grouped && forall q :: q in grouped ==> p <= q
    requires visited + ByPriority(rest) == ByPriority(hooks)
    ensures GroupsOf(map q | q in grouped && q != p :: grouped[q], WithoutPriority(rest, p))
    ensures (visited + grouped[p]) + ByPriority(WithoutPriority(rest, p)) == ByPriority(hooks)
    ensures |WithoutPriority(rest, p)| < |rest|
  {
    SmallestKeyIsMin(rest, grouped, p);
    MinGroupNonEmpty(rest);
    GroupsOfRest(rest, grouped, p);
    assert ByPriority(rest) == grouped[p] + ByPriority(WithoutPriority(rest, p));
    ConcatAssoc(visited, grouped[p], ByPriority(WithoutPriority(rest, p)));
  }

  lemma RegisteredStep(start: seq<Registration>, visited: seq<HookRecord>, group: seq<HookRecord>, c: Container)
    ensures start + Registrations(visited, c) + Registrations(group, c) == start + Registrations(visited + group, c)
  {
    RegistrationsConcat(visited, group, c);
    ConcatAssoc(start, Registrations(visited, c), Registrations(group, c));
  }

  class HookDiscovery {
    const container: Container
    var discoveryItems: DiscoveryItems<HookItem>
    var hooks: seq<HookRecord>
    /** The `add_action`/`add_filter` calls made so far. */
    var registered: seq<Registration>

    constructor (c: Container)
      ensures container == c && fresh(discoveryItems) && discoveryItems.Valid()
      ensures discoveryItems.added == [] && hooks == [] && registered == []
    {
      container := c;
      discoveryItems := new DiscoveryItems();
      hooks := [];
      registered := [];
    }

    /** `discover($location, $class)`. */
    method Discover(loc: DiscoveryLocation, c: ClassInfo)
      requires discoveryItems.Valid()
      modifies discoveryItems
      ensures discoveryItems.Valid()
      ensures discoveryItems.added == old(discoveryItems.added) + DiscoveredHooks(c.name, KeptMethods(c.name, c.methods))
    {
      var methods := GetPublicMethods(c);
      ghost var start := discoveryItems.added;
      var i := 0;
      while i < |methods|
        invariant 0 <= i <= |methods|
        invariant discoveryItems.Valid()
        invariant discoveryItems.added == start + DiscoveredHooks(c.name, methods[..i])
      {
        DiscoverMethod(loc, c.name, methods[i]);
        DiscoveredHooksSnoc(c.name, methods, i);
        ConcatAssoc(start, DiscoveredHooks(c.name, methods[..i]), DiscoveredHooks(c.name, [methods[i]]));
        i := i + 1;
      }
      assert methods[..i] == methods;
    }

    /** One round of `discover`'s loop: a method with a Hook attribute adds
        its item, any other method is skipped with `continue`. */
    method DiscoverMethod(loc: DiscoveryLocation, className: string, m: MethodInfo)
      requires discoveryItems.Valid()
      modifies discoveryItems
      ensures discoveryItems.Valid()
      ensures discoveryItems.added == old(discoveryItems.added) + DiscoveredHooks(className, [m])
    {
      assert [m][..0] == [];
      var hookAttribute := GetAttribute(m.hooks);
      if hookAttribute.None? {
        return;
      }
      discoveryItems.Add(loc, ItemFor(className, m, hookAttribute.value));
    }

    /** `apply()`: the complete items become hook records, in iteration
        order. */
    method Apply()
      requires discoveryItems.Valid()
      modifies this
      ensures discoveryItems == old(discoveryItems) && registered == old(registered) && discoveryItems.Valid()
      ensures hooks == old(hooks) + Records(Flatten(discoveryItems.order, discoveryItems.items))
    {
      var items := discoveryItems.All();
      var built := RecordsOf(items);
      hooks := hooks + built;
    }

    /** `registerHookFromData($data)`. */
    method RegisterHookFromData(h: HookRecord, wpdb: Value)
      modifies this, container
      ensures container.compiled
      ensures container.definitions == old(container.definitions)
              && container.aliases == CompiledAliases(old(container.compiled), container.compiled, old(container.aliases))
      ensures old(container.compiled) ==> unchanged(container)
      ensures hooks == old(hooks) && discoveryItems == old(discoveryItems)
      ensures registered == old(registered) + Registrations([h], container)
    {
      var known := container.Has(h.className, wpdb);
      if !known {
        return;
      }
      var instance := container.Get(h.className, wpdb);
      if h.hookType == "action" {
        registered := registered + [AddAction(h.hook, instance.value, h.methodName, h.priority, h.acceptedArgs)];
      } else {
        registered := registered + [AddFilter(h.hook, instance.value, h.methodName, h.priority, h.acceptedArgs)];
      }
    }

    /** The inner `foreach ($groupedHook as $hook)` loop. */
    method RegisterGroup(group: seq<HookRecord>, wpdb: Value)
      modifies this, container
      ensures hooks == old(hooks) && discoveryItems == old(discoveryItems)
      ensures container.definitions == old(container.definitions)
              && container.aliases == CompiledAliases(old(container.compiled), container.compiled, old(container.aliases))
      ensures old(container.compiled) ==> unchanged(container)
      ensures group != [] ==> container.compiled
      ensures registered == old(registered) + Registrations(group, container)
    {
      var j := 0;
      while j < |group|
        invariant 0 <= j <= |group|
        invariant hooks == old(hooks) && discoveryItems == old(discoveryItems)
        invariant container.definitions == old(container.definitions)
                  && container.aliases == CompiledAliases(old(container.compiled), container.compiled, old(container.aliases))
        invariant old(container.compiled) ==> unchanged(container)
        invariant j > 0 ==> container.compiled
        invariant registered == old(registered) + Registrations(group[..j], container)
      {
        ghost var done := Registrations(group[..j], container);
        RegisterHookFromData(group[j], wpdb);
        assert Registrations(group[..j], container) == done;
        assert group[..j + 1] == group[..j] + [group[j]];
        RegistrationsConcat(group[..j], [group[j]], container);
        j := j + 1;
      }
      assert group[..j] == group;
    }

    /** One round of `registerHooks`' outer loop: the group of the smallest
        priority left is registered after what was registered before. */
    method RegisterSmallest(grouped: map<int, seq<HookRecord>>, ghost visited: seq<HookRecord>,
                            ghost start: seq<Registration>, wpdb: Value) returns (p: int)
      requires grouped != map[]
      requires visited != [] ==> container.compiled
      requires registered == start + Registrations(visited, container)
      modifies this, container
      ensures p in grouped && forall q :: q in grouped ==> p <= q
      ensures hooks == old(hooks) && discoveryItems == old(discoveryItems)
      ensures container.definitions == old(container.definitions)
              && container.aliases == CompiledAliases(old(container.compiled), container.compiled, old(container.aliases))
      ensures visited + grouped[p] != [] ==> container.compiled
      ensures old(container.compiled) ==> container.compiled
      ensures registered == start + Registrations(visited + grouped[p], container)
    {
      p := SmallestKey(grouped);
      var group := grouped[p];
      ghost var done := Registrations(visited, container);
      RegisterGroup(group, wpdb);
      assert Registrations(visited, container) == done;
      RegisteredStep(start, visited, group, container);
    }

    /** `registerHooks()`: group by priority, `ksort`, register group by
        group. */
    method RegisterHooks(wpdb: Value)
      modifies this, container
      ensures hooks == old(hooks) && discoveryItems == old(discoveryItems)
      ensures container.definitions == old(container.definitions)
              && container.aliases == CompiledAliases(old(container.compiled), container.compiled, old(container.aliases))
      ensures registered == old(registered) + Registrations(ByPriority(hooks), container)
    {
      var grouped := GroupByPriority(hooks);
      ghost var rest := hooks;
      ghost var visited: seq<HookRecord> := [];
      ghost var start := registered;
      while grouped != map[]
        invariant GroupsOf(grouped, rest)
        invariant visited + ByPriority(rest) == ByPriority(hooks)
        invariant hooks == old(hooks) && discoveryItems == old(discoveryItems)
        invariant container.definitions == old(container.definitions)
                  && container.aliases == CompiledAliases(old(container.compiled), container.compiled, old(container.aliases))
        invariant visited != [] ==> container.compiled
        invariant old(container.compiled) ==> container.compiled
        invariant registered == start + Registrations(visited, container)
        decreases |rest|
      {
        var p := RegisterSmallest(grouped, visited, start, wpdb);
        GroupStep(hooks, rest, grouped, p, visited);
        visited := visited + grouped[p];
        rest := WithoutPriority(rest, p);
        grouped := map q | q in grouped && q != p :: grouped[q];
      }
      NoGroupsNoHooks(grouped, rest);
      assert visited + ByPriority(rest) == visited;
    }
  }
}
