/** `ServiceDiscovery`: every class carrying `#[Service]` becomes a
    definition of the container, configured from the attribute, with its
    alias and a class-name alias when the id differs from the class. */
module Services {
  import opened Php
  import opened Env
  import opened Locations
  import opened Reflection
  import opened Items
  import opened Containers
  import opened Exceptions

  /** A discovered service; restored cache entries that are not arrays are
      `NotArray`. */
  datatype ServiceItem =
    | ServiceData(className: string, serviceId: string, singleton: bool, isPublic: bool,
                  tags: seq<string>, alias: Option<string>)
    | NotArray

  /** The item `discover` adds for a class with a Service attribute (its
      first): the id defaults to the class name. */
  function DiscoveredServices(c: ClassInfo): (r: seq<ServiceItem>)
    ensures |r| <= 1 && (r == [] <==> c.services == [])
    ensures r != [] ==> r[0].ServiceData? && r[0].className == c.name
    ensures r != [] ==> r[0].serviceId == if c.services[0].id.Some? then c.services[0].id.value else c.name
  {
    match GetAttribute(c.services)
    case None => []
    case Some(a) =>
      [ServiceData(c.name, if a.id.Some? then a.id.value else c.name, a.singleton, a.isPublic, a.tags, a.alias)]
  }

  /** `if ($data['alias'])`: a null or falsy alias is skipped. */
  predicate HasAlias(item: ServiceItem)
    requires item.ServiceData?
  {
    item.alias.Some? && Truthy(item.alias.value)
  }

  /** The aliases after one registration: the attribute's alias, then the
      class name, both pointing at the service id. */
  function AliasesAfter(aliases: map<string, string>, item: ServiceItem): (r: map<string, string>)
    requires item.ServiceData?
    ensures HasAlias(item) && item.alias.value != item.className ==>
      item.alias.value in r && r[item.alias.value] == item.serviceId
    ensures item.serviceId != item.className ==> item.className in r && r[item.className] == item.serviceId
    ensures forall a :: a in aliases && a != item.className && !(HasAlias(item) && a == item.alias.value) ==>
      a in r && r[a] == aliases[a]
    ensures r.Keys <= aliases.Keys + {item.className} + (if HasAlias(item) then {item.alias.value} else {})
  {
    var withAlias := if HasAlias(item) then aliases[item.alias.value := item.serviceId] else aliases;
    if item.serviceId != item.className then withAlias[item.className := item.serviceId] else withAlias
  }

  /** A service registered under an id other than its class is reached
      through its class name as well: one alias step leads to the id. */
  lemma ClassNameResolves(aliases: map<string, string>, item: ServiceItem)
    requires item.ServiceData? && item.serviceId != item.className
    ensures item.className in AliasesAfter(aliases, item)
    ensures AliasesAfter(aliases, item)[item.className] == item.serviceId
  {
  }

  /** The aliases after registering a list of items in order. */
  function AliasesAfterAll(aliases: map<string, string>, items: seq<ServiceItem>): map<string, string>
    requires forall k :: 0 <= k < |items| ==> items[k].ServiceData?
  {
    if items == [] then aliases
    else AliasesAfter(AliasesAfterAll(aliases, items[..|items| - 1]), items[|items| - 1])
  }

  /** An alias that no item names, neither as its class nor as its
      alias, survives registering the items. */
  lemma {:induction false} AliasesUntouched(aliases: map<string, string>, items: seq<ServiceItem>, a: string)
    requires forall k :: 0 <= k < |items| ==> items[k].ServiceData?
    requires forall k :: 0 <= k < |items| ==>
      items[k].className != a && !(HasAlias(items[k]) && items[k].alias.value == a)
    requires a in aliases
    ensures a in AliasesAfterAll(aliases, items) && AliasesAfterAll(aliases, items)[a] == aliases[a]
  {
    if items != [] {
      AliasesUntouched(aliases, items[..|items| - 1], a);
    }
  }

  /** The ids defined by a list of items. */
  function ServiceIds(items: seq<ServiceItem>): (r: set<string>)
    requires forall k :: 0 <= k < |items| ==> items[k].ServiceData?
    ensures forall k :: 0 <= k < |items| ==> items[k].serviceId in r
  {
    if items == [] then {}
    else ServiceIds(items[..|items| - 1]) + {items[|items| - 1].serviceId}
  }

  /** What reflection and PHP report about classes: whether a class exists
      and implements `LoggerAwareInterface`. */
  datatype Classes = Classes(loggerAware: string -> bool)

  /** The state of a definition once `registerServiceFromData` has
      configured it: autowired, autoconfigured and public whatever the
      attribute says, shared exactly for singletons, the attribute's tags in
      order, and a `setLogger` call for logger-aware classes. */
  predicate Configured(d: Definition, item: ServiceItem, cls: Classes)
    requires item.ServiceData?
    reads d
  {
    d.className == item.className && d.autowired && d.autoconfigured && d.isPublic && !d.synthetic
    && d.shared == item.singleton && d.tags == item.tags
    && d.methodCalls == (if cls.loggerAware(item.className) then ["setLogger"] else [])
  }

  /** The array items of a list, in order. */
  function Arrays(xs: seq<ServiceItem>): (r: seq<ServiceItem>)
    ensures |r| <= |xs|
    ensures forall k :: 0 <= k < |r| ==> r[k].ServiceData?
  {
    if xs == [] then []
    else Arrays(xs[..|xs| - 1]) + (if xs[|xs| - 1].ServiceData? then [xs[|xs| - 1]] else [])
  }

  class ServiceDiscovery {
    const container: Container
    var discoveryItems: DiscoveryItems<ServiceItem>

    constructor (c: Container)
      ensures container == c && fresh(discoveryItems) && discoveryItems.Valid()
      ensures discoveryItems.added == []
    {
      container := c;
      discoveryItems := new DiscoveryItems();
    }

    /** `discover($location, $class)`. */
    method Discover(loc: DiscoveryLocation, c: ClassInfo)
      requires discoveryItems.Valid()
      modifies discoveryItems
      ensures discoveryItems.Valid()
      ensures discoveryItems.added == old(discoveryItems.added) + DiscoveredServices(c)
    {
      var serviceAttribute := GetAttribute(c.services);
      if serviceAttribute.None? {
        return;
      }
      var a := serviceAttribute.value;
      discoveryItems.Add(loc, ServiceData(c.name, if a.id.Some? then a.id.value else c.name,
                                          a.singleton, a.isPublic, a.tags, a.alias));
    }

    /** `registerServiceFromData($data)`: on a compiled container `register`
        throws and nothing changes; otherwise the definition is configured
        and the aliases are set. */
    method RegisterServiceFromData(item: ServiceItem, cls: Classes) returns (err: Option<Exception>)
      requires item.ServiceData?
      modifies container
      ensures container.compiled == old(container.compiled)
      ensures container.parameters == old(container.parameters) && container.services == old(container.services)
      ensures old(container.compiled) ==> err == Some(NewRuntime(RegisterAfterCompile))
      ensures old(container.compiled) ==> container.definitions == old(container.definitions)
      ensures old(container.compiled) ==> container.aliases == old(container.aliases)
      ensures !old(container.compiled) ==> err.None?
      ensures !old(container.compiled) ==> container.aliases == AliasesAfter(old(container.aliases), item)
      ensures !old(container.compiled) ==>
        container.definitions.Keys == old(container.definitions).Keys + {item.serviceId}
      ensures !old(container.compiled) ==>
        forall id :: id in old(container.definitions) && id != item.serviceId ==>
          container.definitions[id] == old(container.definitions)[id]
      ensures !old(container.compiled) ==>
        fresh(container.definitions[item.serviceId]) && Configured(container.definitions[item.serviceId], item, cls)
    {
      var registered := container.Register(item.serviceId, item.className);
      if registered.Err? {
        return Some(registered.error);
      }
      var definition := registered.value;
      ConfigureDefinition(definition, item);
      if HasAlias(item) {
        var _ := container.Alias(item.alias.value, item.serviceId);
      }
      if item.serviceId != item.className {
        var _ := container.Alias(item.className, item.serviceId);
      }
      if cls.loggerAware(item.className) {
        definition.AddMethodCall("setLogger");
      }
      err := None;
    }

    /** `apply()`: every array item is registered, in iteration order; an
        exception ends the loop and leaves `apply`. */
    method Apply(cls: Classes) returns (err: Option<Exception>)
      requires discoveryItems.Valid()
      modifies container
      ensures container.compiled == old(container.compiled)
      ensures var data := Arrays(Flatten(discoveryItems.order, discoveryItems.items));
        old(container.compiled) ==>
          (err.Some? <==> data != []) && container.definitions == old(container.definitions)
          && container.aliases == old(container.aliases)
      ensures var data := Arrays(Flatten(discoveryItems.order, discoveryItems.items));
        !old(container.compiled) ==>
          err.None? && container.aliases == AliasesAfterAll(old(container.aliases), data)
          && container.definitions.Keys == old(container.definitions).Keys + ServiceIds(data)
    {
      var items := discoveryItems.All();
      var data := KeepArrays(items);
      err := RegisterAll(data, cls);
    }

    /** The loop of `apply` over the array items. */
    method RegisterAll(data: seq<ServiceItem>, cls: Classes) returns (err: Option<Exception>)
      requires forall k :: 0 <= k < |data| ==> data[k].ServiceData?
      modifies container
      ensures container.compiled == old(container.compiled)
      ensures old(container.compiled) ==>
        (err.Some? <==> data != []) && container.definitions == old(container.definitions)
        && container.aliases == old(container.aliases)
      ensures !old(container.compiled) ==>
        err.None? && container.aliases == AliasesAfterAll(old(container.aliases), data)
        && container.definitions.Keys == old(container.definitions).Keys + ServiceIds(data)
    {
      ghost var aliases0, keys0 := container.aliases, container.definitions.Keys;
      var i := 0;
      while i < |data|
        invariant 0 <= i <= |data|
        invariant container.compiled == old(container.compiled)
        invariant old(container.compiled) ==> i == 0
        invariant old(container.compiled) ==>
          container.definitions == old(container.definitions) && container.aliases == old(container.aliases)
        invariant !old(container.compiled) ==>
          container.aliases == AliasesAfterAll(aliases0, data[..i])
          && container.definitions.Keys == keys0 + ServiceIds(data[..i])
      {
        var e := RegisterNext(data, i, aliases0, keys0, cls);
        if e.Some? {
          return e;
        }
        i := i + 1;
      }
      assert data[..i] == data;
      err := None;
    }

    /** One round of `apply`'s loop. */
    method RegisterNext(data: seq<ServiceItem>, i: nat, ghost aliases0: map<string, string>, ghost keys0: set<string>,
                        cls: Classes) returns (err: Option<Exception>)
      requires forall k :: 0 <= k < |data| ==> data[k].ServiceData?
      requires i < |data|
      requires !container.compiled ==>
        container.aliases == AliasesAfterAll(aliases0, data[..i])
        && container.definitions.Keys == keys0 + ServiceIds(data[..i])
      modifies container
      ensures container.compiled == old(container.compiled)
      ensures err.Some? <==> old(container.compiled)
      ensures old(container.compiled) ==>
        container.definitions == old(container.definitions) && container.aliases == old(container.aliases)
      ensures !old(container.compiled) ==>
        container.aliases == AliasesAfterAll(aliases0, data[..i + 1])
        && container.definitions.Keys == keys0 + ServiceIds(data[..i + 1])
    {
      assert data[..i + 1][..i] == data[..i];
      err := RegisterServiceFromData(data[i], cls);
    }
  }

  /** The `setShared`, `setPublic` and `addTag` calls on a definition
      fresh from `register`. */
  method ConfigureDefinition(definition: Definition, item: ServiceItem)
    requires item.ServiceData?
    requires definition.autowired && definition.autoconfigured && definition.isPublic
    requires definition.shared && !definition.synthetic && definition.tags == [] && definition.methodCalls == []
    modifies definition
    ensures definition.className == old(definition.className)
    ensures definition.autowired && definition.autoconfigured && definition.isPublic && !definition.synthetic
    ensures definition.shared == item.singleton && definition.tags == item.tags && definition.methodCalls == []
  {
    if !item.singleton {
      definition.SetShared(false);
    }
    if item.isPublic {
      definition.SetPublic(true);
    }
    var k := 0;
    while k < |item.tags|
      invariant 0 <= k <= |item.tags|
      invariant definition.tags == item.tags[..k]
      invariant definition.className == old(definition.className) && definition.shared == item.singleton
      invariant definition.autowired && definition.autoconfigured && definition.isPublic
      invariant !definition.synthetic && definition.methodCalls == []
    {
      assert item.tags[..k + 1] == item.tags[..k] + [item.tags[k]];
      definition.AddTag(item.tags[k]);
      k := k + 1;
    }
    assert item.tags[..k] == item.tags;
  }

  /** The `is_array` filter of `apply`. */
  method KeepArrays(items: seq<ServiceItem>) returns (kept: seq<ServiceItem>)
    ensures kept == Arrays(items)
  {
    kept := [];
    var i := 0;
    while i < |items|
      invariant 0 <= i <= |items|
      invariant kept == Arrays(items[..i])
    {
      assert items[..i + 1][..i] == items[..i];
      if items[i].ServiceData? {
        kept := kept + [items[i]];
      }
      i := i + 1;
    }
    assert items[..i] == items;
  }
}
