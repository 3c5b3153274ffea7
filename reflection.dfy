/** What reflection tells the discoveries about a class: its attributes
    (with the constructor defaults of the attribute classes) and its public
    methods, and `ClassReflector`'s filtering of them. */
module Reflection {
  import opened Php
  import opened Env

  /** `#[Hook(name, type: 'filter', priority: 10, accepted_args: 1)]`. */
  datatype HookAttr = HookAttr(name: string, hookType: string, priority: int, acceptedArgs: int)

  function DefaultHook(name: string): HookAttr {
    HookAttr(name, "filter", 10, 1)
  }

  /** The `methods` argument of a route: one verb or a list. */
  datatype Verbs = OneVerb(verb: string) | VerbList(verbs: seq<string>)

  /** `#[Route(path, methods: 'GET', name: null, middleware: [],
      permission_callback: null, args: [])]`. */
  datatype RouteAttr = RouteAttr(path: string, methods: Verbs, name: Option<string>, middleware: seq<string>,
                                 permissionCallback: Option<string>, args: Value)

  function DefaultRoute(path: string): RouteAttr {
    RouteAttr(path, OneVerb("GET"), None, [], None, List([]))
  }

  /** `#[Command(name: null, description: null, aliases: [], synopsis: null,
      when: 'after_wp_load')]`. */
  datatype CommandAttr = CommandAttr(name: Option<string>, description: Option<string>, aliases: seq<string>,
                                     synopsis: Option<string>, when: Option<string>)

  function DefaultCommand(): CommandAttr {
    CommandAttr(None, None, [], None, Some("after_wp_load"))
  }

  /** `#[Controller(namespace: 'picowind/v1', prefix: '', middleware: [])]`. */
  datatype ControllerAttr = ControllerAttr(namespace: string, prefix: string, middleware: seq<string>)

  function DefaultController(): ControllerAttr {
    ControllerAttr("picowind/v1", "", [])
  }

  /** `#[Service(id: null, singleton: true, tags: [], alias: null, public: false)]`. */
  datatype ServiceAttr = ServiceAttr(id: Option<string>, singleton: bool, tags: seq<string>, alias: Option<string>, isPublic: bool)

  function DefaultService(): ServiceAttr {
    ServiceAttr(None, true, [], None, false)
  }

  /** A public method as `getMethods(IS_PUBLIC)` reports it, with the
      attributes it carries in declaration order. */
  datatype MethodInfo = MethodInfo(name: string, declaringClass: string,
                                   hooks: seq<HookAttr>, commands: seq<CommandAttr>, routes: seq<RouteAttr>)

  /** A class as reflection reports it: its name, its class-level attributes
      and its public methods in reflection order. */
  datatype ClassInfo = ClassInfo(name: string, services: seq<ServiceAttr>, commands: seq<CommandAttr>,
                                 controllers: seq<ControllerAttr>, methods: seq<MethodInfo>)

  /** `getAttribute($class)`: a new instance of the first attribute of that
      class, or null. */
  function GetAttribute<A>(attrs: seq<A>): (r: Option<A>)
    ensures r.None? <==> attrs == []
    ensures r.Some? ==> r.value == attrs[0]
  {
    if attrs == [] then None else Some(attrs[0])
  }

  /** A magic method other than `__invoke`. */
  predicate IsMagic(name: string) {
    StartsWith(name, "__") && name != "__invoke"
  }

  /** The filter of `getPublicMethods`: no magic method except `__invoke`,
      nothing declared in another class. */
  predicate Kept(className: string, m: MethodInfo) {
    !IsMagic(m.name) && m.declaringClass == className
  }

  /** The methods that survive the filter, in reflection order. */
  function KeptMethods(className: string, ms: seq<MethodInfo>): (r: seq<MethodInfo>)
    ensures |r| <= |ms|
    ensures forall m :: m in r <==> m in ms && Kept(className, m)
  {
    if ms == [] then []
    else (if Kept(className, ms[0]) then [ms[0]] else []) + KeptMethods(className, ms[1..])
  }

  /** Filtering commutes with concatenation: the surviving methods keep the
      relative order they had. */
  lemma {:induction false} KeptMethodsConcat(className: string, a: seq<MethodInfo>, b: seq<MethodInfo>)
    ensures KeptMethods(className, a + b) == KeptMethods(className, a) + KeptMethods(className, b)
    decreases |a|
  {
    if a == [] {
      assert a + b == b;
    } else {
      assert (a + b)[1..] == a[1..] + b;
      KeptMethodsConcat(className, a[1..], b);
    }
  }

  /** `getPublicMethods()`. */
  method GetPublicMethods(c: ClassInfo) returns (methods: seq<MethodInfo>)
    ensures methods == KeptMethods(c.name, c.methods)
  {
    methods := [];
    var i := 0;
    while i < |c.methods|
      invariant 0 <= i <= |c.methods|
      invariant methods == KeptMethods(c.name, c.methods[..i])
    {
      var m := c.methods[i];
      KeptMethodsConcat(c.name, c.methods[..i], [m]);
      assert c.methods[..i + 1] == c.methods[..i] + [m];
      if IsMagic(m.name) {
        i := i + 1;
        continue;
      }
      if m.declaringClass != c.name {
        i := i + 1;
        continue;
      }
      methods := methods + [m];
      i := i + 1;
    }
    assert c.methods[..|c.methods|] == c.methods;
  }
}
