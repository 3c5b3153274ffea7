/** `ControllerDiscovery`: collects `#[Controller]` classes with their
    `#[Route]` methods, turns them into REST routes (prefix before path,
    controller middleware before route middleware), and decides who may call
    a route. */
module Controllers {
  import opened Php
  import opened Env
  import opened Locations
  import opened Reflection
  import opened Items
  import opened Containers
  import opened Exceptions
  import opened Instantiation

  /** One `#[Route]` of a method, as `discover` records it. */
  datatype RouteData = RouteData(methodName: string, path: string, methods: Verbs, name: Option<string>,
                                 middleware: seq<string>, permissionCallback: Option<string>, args: Value)

  /** The item `discover` stores for a controller class. */
  datatype ControllerItem = ControllerItem(className: string, prefix: string, namespace: string,
                                           middleware: seq<string>, routes: seq<RouteData>)

  /** An entry of the `controllers` field. */
  datatype ControllerEntry = ControllerEntry(className: string, prefix: string, namespace: string, middleware: seq<string>)

  /** An entry of the `routes` field. */
  datatype Route = Route(namespace: string, path: string, methods: Verbs, controller: string, action: string,
                         name: Option<string>, middleware: seq<string>, permissionCallback: Option<string>, args: Value)

  // ---------------------------------------------------------------------
  // discover

  function RouteDataFor(m: MethodInfo, a: RouteAttr): RouteData {
    RouteData(m.name, a.path, a.methods, a.name, a.middleware, a.permissionCallback, a.args)
  }

  /** The route records of one method, in attribute order. */
  function MethodRoutes(m: MethodInfo): (r: seq<RouteData>)
    ensures |r| == |m.routes|
    ensures forall j :: 0 <= j < |r| ==> r[j] == RouteDataFor(m, m.routes[j])
  {
    seq(|m.routes|, j requires 0 <= j < |m.routes| => RouteDataFor(m, m.routes[j]))
  }

  /** The route records of a list of methods: method after method. */
  function RoutesOf(ms: seq<MethodInfo>): seq<RouteData> {
    if ms == [] then [] else RoutesOf(ms[..|ms| - 1]) + MethodRoutes(ms[|ms| - 1])
  }

  /** The number of Route attributes on a list of methods. */
  function RouteCount(ms: seq<MethodInfo>): nat {
    if ms == [] then 0 else RouteCount(ms[..|ms| - 1]) + |ms[|ms| - 1].routes|
  }

  /** Exactly one record per Route attribute. */
  lemma {:induction false} RoutesOfCount(ms: seq<MethodInfo>)
    ensures |RoutesOf(ms)| == RouteCount(ms)
    decreases |ms|
  {
    if ms != [] {
      RoutesOfCount(ms[..|ms| - 1]);
    }
  }

  /** Method order first: the records of earlier methods come before those
      of later ones. */
  lemma {:induction false} RoutesOfConcat(a: seq<MethodInfo>, b: seq<MethodInfo>)
    ensures RoutesOf(a + b) == RoutesOf(a) + RoutesOf(b)
    decreases |b|
  {
    if b == [] {
      assert a + b == a;
    } else {
      assert (a + b)[..|a + b| - 1] == a + b[..|b| - 1];
      RoutesOfConcat(a, b[..|b| - 1]);
      ConcatAssoc(RoutesOf(a), RoutesOf(b[..|b| - 1]), MethodRoutes(b[|b| - 1]));
    }
  }

  /** The items `discover` adds for a class: none without a Controller
      attribute, else one carrying the routes of its public methods. */
  function DiscoveredControllers(c: ClassInfo): (r: seq<ControllerItem>)
    ensures |r| <= 1
    ensures r == [] <==> c.controllers == []
  {
    match GetAttribute(c.controllers)
    case None => []
    case Some(a) => [ControllerItem(c.name, a.prefix, a.namespace, a.middleware, RoutesOf(KeptMethods(c.name, c.methods)))]
  }

  /** A bare `#[Controller]` serves under `picowind/v1` with no prefix and
      no middleware. */
  lemma BareControllerDefaults(c: ClassInfo)
    requires c.controllers == [DefaultController()]
    ensures var r := DiscoveredControllers(c);
      |r| == 1 && r[0].namespace == "picowind/v1" && r[0].prefix == "" && r[0].middleware == []
  {
  }

  // ---------------------------------------------------------------------
  // registerControllerFromData

  function EntryOf(item: ControllerItem): ControllerEntry {
    ControllerEntry(item.className, item.prefix, item.namespace, item.middleware)
  }

  function RouteOf(item: ControllerItem, d: RouteData): Route {
    Route(item.namespace, item.prefix + d.path, d.methods, item.className, d.methodName, d.name,
          item.middleware + d.middleware, d.permissionCallback, d.args)
  }

  /** The routes an item contributes, in the order of its route records. */
  function RoutesFor(item: ControllerItem): (r: seq<Route>)
    ensures |r| == |item.routes|
  {
    seq(|item.routes|, k requires 0 <= k < |item.routes| => RouteOf(item, item.routes[k]))
  }

  /** Each route is registered under the controller's namespace, at the
      prefix followed by the route's own path, for the controller's action,
      with the controller's middleware before the route's own. */
  lemma RouteAssembly(item: ControllerItem, k: nat)
    requires k < |item.routes|
    ensures var r := RoutesFor(item)[k];
      && r.namespace == item.namespace && r.controller == item.className
      && StartsWith(r.path, item.prefix) && r.path[|item.prefix|..] == item.routes[k].path
      && r.action == item.routes[k].methodName
      && r.middleware[..|item.middleware|] == item.middleware
      && r.middleware[|item.middleware|..] == item.routes[k].middleware
      && r.permissionCallback == item.routes[k].permissionCallback
  {
    var r := RoutesFor(item)[k];
    assert r.path[..|item.prefix|] == item.prefix;
  }

  /** The routes of a list of items, item after item. */
  function AllRoutes(items: seq<ControllerItem>): seq<Route> {
    if items == [] then [] else AllRoutes(items[..|items| - 1]) + RoutesFor(items[|items| - 1])
  }

  /** The `controllers` field after a list of items: one entry per class,
      a later item for the same class replacing the earlier one. */
  function ControllersAfter(m: map<string, ControllerEntry>, items: seq<ControllerItem>): map<string, ControllerEntry> {
    if items == [] then m
    else
      var last := items[|items| - 1];
      ControllersAfter(m, items[..|items| - 1])[last.className := EntryOf(last)]
  }

  /** Every class of the items has an entry, the one of its last item;
      classes not among the items keep what they had. */
  lemma {:induction false} ControllersAfterEntries(m: map<string, ControllerEntry>, items: seq<ControllerItem>)
    ensures forall k :: 0 <= k < |items| ==> items[k].className in ControllersAfter(m, items)
    ensures forall c :: c in m && (forall k :: 0 <= k < |items| ==> items[k].className != c) ==>
      c in ControllersAfter(m, items) && ControllersAfter(m, items)[c] == m[c]
    ensures items != [] ==> ControllersAfter(m, items)[items[|items| - 1].className] == EntryOf(items[|items| - 1])
    decreases |items|
  {
    if items != [] {
      ControllersAfterEntries(m, items[..|items| - 1]);
    }
  }

  // ---------------------------------------------------------------------
  // createPermissionCallback, applyMiddleware, createRouteCallback

  /** What the permission callback asks of WordPress. */
  datatype Wordpress = Wordpress(functionExists: string -> bool, callFunction: string -> bool,
                                 currentUserCan: string -> bool, loggedIn: bool)

  /** The closure `createPermissionCallback` returns, evaluated: an
      explicit (truthy) permission callback decides alone, called when it
      names a function and read as a capability otherwise; without one,
      `auth` middleware asks for a logged-in user, else `admin` middleware
      for `manage_options`, else anyone may call. */
  function Permission(route: Route, wp: Wordpress): bool {
    if route.permissionCallback.Some? && Truthy(route.permissionCallback.value) then
      var cb := route.permissionCallback.value;
      if wp.functionExists(cb) then wp.callFunction(cb) else wp.currentUserCan(cb)
    else if "auth" in route.middleware then wp.loggedIn
    else if "admin" in route.middleware then wp.currentUserCan("manage_options")
    else true
  }

  /** An explicit callback makes the middleware irrelevant. */
  lemma CallbackWins(route: Route, middleware: seq<string>, wp: Wordpress)
    requires route.permissionCallback.Some? && Truthy(route.permissionCallback.value)
    ensures Permission(route, wp) == Permission(route.(middleware := middleware), wp)
    ensures Permission(route, wp) == if wp.functionExists(route.permissionCallback.value)
                                     then wp.callFunction(route.permissionCallback.value)
                                     else wp.currentUserCan(route.permissionCallback.value)
  {
  }

  /** Without a callback, `auth` is checked before `admin`, and a route with
      neither is open to everyone. */
  lemma MiddlewarePermission(route: Route, wp: Wordpress)
    requires route.permissionCallback.None? || !Truthy(route.permissionCallback.value)
    ensures "auth" in route.middleware ==> Permission(route, wp) == wp.loggedIn
    ensures "auth" !in route.middleware && "admin" in route.middleware ==>
      Permission(route, wp) == wp.currentUserCan("manage_options")
    ensures "auth" !in route.middleware && "admin" !in route.middleware ==> Permission(route, wp)
  {
  }

  /** `applyMiddleware`: the handler is called with the request; the
      middleware list plays no part. */
  function ApplyMiddleware<Req, Resp>(middleware: seq<string>, request: Req, next: Req -> Resp): (r: Resp)
  {
    next(request)
  }

  lemma MiddlewareIgnored<Req, Resp>(m1: seq<string>, m2: seq<string>, request: Req, next: Req -> Resp)
    ensures ApplyMiddleware(m1, request, next) == ApplyMiddleware(m2, request, next) == next(request)
  {
  }

  /** The controller a route's callback dispatches to, once the container
      has compiled: the container's service when it knows the class, else a
      new instance. */
  function HandlerFor(c: Container, className: string, ctor: Option<seq<Param>>): (r: Result<Instance, Exception>)
    reads c
    ensures c.Knows(className) ==> r == Ok(FromContainer(Lookup(c, className).value))
    ensures !c.Knows(className) ==> r == Instantiated(c, className, ctor)
  {
    if c.Knows(className) then Ok(FromContainer(Lookup(c, className).value))
    else Instantiated(c, className, ctor)
  }

  /** The arguments `register_rest_route` receives for a route, the
      callbacks kept as the route they close over. */
  datatype RestRegistration = RestRegistration(namespace: string, path: string, methods: Verbs, args: Value, route: Route)

  /** What the `rest_api_init` action registers: one REST route per entry
      of `routes`, in order. */
  function RestRegistrations(routes: seq<Route>): (r: seq<RestRegistration>)
    ensures |r| == |routes|
    ensures forall k :: 0 <= k < |r| ==>
      (r[k].route == routes[k] && r[k].namespace == routes[k].namespace &&
       r[k].path == routes[k].path && r[k].methods == routes[k].methods && r[k].args == routes[k].args)
  {
    seq(|routes|, k requires 0 <= k < |routes| =>
      RestRegistration(routes[k].namespace, routes[k].path, routes[k].methods, routes[k].args, routes[k]))
  }

  // ---------------------------------------------------------------------
  // the discovery

  /** The nested loops of `discover`: every Route attribute of every
      method, method order first. */
  method CollectRoutes(methods: seq<MethodInfo>) returns (routes: seq<RouteData>)
    ensures routes == RoutesOf(methods)
  {
    routes := [];
    var i := 0;
    while i < |methods|
      invariant 0 <= i <= |methods|
      invariant routes == RoutesOf(methods[..i])
    {
      var m := methods[i];
      var own := MethodRoutesLoop(m);
      assert methods[..i + 1][..i] == methods[..i];
      routes := routes + own;
      i := i + 1;
    }
    assert methods[..i] == methods;
  }

  /** The inner loop: one record per Route attribute of a method. */
  method MethodRoutesLoop(m: MethodInfo) returns (own: seq<RouteData>)
    ensures own == MethodRoutes(m)
  {
    own := [];
    var j := 0;
    while j < |m.routes|
      invariant 0 <= j <= |m.routes|
      invariant own == MethodRoutes(m)[..j]
    {
      assert MethodRoutes(m)[..j + 1] == MethodRoutes(m)[..j] + [RouteDataFor(m, m.routes[j])];
      own := own + [RouteDataFor(m, m.routes[j])];
      j := j + 1;
    }
  }

  class ControllerDiscovery {
    const container: Container
    var discoveryItems: DiscoveryItems<ControllerItem>
    var controllers: map<string, ControllerEntry>
    var routes: seq<Route>
    /** Whether `registerRestRoutes` has hooked the route registration onto
        `rest_api_init`. */
    var restInitHooked: bool

    constructor (c: Container)
      ensures container == c && fresh(discoveryItems) && discoveryItems.Valid()
      ensures discoveryItems.added == [] && controllers == map[] && routes == [] && !restInitHooked
    {
      container := c;
      discoveryItems := new DiscoveryItems();
      controllers := map[];
      routes := [];
      restInitHooked := false;
    }

    /** `discover($location, $class)`. */
    method Discover(loc: DiscoveryLocation, c: ClassInfo)
      requires discoveryItems.Valid()
      modifies discoveryItems
      ensures discoveryItems.Valid()
      ensures discoveryItems.added == old(discoveryItems.added) + DiscoveredControllers(c)
    {
      var controllerAttribute := GetAttribute(c.controllers);
      if controllerAttribute.None? {
        return;
      }
      var methods := GetPublicMethods(c);
      var found := CollectRoutes(methods);
      var a := controllerAttribute.value;
      discoveryItems.Add(loc, ControllerItem(c.name, a.prefix, a.namespace, a.middleware, found));
    }

    /** The `foreach ($data['routes'] ...)` loop. */
    method AddRoutes(item: ControllerItem)
      modifies this
      ensures routes == old(routes) + RoutesFor(item)
      ensures controllers == old(controllers) && discoveryItems == old(discoveryItems)
      ensures restInitHooked == old(restInitHooked)
    {
      var k := 0;
      while k < |item.routes|
        invariant 0 <= k <= |item.routes|
        invariant routes == old(routes) + RoutesFor(item)[..k]
        invariant controllers == old(controllers) && discoveryItems == old(discoveryItems)
        invariant restInitHooked == old(restInitHooked)
      {
        assert RoutesFor(item)[..k + 1] == RoutesFor(item)[..k] + [RouteOf(item, item.routes[k])];
        ConcatAssoc(old(routes), RoutesFor(item)[..k], [RouteOf(item, item.routes[k])]);
        routes := routes + [RouteOf(item, item.routes[k])];
        k := k + 1;
      }
      assert RoutesFor(item)[..k] == RoutesFor(item);
    }

    /** `registerControllerFromData` as written: `has` compiles the
        container before `is_compiled` is asked, so the `register` call
        behind `! has(..) && ! is_compiled()` is never reached and the
        controller class is never registered. */
    method RegisterControllerFromDataAsWritten(item: ControllerItem, wpdb: Value)
      modifies this, container
      ensures container.compiled
      ensures container.definitions == old(container.definitions)
              && container.aliases == CompiledAliases(old(container.compiled), container.compiled, old(container.aliases))
      ensures container.services == if old(container.compiled) then old(container.services)
                                    else old(container.services)[WpdbId := wpdb]
      ensures controllers == old(controllers)[item.className := EntryOf(item)]
      ensures routes == old(routes) + RoutesFor(item)
      ensures discoveryItems == old(discoveryItems) && restInitHooked == old(restInitHooked)
    {
      var known := container.Has(item.className, wpdb);
      var compiled := container.IsCompiled();
      if !known && !compiled {
        // `register($className, $className)` would run here.
        assert false;
      }
      controllers := controllers[item.className := EntryOf(item)];
      AddRoutes(item);
    }

    /** `registerControllerFromData` as intended: the class is registered
        when the container neither knows it nor is compiled; the question is
        put to the builder without compiling. */
    method RegisterControllerFromData(item: ControllerItem)
      modifies this, container
      ensures container.compiled == old(container.compiled)
      ensures container.aliases == old(container.aliases) && container.services == old(container.services)
      ensures !old(container.compiled) && !old(container.Knows(item.className)) ==>
        && item.className in container.definitions
        && fresh(container.definitions[item.className])
        && container.definitions[item.className].className == item.className
        && container.definitions == old(container.definitions)[item.className := container.definitions[item.className]]
      ensures old(container.compiled) || old(container.Knows(item.className)) ==>
        container.definitions == old(container.definitions)
      ensures controllers == old(controllers)[item.className := EntryOf(item)]
      ensures routes == old(routes) + RoutesFor(item)
      ensures discoveryItems == old(discoveryItems) && restInitHooked == old(restInitHooked)
    {
      if !container.compiled && !container.Knows(item.className) {
        var _ := container.Register(item.className, item.className);
      }
      controllers := controllers[item.className := EntryOf(item)];
      AddRoutes(item);
    }

    /** `apply()`: every stored item is registered in iteration order, then
        route registration is hooked onto `rest_api_init`. On a container
        not yet compiled every controller class ends up known to it. */
    method Apply()
      requires discoveryItems.Valid()
      modifies this, container
      ensures discoveryItems == old(discoveryItems) && restInitHooked
      ensures routes == old(routes) + AllRoutes(Flatten(discoveryItems.order, discoveryItems.items))
      ensures controllers == ControllersAfter(old(controllers), Flatten(discoveryItems.order, discoveryItems.items))
      ensures container.compiled == old(container.compiled)
      ensures container.aliases == old(container.aliases) && container.services == old(container.services)
      ensures old(container.compiled) ==> container.definitions == old(container.definitions)
      ensures !old(container.compiled) ==>
        var items := Flatten(discoveryItems.order, discoveryItems.items);
        forall k :: 0 <= k < |items| ==> container.Knows(items[k].className)
    {
      var items := discoveryItems.All();
      ghost var startRoutes := routes;
      ghost var startControllers := controllers;
      ghost var wasCompiled := container.compiled;
      ghost var startDefinitions := container.definitions;
      ghost var startAliases, startServices := container.aliases, container.services;
      var i := 0;
      while i < |items|
        invariant 0 <= i <= |items|
        invariant discoveryItems == old(discoveryItems)
        invariant ApplyState(items, i, startRoutes, startControllers, wasCompiled, startDefinitions,
                             startAliases, startServices)
      {
        RegisterNext(items, i, startRoutes, startControllers, wasCompiled, startDefinitions, startAliases, startServices);
        i := i + 1;
      }
      assert items[..i] == items;
      restInitHooked := true;
    }

    /** What `apply`'s loop has done after `i` items. */
    ghost predicate ApplyState(items: seq<ControllerItem>, i: nat, startRoutes: seq<Route>,
                               startControllers: map<string, ControllerEntry>, wasCompiled: bool,
                               startDefinitions: map<string, Definition>, startAliases: map<string, string>,
                               startServices: map<string, Value>)
      reads this, container
    {
      && i <= |items|
      && routes == startRoutes + AllRoutes(items[..i])
      && controllers == ControllersAfter(startControllers, items[..i])
      && container.compiled == wasCompiled
      && container.aliases == startAliases && container.services == startServices
      && (wasCompiled ==> container.definitions == startDefinitions)
      && (!wasCompiled ==> forall k :: 0 <= k < i ==> container.Knows(items[k].className))
    }

    /** One round of `apply`'s loop. */
    method RegisterNext(items: seq<ControllerItem>, i: nat, ghost startRoutes: seq<Route>,
                        ghost startControllers: map<string, ControllerEntry>, ghost wasCompiled: bool,
                        ghost startDefinitions: map<string, Definition>, ghost startAliases: map<string, string>,
                        ghost startServices: map<string, Value>)
      requires i < |items|
      requires ApplyState(items, i, startRoutes, startControllers, wasCompiled, startDefinitions, startAliases, startServices)
      modifies this, container
      ensures ApplyState(items, i + 1, startRoutes, startControllers, wasCompiled, startDefinitions, startAliases, startServices)
      ensures discoveryItems == old(discoveryItems) && restInitHooked == old(restInitHooked)
    {
      ghost var done := AllRoutes(items[..i]);
      ghost var defined := container.definitions.Keys;
      RegisterControllerFromData(items[i]);
      assert container.definitions.Keys >= defined;
      assert items[..i + 1][..i] == items[..i];
      ConcatAssoc(startRoutes, done, RoutesFor(items[i]));
    }

    /** `apply()` as written: each item goes through the as-written
        registration, so the first one compiles the container and no
        controller class is ever defined; entries and routes are still
        recorded in iteration order. */
    method ApplyAsWritten(wpdb: Value)
      requires discoveryItems.Valid()
      modifies this, container
      ensures discoveryItems == old(discoveryItems) && restInitHooked
      ensures var items := Flatten(discoveryItems.order, discoveryItems.items);
        && routes == old(routes) + AllRoutes(items)
        && controllers == ControllersAfter(old(controllers), items)
        && container.compiled == (old(container.compiled) || |items| > 0)
        && container.services == if old(container.compiled) || |items| == 0 then old(container.services)
                                 else old(container.services)[WpdbId := wpdb]
      ensures container.definitions == old(container.definitions)
              && container.aliases == CompiledAliases(old(container.compiled), container.compiled, old(container.aliases))
    {
      var items := discoveryItems.All();
      var i := 0;
      while i < |items|
        invariant 0 <= i <= |items|
        invariant discoveryItems == old(discoveryItems)
        invariant routes == old(routes) + AllRoutes(items[..i])
        invariant controllers == ControllersAfter(old(controllers), items[..i])
        invariant container.compiled == (old(container.compiled) || i > 0)
        invariant container.services == if old(container.compiled) || i == 0 then old(container.services)
                                        else old(container.services)[WpdbId := wpdb]
        invariant container.definitions == old(container.definitions)
                  && container.aliases == CompiledAliases(old(container.compiled), container.compiled, old(container.aliases))
      {
        ghost var done := AllRoutes(items[..i]);
        RegisterControllerFromDataAsWritten(items[i], wpdb);
        assert items[..i + 1][..i] == items[..i];
        ConcatAssoc(old(routes), done, RoutesFor(items[i]));
        i := i + 1;
      }
      assert items[..i] == items;
      restInitHooked := true;
    }

    /** The closure `createRouteCallback` returns, called with a request:
        `has` (which compiles the container) picks the container's service
        or a new instance, then the action runs on the request through
        `applyMiddleware`. */
    method RouteCallback<Req, Resp>(route: Route, request: Req, ctor: Option<seq<Param>>,
                                    action: (Instance, string, Req) -> Resp, wpdb: Value)
        returns (r: Result<Resp, Exception>)
      modifies container
      ensures container.compiled
      ensures container.definitions == old(container.definitions)
              && container.aliases == CompiledAliases(old(container.compiled), container.compiled, old(container.aliases))
      ensures r == match HandlerFor(container, route.controller, ctor)
                   case Err(e) => Err(e)
                   case Ok(h) => Ok(action(h, route.action, request))
    {
      var known := container.Has(route.controller, wpdb);
      var handler: Instance;
      if known {
        var service := container.Get(route.controller, wpdb);
        handler := FromContainer(service.value);
      } else {
        var built := InstantiateWithDependencies(container, route.controller, ctor);
        if built.Err? {
          return Err(built.error);
        }
        handler := built.value;
      }
      r := Ok(ApplyMiddleware(route.middleware, request, (req: Req) => action(handler, route.action, req)));
    }
  }

  /** The first finding, on a fresh container: discovering one controller
      and registering it as written leaves the class unknown to the
      container, while the intended registration defines it. */
  method ControllerNeverRegistered(cls: string, wpdb: Value) returns (asWritten: bool, intended: bool)
    requires cls != WpdbId && cls != ServiceContainerId && cls != ContainerInterfaceId
    ensures !asWritten && intended
  {
    var item := ControllerItem(cls, "", "picowind/v1", [], []);
    var c1 := new Container("/theme", "/theme-url");
    var d1 := new ControllerDiscovery(c1);
    d1.RegisterControllerFromDataAsWritten(item, wpdb);
    asWritten := c1.Knows(cls);

    var c2 := new Container("/theme", "/theme-url");
    var d2 := new ControllerDiscovery(c2);
    d2.RegisterControllerFromData(item);
    intended := c2.Knows(cls);
  }
}
