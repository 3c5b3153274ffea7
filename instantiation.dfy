/** `instantiateWithDependencies`, which `ControllerDiscovery` and
    `CommandDiscovery` each carry a copy of: a class the container does not
    know is built by hand, every constructor parameter taken from the
    container by its class type. */
module Instantiation {
  import opened Php
  import opened Env
  import opened Exceptions
  import opened Containers

  /** A constructor parameter as reflection reports it. */
  datatype Param = Param(name: string, typeName: Option<string>, builtin: bool)

  /** Whether the parameter names a class the container can be asked for. */
  predicate Injectable(p: Param) {
    p.typeName.Some? && !p.builtin
  }

  /** The `sprintf` message for a parameter that cannot be injected; a
      missing type prints as the empty string. */
  function UnresolvableMessage(p: Param, className: string): (m: string)
    ensures StartsWith(m, "Cannot resolve parameter '" + p.name + "'")
  {
    var head := "Cannot resolve parameter '" + p.name + "'";
    var m := head + " of type '" + (if p.typeName.Some? then p.typeName.value else "") + "' in class " + className;
    assert m[..|head|] == head;
    m
  }

  /** An object a discovery calls into. */
  datatype Instance =
    | FromContainer(service: string)
    /** `new $className(...$dependencies)`, the dependencies named by the
        services they were taken from. */
    | Constructed(className: string, dependencies: seq<string>)

  /** The service `get` returns for an id of a compiled container, if the
      builder knows it. Compiling has removed every alias, so a known id
      names its own service; an alias id, `ContainerInterface` among them,
      is not found. */
  function Lookup(c: Container, id: string): (r: Option<string>)
    reads c
    ensures r.Some? <==> c.Knows(id)
    ensures c.aliases == map[] ==> (r.Some? <==> id in c.definitions || id in c.services || id == ServiceContainerId)
    ensures c.aliases == map[] && r.Some? ==> r.value == id
  {
    if !c.Knows(id) then None else Some(if id in c.aliases then c.aliases[id] else id)
  }

  /** The dependencies of a constructor, resolved in parameter order
      against a compiled container; the first parameter that cannot be
      resolved stops the construction. */
  function Dependencies(c: Container, className: string, params: seq<Param>): (r: Result<seq<string>, Exception>)
    reads c
    ensures r.Ok? ==> |r.value| == |params|
    ensures r.Ok? <==> forall i :: 0 <= i < |params| ==> Injectable(params[i]) && c.Knows(params[i].typeName.value)
  {
    if params == [] then Ok([])
    else
      match Dependencies(c, className, params[..|params| - 1])
      case Err(e) => Err(e)
      case Ok(deps) =>
        var p := params[|params| - 1];
        if !Injectable(p) then Err(NewRuntime(UnresolvableMessage(p, className)))
        else
          match Lookup(c, p.typeName.value)
          case None => Err(NewServiceNotFound(p.typeName.value))
          case Some(s) => Ok(deps + [s])
  }

  /** The error is that of the first parameter that cannot be injected. */
  lemma {:induction false} DependenciesFirstError(c: Container, className: string, params: seq<Param>, i: nat)
    requires i < |params|
    requires forall j :: 0 <= j < i ==> Injectable(params[j]) && c.Knows(params[j].typeName.value)
    requires !Injectable(params[i])
    ensures Dependencies(c, className, params) == Err(NewRuntime(UnresolvableMessage(params[i], className)))
    decreases |params|
  {
    if i < |params| - 1 {
      DependenciesFirstError(c, className, params[..|params| - 1], i);
    } else {
      var init := params[..|params| - 1];
      assert forall j :: 0 <= j < |init| ==> Injectable(init[j]) && c.Knows(init[j].typeName.value);
    }
  }

  /** One more parameter after a resolved prefix: its service is appended,
      or its error ends the resolution. */
  lemma DependenciesStep(c: Container, className: string, params: seq<Param>, i: nat)
    requires i < |params| && Dependencies(c, className, params[..i]).Ok?
    ensures var p := params[i];
      Dependencies(c, className, params[..i + 1]) ==
        if !Injectable(p) then Err(NewRuntime(UnresolvableMessage(p, className)))
        else if !c.Knows(p.typeName.value) then Err(NewServiceNotFound(p.typeName.value))
        else Ok(Dependencies(c, className, params[..i]).value + [Lookup(c, p.typeName.value).value])
  {
    assert params[..i + 1][..i] == params[..i];
  }

  /** Once a prefix of the parameters fails, the whole list fails the same
      way. */
  lemma {:induction false} DependenciesPrefixError(c: Container, className: string, params: seq<Param>, n: nat)
    requires n <= |params| && Dependencies(c, className, params[..n]).Err?
    ensures Dependencies(c, className, params) == Dependencies(c, className, params[..n])
    decreases |params| - n
  {
    if n < |params| {
      assert params[..n + 1][..n] == params[..n];
      DependenciesPrefixError(c, className, params, n + 1);
    } else {
      assert params[..n] == params;
    }
  }

  /** The object built for a class the container does not know: without a
      constructor, a plain `new`; otherwise with its resolved
      dependencies, or the error that stopped their resolution. */
  function Instantiated(c: Container, className: string, ctor: Option<seq<Param>>): (r: Result<Instance, Exception>)
    reads c
    ensures ctor.None? ==> r == Ok(Constructed(className, []))
    ensures r.Ok? ==> r.value.Constructed? && r.value.className == className
  {
    if ctor.None? then Ok(Constructed(className, []))
    else
      match Dependencies(c, className, ctor.value)
      case Err(e) => Err(e)
      case Ok(deps) => Ok(Constructed(className, deps))
  }

  /** `instantiateWithDependencies($className)` on a compiled container. */
  method InstantiateWithDependencies(c: Container, className: string, ctor: Option<seq<Param>>)
      returns (r: Result<Instance, Exception>)
    requires c.compiled
    ensures r == Instantiated(c, className, ctor)
  {
    if ctor.None? {
      return Ok(Constructed(className, []));
    }
    var params := ctor.value;
    var dependencies: seq<string> := [];
    var i := 0;
    while i < |params|
      invariant 0 <= i <= |params|
      invariant Dependencies(c, className, params[..i]) == Ok(dependencies)
    {
      var p := params[i];
      DependenciesStep(c, className, params, i);
      if !Injectable(p) {
        DependenciesPrefixError(c, className, params, i + 1);
        return Err(NewRuntime(UnresolvableMessage(p, className)));
      }
      var service := Lookup(c, p.typeName.value);
      if service.None? {
        DependenciesPrefixError(c, className, params, i + 1);
        return Err(NewServiceNotFound(p.typeName.value));
      }
      dependencies := dependencies + [service.value];
      i := i + 1;
    }
    assert params[..i] == params;
    r := Ok(Constructed(className, dependencies));
  }
}
