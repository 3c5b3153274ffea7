/** `Container`: a PSR-11 style service container over a definition
    builder, with a one-way `compiled` flag. Before compilation services,
    aliases and parameters may be added; reads compile lazily; afterwards
    every mutation is refused. */
module Containers {
  import opened Php
  import opened Env
  import opened Exceptions

  const WpdbId := "wpdb"
  const ContainerInterfaceId := "Psr\\Container\\ContainerInterface"
  const ServiceContainerId := "service_container"
  const ThemeDirParameter := "picowind.theme_dir"
  const ThemeUrlParameter := "picowind.theme_url"
  const VersionParameter := "picowind.version"

  const RegisterAfterCompile := "Cannot register services after container compilation"
  const AliasAfterCompile := "Cannot create aliases after container compilation"
  const ParameterAfterCompile := "Cannot set parameters after container compilation"

  /** The builder's aliases after reads that may have compiled it: the
      first compilation removes them all, since every alias is made by
      `setAlias` with a string target and so is private. */
  function CompiledAliases(wasCompiled: bool, isCompiled: bool, aliases: map<string, string>): map<string, string> {
    if !wasCompiled && isCompiled then map[] else aliases
  }

  /** A service definition of the builder. It is an object: `register`
      hands it back and the caller keeps configuring it in place. */
  class Definition {
    var className: string
    var autowired: bool
    var autoconfigured: bool
    var isPublic: bool
    var shared: bool
    var synthetic: bool
    var tags: seq<string>
    /** Names of the methods to call after instantiation, in order. */
    var methodCalls: seq<string>

    /** `new Definition($class)`: shared, private, neither autowired nor
        autoconfigured, not synthetic, no tags. */
    constructor (cls: string)
      ensures className == cls && shared && !isPublic && !autowired && !autoconfigured && !synthetic
      ensures tags == [] && methodCalls == []
    {
      className := cls;
      autowired := false;
      autoconfigured := false;
      isPublic := false;
      shared := true;
      synthetic := false;
      tags := [];
      methodCalls := [];
    }

    method SetShared(b: bool)
      modifies this
      ensures shared == b
      ensures className == old(className) && isPublic == old(isPublic) && tags == old(tags)
      ensures autowired == old(autowired) && autoconfigured == old(autoconfigured) && synthetic == old(synthetic)
      ensures methodCalls == old(methodCalls)
    {
      shared := b;
    }

    method SetPublic(b: bool)
      modifies this
      ensures isPublic == b
      ensures className == old(className) && shared == old(shared) && tags == old(tags)
      ensures autowired == old(autowired) && autoconfigured == old(autoconfigured) && synthetic == old(synthetic)
      ensures methodCalls == old(methodCalls)
    {
      isPublic := b;
    }

    method AddTag(tag: string)
      modifies this
      ensures tags == old(tags) + [tag]
      ensures className == old(className) && shared == old(shared) && isPublic == old(isPublic)
      ensures autowired == old(autowired) && autoconfigured == old(autoconfigured) && synthetic == old(synthetic)
      ensures methodCalls == old(methodCalls)
    {
      tags := tags + [tag];
    }

    method AddMethodCall(name: string)
      modifies this
      ensures methodCalls == old(methodCalls) + [name]
      ensures className == old(className) && shared == old(shared) && isPublic == old(isPublic)
      ensures autowired == old(autowired) && autoconfigured == old(autoconfigured) && synthetic == old(synthetic)
      ensures tags == old(tags)
    {
      methodCalls := methodCalls + [name];
    }
  }

  class Container {
    var compiled: bool
    var definitions: map<string, Definition>
    var aliases: map<string, string>
    var parameters: map<string, Value>
    /** Instances set directly on the builder (the synthetic `wpdb`). */
    var services: map<string, Value>

    /** `has` as the builder answers it: a definition, an alias, a set
        instance, or the container itself. Once compiled there are no
        aliases left to answer for. */
    predicate Knows(id: string)
      reads this
    {
      id in definitions || id in aliases || id in services || id == ServiceContainerId
    }

    /** The constructor: the three theme parameters, a synthetic public
        `wpdb` definition and `ContainerInterface` aliased to the container
        itself. */
    constructor (themeDir: string, themeUrl: string)
      ensures !compiled
      ensures parameters == map[ThemeDirParameter := Str(themeDir), ThemeUrlParameter := Str(themeUrl),
                                VersionParameter := Str("1.0.0")]
      ensures definitions.Keys == {WpdbId}
      ensures fresh(definitions[WpdbId])
      ensures definitions[WpdbId].className == WpdbId && definitions[WpdbId].synthetic && definitions[WpdbId].isPublic
      ensures aliases == map[ContainerInterfaceId := ServiceContainerId]
      ensures services == map[]
    {
      compiled := false;
      parameters := map[ThemeDirParameter := Str(themeDir), ThemeUrlParameter := Str(themeUrl),
                        VersionParameter := Str("1.0.0")];
      var wpdb := new Definition(WpdbId);
      wpdb.synthetic := true;
      wpdb.isPublic := true;
      definitions := map[WpdbId := wpdb];
      aliases := map[ContainerInterfaceId := ServiceContainerId];
      services := map[];
    }

    /** `register($id, $class)`: a new autowired, autoconfigured, public
        definition under `id`, or a RuntimeException once compiled. */
    method Register(id: string, cls: string) returns (r: Result<Definition, Exception>)
      modifies this
      ensures old(compiled) ==> r == Err(NewRuntime(RegisterAfterCompile)) && definitions == old(definitions)
      ensures !old(compiled) ==> r.Ok? && fresh(r.value) && definitions == old(definitions)[id := r.value]
      ensures !old(compiled) ==> r.value.className == cls && r.value.autowired && r.value.autoconfigured && r.value.isPublic
      ensures !old(compiled) ==> r.value.shared && !r.value.synthetic && r.value.tags == [] && r.value.methodCalls == []
      ensures compiled == old(compiled) && aliases == old(aliases) && parameters == old(parameters) && services == old(services)
    {
      if compiled {
        return Err(NewRuntime(RegisterAfterCompile));
      }
      var definition := new Definition(cls);
      definition.autowired := true;
      definition.autoconfigured := true;
      definition.isPublic := true;
      definitions := definitions[id := definition];
      r := Ok(definition);
    }

    /** `alias($alias, $id)`. */
    method Alias(alias: string, id: string) returns (err: Option<Exception>)
      modifies this
      ensures old(compiled) ==> err == Some(NewRuntime(AliasAfterCompile)) && aliases == old(aliases)
      ensures !old(compiled) ==> err.None? && aliases == old(aliases)[alias := id]
      ensures compiled == old(compiled) && definitions == old(definitions) && parameters == old(parameters) && services == old(services)
    {
      if compiled {
        return Some(NewRuntime(AliasAfterCompile));
      }
      aliases := aliases[alias := id];
      err := None;
    }

    /** `parameter($name, $value)`. */
    method Parameter(name: string, value: Value) returns (err: Option<Exception>)
      modifies this
      ensures old(compiled) ==> err == Some(NewRuntime(ParameterAfterCompile)) && parameters == old(parameters)
      ensures !old(compiled) ==> err.None? && parameters == old(parameters)[name := value]
      ensures compiled == old(compiled) && definitions == old(definitions) && aliases == old(aliases) && services == old(services)
    {
      if compiled {
        return Some(NewRuntime(ParameterAfterCompile));
      }
      parameters := parameters[name := value];
      err := None;
    }

    /** `compile()`: the first call compiles the builder, which removes its
        private aliases, then sets the global `wpdb` instance and flips the
        flag; a later call changes nothing. */
    method Compile(wpdb: Value)
      modifies this
      ensures compiled
      ensures old(compiled) ==> unchanged(this)
      ensures old(compiled) ==> services == old(services)
      ensures !old(compiled) ==> services == old(services)[WpdbId := wpdb]
      ensures !old(compiled) ==> aliases == map[]
      ensures definitions == old(definitions) && parameters == old(parameters)
    {
      if compiled {
        return;
      }
      aliases := map[];
      services := services[WpdbId := wpdb];
      compiled := true;
    }

    method IsCompiled() returns (b: bool)
      ensures b == compiled
    {
      b := compiled;
    }

    /** `has($id)`: compiles first, then asks the builder. */
    method Has(id: string, wpdb: Value) returns (b: bool)
      modifies this
      ensures compiled
      ensures old(compiled) ==> unchanged(this)
      ensures old(compiled) ==> services == old(services)
      ensures !old(compiled) ==> services == old(services)[WpdbId := wpdb]
      ensures definitions == old(definitions) && parameters == old(parameters)
      ensures aliases == CompiledAliases(old(compiled), compiled, old(aliases))
      ensures b == Knows(id)
    {
      if !compiled {
        Compile(wpdb);
      }
      b := id in definitions || id in aliases || id in services || id == ServiceContainerId;
    }

    /** `get($id)`: compiles first; the id whose service is returned (a
        remaining alias is followed one step, though none is left once the
        first compilation has removed them), or None where the builder
        throws. */
    method Get(id: string, wpdb: Value) returns (r: Option<string>)
      modifies this
      ensures compiled
      ensures old(compiled) ==> unchanged(this)
      ensures old(compiled) ==> services == old(services)
      ensures !old(compiled) ==> services == old(services)[WpdbId := wpdb]
      ensures definitions == old(definitions) && parameters == old(parameters)
      ensures aliases == CompiledAliases(old(compiled), compiled, old(aliases))
      ensures r.Some? <==> Knows(id)
      ensures r.Some? ==> r.value == if id in aliases then aliases[id] else id
    {
      if !compiled {
        Compile(wpdb);
      }
      if !(id in definitions || id in aliases || id in services || id == ServiceContainerId) {
        return None;
      }
      r := Some(if id in aliases then aliases[id] else id);
    }

    /** `findTaggedServiceIds($tag)`: compiles first, then the ids of the
        definitions carrying the tag. */
    method FindTaggedServiceIds(tag: string, wpdb: Value) returns (ids: set<string>)
      modifies this
      ensures compiled
      ensures old(compiled) ==> unchanged(this)
      ensures old(compiled) ==> services == old(services)
      ensures !old(compiled) ==> services == old(services)[WpdbId := wpdb]
      ensures definitions == old(definitions) && parameters == old(parameters)
      ensures aliases == CompiledAliases(old(compiled), compiled, old(aliases))
      ensures forall id :: id in ids <==> id in definitions && tag in definitions[id].tags
    {
      if !compiled {
        Compile(wpdb);
      }
      ids := set id | id in definitions && tag in definitions[id].tags;
    }
  }

  /** Once compiled, a register, an alias or a parameter call leaves the
      container exactly as it was and reports the error; a read keeps it
      compiled. Stated as a sequence of calls on one container. */
  method CompiledIsFinal(c: Container, wpdb: Value, id: string, cls: string)
    modifies c
    ensures c.compiled
    ensures c.definitions == old(c.definitions) && c.parameters == old(c.parameters)
    ensures c.aliases == CompiledAliases(old(c.compiled), true, old(c.aliases))
  {
    var _ := c.Has(id, wpdb);
    var r := c.Register(id, cls);
    assert r.Err?;
    var e := c.Alias(id, cls);
    assert e.Some?;
    var p := c.Parameter(id, Str(cls));
    assert p.Some?;
    c.Compile(wpdb);
  }

  /** A class registered under another id is reachable by its class name
      only until the first read: the read compiles, the alias goes, and
      `has` for the class name answers false. The same holds for the
      `ContainerInterface` alias the constructor sets up. */
  method AliasGoneOnFirstRead(wpdb: Value, cls: string, id: string) returns (before: bool, after: bool, psr: bool)
    requires cls != id && cls != WpdbId && cls != ServiceContainerId && cls != ContainerInterfaceId
    requires id != ContainerInterfaceId
    ensures before && !after && !psr
  {
    var c := new Container("/theme", "/theme-url");
    var _ := c.Register(id, cls);
    var _ := c.Alias(cls, id);
    before := c.Knows(cls);
    after := c.Has(cls, wpdb);
    psr := c.Has(ContainerInterfaceId, wpdb);
  }
}
