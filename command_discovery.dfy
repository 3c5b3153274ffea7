/** `CommandDiscovery`: collects `#[Command]` classes and methods, derives
    WP-CLI command names from class and method names, and registers each
    command under its name and its aliases. */
module Commands {
  import opened Php
  import opened Env
  import opened Locations
  import opened Reflection
  import opened Items
  import opened Containers
  import opened Exceptions
  import opened Instantiation

  // ---------------------------------------------------------------------
  // generateCommandName, generateMethodCommandName

  /** `preg_replace('/([a-z])([A-Z])/', '$1-$2', $s)`: a hyphen between
      every lowercase letter and the uppercase letter after it. Matches
      are taken left to right without overlap; two such pairs cannot share
      a letter, so every pair is matched. */
  function Hyphenate(s: string): (r: string)
    ensures |r| >= |s|
    decreases |s|
  {
    if |s| < 2 then s
    else if IsLower(s[0]) && IsUpper(s[1]) then [s[0], '-'] + Hyphenate(s[1..])
    else [s[0]] + Hyphenate(s[1..])
  }

  /** No lowercase letter is directly followed by an uppercase one. */
  predicate NoCamelJoint(s: string) {
    forall i :: 0 <= i < |s| - 1 ==> !(IsLower(s[i]) && IsUpper(s[i + 1]))
  }

  /** The string with every hyphen taken out. */
  function Unhyphenate(s: string): (r: string)
    ensures '-' !in r
  {
    if s == [] then []
    else (if s[0] == '-' then [] else [s[0]]) + Unhyphenate(s[1..])
  }

  /** Hyphenating keeps the first character. */
  lemma HyphenateHead(s: string)
    requires s != []
    ensures Hyphenate(s) != [] && Hyphenate(s)[0] == s[0]
  {
  }

  /** Hyphenating splits every camel-case joint. */
  lemma {:induction false} HyphenateSplitsJoints(s: string)
    ensures NoCamelJoint(Hyphenate(s))
    decreases |s|
  {
    if |s| >= 2 {
      HyphenateSplitsJoints(s[1..]);
      HyphenateHead(s[1..]);
      var t := Hyphenate(s[1..]);
      if IsLower(s[0]) && IsUpper(s[1]) {
        assert Hyphenate(s) == [s[0], '-'] + t;
        assert forall i :: 2 <= i < |Hyphenate(s)| ==> Hyphenate(s)[i] == t[i - 2];
      } else {
        assert Hyphenate(s) == [s[0]] + t;
        assert forall i :: 1 <= i < |Hyphenate(s)| ==> Hyphenate(s)[i] == t[i - 1];
      }
    }
  }

  lemma {:induction false} UnhyphenateConcat(a: string, b: string)
    ensures Unhyphenate(a + b) == Unhyphenate(a) + Unhyphenate(b)
    decreases |a|
  {
    if a != [] {
      assert (a + b)[1..] == a[1..] + b;
      UnhyphenateConcat(a[1..], b);
    } else {
      assert a + b == b;
    }
  }

  /** Hyphenating only inserts hyphens: taking them out again gives back a
      name that had none. */
  lemma {:induction false} HyphenateOnlyInserts(s: string)
    requires '-' !in s
    ensures Unhyphenate(Hyphenate(s)) == s
    decreases |s|
  {
    if |s| >= 2 {
      HyphenateOnlyInserts(s[1..]);
      if IsLower(s[0]) && IsUpper(s[1]) {
        UnhyphenateConcat([s[0], '-'], Hyphenate(s[1..]));
        assert Unhyphenate([s[0], '-']) == [s[0]];
      } else {
        UnhyphenateConcat([s[0]], Hyphenate(s[1..]));
      }
      assert [s[0]] + s[1..] == s;
    } else if |s| == 1 {
      assert Unhyphenate(s) == [s[0]] + Unhyphenate([]);
    }
  }

  /** The kebab-case of a PascalCase or camelCase name. */
  function Kebab(s: string): (r: string)
    ensures |r| >= |s|
    ensures forall i :: 0 <= i < |r| ==> !IsUpper(r[i])
  {
    Lower(Hyphenate(s))
  }

  /** `end(explode('\\', $className))`: the last namespace segment. */
  function ShortName(className: string): string {
    var parts := Explode(className, '\\');
    parts[|parts| - 1]
  }

  /** A trailing `Command` is dropped. */
  function WithoutCommandSuffix(s: string): (r: string)
    ensures EndsWith(s, "Command") ==> r + "Command" == s
    ensures !EndsWith(s, "Command") ==> r == s
  {
    if EndsWith(s, "Command") then s[..|s| - 7] else s
  }

  /** `generateCommandName($className)`. */
  function CommandName(className: string): (r: string)
    ensures StartsWith(r, "picowind ")
  {
    var r := "picowind " + Kebab(WithoutCommandSuffix(ShortName(className)));
    assert r[..9] == "picowind ";
    r
  }

  /** `generateMethodCommandName($className, $methodName)`. */
  function MethodCommandName(className: string, methodName: string): string {
    "picowind " + Kebab(WithoutCommandSuffix(ShortName(className))) + " " + Kebab(methodName)
  }

  /** A method's command is a subcommand of its class's command. */
  lemma MethodCommandExtendsClassCommand(className: string, methodName: string)
    ensures MethodCommandName(className, methodName) == CommandName(className) + " " + Kebab(methodName)
  {
  }

  /** The last piece of `explode` is what follows the last delimiter. */
  lemma {:induction false} ExplodeLast(a: string, c: char, b: string)
    requires c !in b
    ensures var parts := Explode(a + [c] + b, c); |parts| >= 2 && parts[|parts| - 1] == b
    decreases |a|
  {
    var s := a + [c] + b;
    if a == [] {
      assert s[0] == c && s[1..] == b;
      ExplodeNoSep(b, c);
    } else {
      assert s[0] == a[0] && s[1..] == a[1..] + [c] + b;
      ExplodeLast(a[1..], c, b);
    }
  }

  /** A class `Ns\BaseCommand` gets the command `picowind base`, whatever
      its namespace. */
  lemma CommandClassName(ns: string, base: string)
    requires '\\' !in base
    ensures CommandName(ns + "\\" + base + "Command") == "picowind " + Kebab(base)
  {
    var short := base + "Command";
    assert '\\' !in short;
    assert ns + "\\" + base + "Command" == ns + ['\\'] + short;
    ExplodeLast(ns, '\\', short);
    assert ShortName(ns + "\\" + base + "Command") == short;
    assert short[|short| - 7..] == "Command";
    assert short[..|short| - 7] == base;
    assert WithoutCommandSuffix(short) == base;
  }

  /** A name without camel-case joints is left as it is. */
  lemma {:induction false} HyphenateNoJoint(s: string)
    requires NoCamelJoint(s)
    ensures Hyphenate(s) == s
    decreases |s|
  {
    if |s| >= 2 {
      assert NoCamelJoint(s[1..]) by {
        forall i | 0 <= i < |s[1..]| - 1
          ensures !(IsLower(s[1..][i]) && IsUpper(s[1..][i + 1]))
        {
          assert s[1..][i] == s[i + 1] && s[1..][i + 1] == s[i + 2];
        }
      }
      HyphenateNoJoint(s[1..]);
      assert !(IsLower(s[0]) && IsUpper(s[1]));
      assert [s[0]] + s[1..] == s;
    }
  }

  /** Hyphenating twice is hyphenating once. */
  lemma HyphenateIdempotent(s: string)
    ensures Hyphenate(Hyphenate(s)) == Hyphenate(s)
  {
    HyphenateSplitsJoints(s);
    HyphenateNoJoint(Hyphenate(s));
  }

  /** Hyphenating a concatenation hyphenates both halves, with a hyphen
      between them exactly when they meet at a camel-case joint. */
  lemma {:induction false} HyphenateConcat(a: string, b: string)
    requires a != [] && b != []
    ensures Hyphenate(a + b) ==
      Hyphenate(a) + (if IsLower(a[|a| - 1]) && IsUpper(b[0]) then "-" else "") + Hyphenate(b)
    decreases |a|
  {
    var mid: string := if IsLower(a[|a| - 1]) && IsUpper(b[0]) then "-" else "";
    if |a| == 1 {
      assert (a + b)[0] == a[0] && (a + b)[1] == b[0] && (a + b)[1..] == b;
    } else {
      var head := FirstLetterOut(a + b);
      assert (a + b)[1..] == a[1..] + b;
      assert FirstLetterOut(a) == head;
      HyphenateConcat(a[1..], b);
      assert a[1..][|a[1..]| - 1] == a[|a| - 1];
      ConcatAssoc(head, Hyphenate(a[1..]) + mid, Hyphenate(b));
      ConcatAssoc(head, Hyphenate(a[1..]), mid);
    }
  }

  /** What `Hyphenate` emits for the first letter of a string of two or
      more: the letter, and a hyphen when a camel-case joint follows. */
  function FirstLetterOut(s: string): (h: string)
    requires |s| >= 2
    ensures Hyphenate(s) == h + Hyphenate(s[1..])
  {
    if IsLower(s[0]) && IsUpper(s[1]) then [s[0], '-'] else [s[0]]
  }

  /** A single-word name such as `Theme` is only lowercased. */
  lemma KebabSingleWord(s: string)
    requires NoCamelJoint(s)
    ensures Kebab(s) == Lower(s)
  {
    HyphenateNoJoint(s);
  }

  /** Two words meeting at a camel-case joint, such as `child` and
      `Theme`, are joined by a hyphen. */
  lemma KebabTwoWords(a: string, b: string)
    requires a != [] && b != [] && NoCamelJoint(a) && NoCamelJoint(b)
    requires IsLower(a[|a| - 1]) && IsUpper(b[0])
    ensures Kebab(a + b) == Lower(a) + "-" + Lower(b)
  {
    HyphenateNoJoint(a);
    HyphenateNoJoint(b);
    HyphenateConcat(a, b);
    var h := a + "-" + b;
    assert Lower(h) == Lower(a) + "-" + Lower(b) by {
      assert forall i :: 0 <= i < |h| ==> Lower(h)[i] == (Lower(a) + "-" + Lower(b))[i];
    }
  }

  // ---------------------------------------------------------------------
  // discover, apply

  /** A discovered command; restored cache entries that are not arrays are
      `NotArray`. */
  datatype CommandItem =
    | CommandData(kind: string, className: string, methodName: string, name: string, description: string,
                  aliases: seq<string>, synopsis: Option<string>, when: Option<string>)
    | NotArray

  /** The item for a class-level attribute: type `class`, method
      `__invoke`. */
  function ClassItem(className: string, a: CommandAttr): CommandItem {
    CommandData("class", className, "__invoke",
                if a.name.Some? then a.name.value else CommandName(className),
                if a.description.Some? then a.description.value else "",
                a.aliases, a.synopsis, a.when)
  }

  function MethodItem(className: string, m: MethodInfo, a: CommandAttr): CommandItem {
    CommandData("method", className, m.name,
                if a.name.Some? then a.name.value else MethodCommandName(className, m.name),
                if a.description.Some? then a.description.value else "",
                a.aliases, a.synopsis, a.when)
  }

  /** The method-level items, one per method with a Command attribute (its
      first), in method order. */
  function MethodItems(className: string, ms: seq<MethodInfo>): (r: seq<CommandItem>)
    ensures |r| <= |ms|
    ensures forall k :: 0 <= k < |r| ==> r[k].CommandData? && r[k].kind == "method"
  {
    if ms == [] then []
    else
      var last := ms[|ms| - 1];
      MethodItems(className, ms[..|ms| - 1]) +
      (if last.commands == [] then [] else [MethodItem(className, last, last.commands[0])])
  }

  /** One more method's items follow the earlier methods' items. */
  lemma MethodItemsSnoc(className: string, ms: seq<MethodInfo>, i: nat)
    requires i < |ms|
    ensures MethodItems(className, ms[..i + 1]) == MethodItems(className, ms[..i]) + MethodItems(className, [ms[i]])
  {
    assert ms[..i + 1][..i] == ms[..i];
    assert [ms[i]][..0] == [];
  }

  /** The item for the class-level attribute, if there is one. */
  function ClassItems(c: ClassInfo): (r: seq<CommandItem>)
    ensures |r| <= 1 && (r == [] <==> c.commands == [])
  {
    if c.commands == [] then [] else [ClassItem(c.name, c.commands[0])]
  }

  /** The items `discover` adds for a class: the class command first, then
      the method commands. */
  function DiscoveredCommands(c: ClassInfo): (r: seq<CommandItem>)
    ensures c.commands != [] ==> r != [] && r[0] == ClassItem(c.name, c.commands[0])
  {
    ClassItems(c) + MethodItems(c.name, KeptMethods(c.name, c.methods))
  }

  /** Without an explicit name a class command is named after its class,
      and its description is empty. */
  lemma UnnamedClassCommand(c: ClassInfo)
    requires c.commands != [] && c.commands[0].name.None? && c.commands[0].description.None?
    ensures var r := DiscoveredCommands(c)[0];
      r.name == CommandName(c.name) && r.description == "" && r.methodName == "__invoke"
  {
  }

  /** What `apply` copies into `commands`: the array items, in order. */
  function Arrays(xs: seq<CommandItem>): (r: seq<CommandItem>)
    ensures |r| <= |xs|
    ensures forall k :: 0 <= k < |r| ==> r[k].CommandData?
    ensures forall k :: 0 <= k < |xs| && xs[k].CommandData? ==> xs[k] in r
  {
    if xs == [] then []
    else Arrays(xs[..|xs| - 1]) + (if xs[|xs| - 1].CommandData? then [xs[|xs| - 1]] else [])
  }

  // ---------------------------------------------------------------------
  // registerCommands, registerCommandFromData

  /** What `add_command` is given as the callable. */
  datatype Callable = Invokable(instance: Instance) | MethodCallable(instance: Instance, methodName: string)

  /** The `$args` array: `shortdesc` always, `synopsis` and `when` only when
      not null. */
  datatype CliArgs = CliArgs(shortdesc: string, synopsis: Option<string>, when: Option<string>)

  /** One `WP_CLI::add_command($name, $callable, $args)` call. */
  datatype CliCommand = CliCommand(name: string, callable: Callable, args: CliArgs)

  /** What reflection and PHP report about classes. */
  datatype Classes = Classes(classExists: string -> bool, constructorOf: string -> Option<seq<Param>>)

  /** The `add_command` calls for a command whose callable is known: its
      name first, then every alias, with the same callable and args. */
  function AddCommands(cmd: CommandItem, callable: Callable): (r: seq<CliCommand>)
    requires cmd.CommandData?
    ensures |r| == 1 + |cmd.aliases|
    ensures r[0].name == cmd.name
    ensures forall k :: 0 <= k < |cmd.aliases| ==> r[k + 1].name == cmd.aliases[k]
    ensures forall k :: 0 <= k < |r| ==>
      (r[k].callable == callable && r[k].args == CliArgs(cmd.description, cmd.synopsis, cmd.when))
  {
    var args := CliArgs(cmd.description, cmd.synopsis, cmd.when);
    [CliCommand(cmd.name, callable, args)] +
    seq(|cmd.aliases|, k requires 0 <= k < |cmd.aliases| => CliCommand(cmd.aliases[k], callable, args))
  }

  /** A `class` command calls the instance itself, any other the method
      named in the data. */
  function CallableFor(cmd: CommandItem, instance: Instance): Callable
    requires cmd.CommandData?
  {
    if cmd.kind == "class" then Invokable(instance) else MethodCallable(instance, cmd.methodName)
  }

  /** The outcome of `registerCommandFromData` on a compiled container:
      the `add_command` calls and the `error_log` lines. A class unknown
      to the container and to PHP is skipped silently; one that cannot be
      built is logged and skipped. */
  function RegisterOutcome(cmd: CommandItem, c: Container, cls: Classes): (r: (seq<CliCommand>, seq<string>))
    requires cmd.CommandData?
    reads c
    ensures r.0 != [] ==> r.1 == []
    ensures c.Knows(cmd.className) ==> r.0 != []
  {
    if c.Knows(cmd.className) then
      (AddCommands(cmd, CallableFor(cmd, FromContainer(Lookup(c, cmd.className).value))), [])
    else if !cls.classExists(cmd.className) then ([], [])
    else
      match Instantiated(c, cmd.className, cls.constructorOf(cmd.className))
      case Err(e) => ([], ["Failed to instantiate command class " + cmd.className + ": " + e.message])
      case Ok(i) => (AddCommands(cmd, CallableFor(cmd, i)), [])
  }

  /** The outcome of registering a list of commands in order. */
  function RegisterAll(cmds: seq<CommandItem>, c: Container, cls: Classes): (r: (seq<CliCommand>, seq<string>))
    requires forall k :: 0 <= k < |cmds| ==> cmds[k].CommandData?
    reads c
  {
    if cmds == [] then ([], [])
    else
      var before := RegisterAll(cmds[..|cmds| - 1], c, cls);
      var last := RegisterOutcome(cmds[|cmds| - 1], c, cls);
      (before.0 + last.0, before.1 + last.1)
  }

  /** Registering commands one list after another is registering them
      together. */
  lemma {:induction false} RegisterAllConcat(a: seq<CommandItem>, b: seq<CommandItem>, c: Container, cls: Classes)
    requires forall k :: 0 <= k < |a| ==> a[k].CommandData?
    requires forall k :: 0 <= k < |b| ==> b[k].CommandData?
    ensures RegisterAll(a + b, c, cls).0 == RegisterAll(a, c, cls).0 + RegisterAll(b, c, cls).0
    ensures RegisterAll(a + b, c, cls).1 == RegisterAll(a, c, cls).1 + RegisterAll(b, c, cls).1
    decreases |b|
  {
    if b == [] {
      assert a + b == a;
    } else {
      var init := b[..|b| - 1];
      assert (a + b)[..|a + b| - 1] == a + init;
      RegisterAllConcat(a, init, c, cls);
      var last := RegisterOutcome(b[|b| - 1], c, cls);
      ConcatAssoc(RegisterAll(a, c, cls).0, RegisterAll(init, c, cls).0, last.0);
      ConcatAssoc(RegisterAll(a, c, cls).1, RegisterAll(init, c, cls).1, last.1);
    }
  }

  class CommandDiscovery {
    const container: Container
    var discoveryItems: DiscoveryItems<CommandItem>
    var commands: seq<CommandItem>
    /** The `WP_CLI::add_command` calls made so far. */
    var cli: seq<CliCommand>
    /** The `error_log` lines written so far. */
    var errorLog: seq<string>

    constructor (c: Container)
      ensures container == c && fresh(discoveryItems) && discoveryItems.Valid()
      ensures discoveryItems.added == [] && commands == [] && cli == [] && errorLog == []
    {
      container := c;
      discoveryItems := new DiscoveryItems();
      commands := [];
      cli := [];
      errorLog := [];
    }

    /** `discover($location, $class)`. */
    method Discover(loc: DiscoveryLocation, c: ClassInfo)
      requires discoveryItems.Valid()
      modifies discoveryItems
      ensures discoveryItems.Valid()
      ensures discoveryItems.added == old(discoveryItems.added) + DiscoveredCommands(c)
    {
      ghost var start := discoveryItems.added;
      ghost var classItems := ClassItems(c);
      DiscoverClass(loc, c);
      var methods := GetPublicMethods(c);
      DiscoverMethods(loc, c.name, methods);
      ConcatAssoc(start, classItems, MethodItems(c.name, methods));
    }

    /** The class-level attribute of `discover`. */
    method DiscoverClass(loc: DiscoveryLocation, c: ClassInfo)
      requires discoveryItems.Valid()
      modifies discoveryItems
      ensures discoveryItems.Valid()
      ensures discoveryItems.added == old(discoveryItems.added) + ClassItems(c)
    {
      var classCommandAttribute := GetAttribute(c.commands);
      if classCommandAttribute.Some? {
        discoveryItems.Add(loc, ClassItem(c.name, classCommandAttribute.value));
      }
    }

    /** The method loop of `discover`. */
    method DiscoverMethods(loc: DiscoveryLocation, className: string, methods: seq<MethodInfo>)
      requires discoveryItems.Valid()
      modifies discoveryItems
      ensures discoveryItems.Valid()
      ensures discoveryItems.added == old(discoveryItems.added) + MethodItems(className, methods)
    {
      ghost var start := discoveryItems.added;
      var i := 0;
      while i < |methods|
        invariant 0 <= i <= |methods|
        invariant discoveryItems.Valid()
        invariant discoveryItems.added == start + MethodItems(className, methods[..i])
      {
        DiscoverMethod(loc, className, methods[i]);
        MethodItemsSnoc(className, methods, i);
        ConcatAssoc(start, MethodItems(className, methods[..i]), MethodItems(className, [methods[i]]));
        i := i + 1;
      }
      assert methods[..i] == methods;
    }

    /** One round of the method loop: the method's first Command attribute,
        if any, becomes an item. */
    method DiscoverMethod(loc: DiscoveryLocation, className: string, m: MethodInfo)
      requires discoveryItems.Valid()
      modifies discoveryItems
      ensures discoveryItems.Valid()
      ensures discoveryItems.added == old(discoveryItems.added) + MethodItems(className, [m])
    {
      assert [m][..0] == [];
      var methodCommandAttribute := GetAttribute(m.commands);
      if methodCommandAttribute.None? {
        return;
      }
      discoveryItems.Add(loc, MethodItem(className, m, methodCommandAttribute.value));
    }

    /** `apply()`: every array item becomes a command, in iteration order. */
    method Apply()
      requires discoveryItems.Valid()
      modifies this
      ensures discoveryItems == old(discoveryItems) && cli == old(cli) && errorLog == old(errorLog)
      ensures commands == old(commands) + Arrays(Flatten(discoveryItems.order, discoveryItems.items))
    {
      var items := discoveryItems.All();
      var kept := KeepArrays(items);
      commands := commands + kept;
    }

    /** `registerCommandFromData($data)`. */
    method RegisterCommandFromData(cmd: CommandItem, cls: Classes, wpdb: Value)
      requires cmd.CommandData?
      modifies this, container
      ensures container.compiled
      ensures container.definitions == old(container.definitions)
              && container.aliases == CompiledAliases(old(container.compiled), container.compiled, old(container.aliases))
      ensures old(container.compiled) ==> unchanged(container)
      ensures commands == old(commands) && discoveryItems == old(discoveryItems)
      ensures cli == old(cli) + RegisterOutcome(cmd, container, cls).0
      ensures errorLog == old(errorLog) + RegisterOutcome(cmd, container, cls).1
    {
      var known := container.Has(cmd.className, wpdb);
      var instance: Instance;
      if known {
        var service := container.Get(cmd.className, wpdb);
        instance := FromContainer(service.value);
      } else {
        if !cls.classExists(cmd.className) {
          return;
        }
        var built := InstantiateWithDependencies(container, cmd.className, cls.constructorOf(cmd.className));
        if built.Err? {
          errorLog := errorLog + ["Failed to instantiate command class " + cmd.className + ": " + built.error.message];
          return;
        }
        instance := built.value;
      }
      var callable := CallableFor(cmd, instance);
      var calls := AddCommandCalls(cmd, callable);
      cli := cli + calls;
    }

    /** `registerCommands()`: nothing without WP-CLI; otherwise every
        command in order. */
    method RegisterCommands(wpCli: bool, cls: Classes, wpdb: Value)
      requires forall k :: 0 <= k < |commands| ==> commands[k].CommandData?
      modifies this, container
      ensures commands == old(commands)
      ensures !wpCli ==> cli == old(cli) && errorLog == old(errorLog)
      ensures wpCli ==> cli == old(cli) + RegisterAll(commands, container, cls).0
      ensures wpCli ==> errorLog == old(errorLog) + RegisterAll(commands, container, cls).1
      ensures container.definitions == old(container.definitions)
              && container.aliases == CompiledAliases(old(container.compiled), container.compiled, old(container.aliases))
    {
      if !wpCli {
        return;
      }
      ghost var startCli, startLog := cli, errorLog;
      var i := 0;
      while i < |commands|
        invariant 0 <= i <= |commands|
        invariant commands == old(commands)
        invariant container.definitions == old(container.definitions)
                  && container.aliases == CompiledAliases(old(container.compiled), container.compiled, old(container.aliases))
        invariant i > 0 ==> container.compiled
        invariant old(container.compiled) ==> container.compiled
        invariant cli == startCli + RegisterAll(commands[..i], container, cls).0
        invariant errorLog == startLog + RegisterAll(commands[..i], container, cls).1
      {
        RegisterNext(i, startCli, startLog, cls, wpdb);
        i := i + 1;
      }
      assert commands[..i] == commands;
    }

    /** One round of `registerCommands`' loop. */
    method RegisterNext(i: nat, ghost startCli: seq<CliCommand>, ghost startLog: seq<string>, cls: Classes, wpdb: Value)
      requires forall k :: 0 <= k < |commands| ==> commands[k].CommandData?
      requires i < |commands|
      requires i > 0 ==> container.compiled
      requires cli == startCli + RegisterAll(commands[..i], container, cls).0
      requires errorLog == startLog + RegisterAll(commands[..i], container, cls).1
      modifies this, container
      ensures commands == old(commands) && container.compiled
      ensures container.definitions == old(container.definitions)
              && container.aliases == CompiledAliases(old(container.compiled), container.compiled, old(container.aliases))
      ensures cli == startCli + RegisterAll(commands[..i + 1], container, cls).0
      ensures errorLog == startLog + RegisterAll(commands[..i + 1], container, cls).1
    {
      ghost var before := RegisterAll(commands[..i], container, cls);
      RegisterCommandFromData(commands[i], cls, wpdb);
      assert RegisterAll(commands[..i], container, cls) == before;
      assert commands[..i + 1][..i] == commands[..i];
      ConcatAssoc(startCli, before.0, RegisterOutcome(commands[i], container, cls).0);
      ConcatAssoc(startLog, before.1, RegisterOutcome(commands[i], container, cls).1);
    }
  }

  /** The loop of `apply`: the array items, in order. */
  method KeepArrays(items: seq<CommandItem>) returns (kept: seq<CommandItem>)
    ensures kept == Arrays(items)
  {
    kept := [];
    var i := 0;
    while i < |items|
      invariant 0 <= i <= |items|
      invariant kept == Arrays(items[..i])
    {
      assert items[..i + 1][..i] == items[..i];
      if items[i].CommandData? {
        kept := kept + [items[i]];
      }
      i := i + 1;
    }
    assert items[..i] == items;
  }

  /** `add_command` for the name, then the `foreach ($aliases ...)` loop,
      every call with the same callable and args. */
  method AddCommandCalls(cmd: CommandItem, callable: Callable) returns (calls: seq<CliCommand>)
    requires cmd.CommandData?
    ensures calls == AddCommands(cmd, callable)
  {
    var args := CliArgs(cmd.description, cmd.synopsis, cmd.when);
    calls := [CliCommand(cmd.name, callable, args)];
    var k := 0;
    while k < |cmd.aliases|
      invariant 0 <= k <= |cmd.aliases|
      invariant calls == AddCommands(cmd, callable)[..k + 1]
    {
      assert AddCommands(cmd, callable)[..k + 2] == AddCommands(cmd, callable)[..k + 1] + [CliCommand(cmd.aliases[k], callable, args)];
      calls := calls + [CliCommand(cmd.aliases[k], callable, args)];
      k := k + 1;
    }
    assert AddCommands(cmd, callable)[..k + 1] == AddCommands(cmd, callable);
  }
}
