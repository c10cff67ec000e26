/**
 * Adding the generated arguments to the maven-compiler-plugin's
 * `<configuration><compilerArgs>` as one `<arg>` element each.
 */
module CompilerConfigInjection {
  import opened Wrappers
  import opened MavenModel

  const CompilerPluginGroupId: string := "org.apache.maven.plugins"
  const CompilerPluginArtifactId: string := "maven-compiler-plugin"
  /** The key under which `getPluginsAsMap` files the compiler plugin. */
  const CompilerPluginKey: string := CompilerPluginGroupId + ":" + CompilerPluginArtifactId

  /** Element names of the compiler plugin's configuration tree. */
  const ConfigurationElement: string := "configuration"
  const CompilerArgsElement: string := "compilerArgs"
  const ArgElement: string := "arg"

  /** Why injection stopped: the build has no maven-compiler-plugin. */
  datatype InjectError = CompilerPluginNotFound

  /** An `<arg>` element holding `arg` as its text and nothing else. */
  predicate IsArgNode(n: Node, arg: string)
    reads n
  {
    n.name == ArgElement && n.value == Some(arg) && n.children == []
  }

  /** `nodes` are `<arg>` elements for `args`, in the same order. */
  predicate ArgNodes(nodes: seq<Node>, args: seq<string>)
    reads nodes
  {
    |nodes| == |args| && forall i :: 0 <= i < |args| ==> IsArgNode(nodes[i], args[i])
  }

  /** `<arg>` elements for two argument lists, one after the other, are the elements for the joined list. */
  lemma ArgNodesConcat(nodes: seq<Node>, args: seq<string>, more: seq<Node>, moreArgs: seq<string>)
    requires ArgNodes(nodes, args) && ArgNodes(more, moreArgs)
    ensures ArgNodes(nodes + more, args + moreArgs)
  {
    forall i | |args| <= i < |args| + |moreArgs|
      ensures IsArgNode((nodes + more)[i], (args + moreArgs)[i])
    {
      assert (nodes + more)[i] == more[i - |args|];
    }
  }

  /** `nodes` are freshly allocated `<arg>` elements for `args`, in the same order, one distinct node each. */
  twostate predicate FreshArgNodes(new nodes: seq<Node>, args: seq<string>)
    reads nodes
  {
    ArgNodes(nodes, args) && (forall i :: 0 <= i < |nodes| ==> fresh(nodes[i])) &&
    forall i, j :: 0 <= i < j < |nodes| ==> nodes[i] != nodes[j]
  }

  /** The compiler plugin of `project`: none without a build section, else the plugin under the compiler key, if any. */
  function CompilerPluginOf(project: Project): (r: Option<Plugin>)
    reads project
    ensures r.Some? <==> project.build.Some? && CompilerPluginKey in project.build.value.pluginsByKey
    ensures r.Some? ==> r.value == project.build.value.pluginsByKey[CompilerPluginKey]
  {
    match project.build
    case None => None
    case Some(build) =>
      if CompilerPluginKey in build.pluginsByKey then Some(build.pluginsByKey[CompilerPluginKey]) else None
  }

  /** The `<compilerArgs>` element of a configuration, as a set of at most one node. */
  function CompilerArgsSet(configuration: Node): (r: set<Node>)
    reads configuration, configuration.children
    ensures |r| <= 1
  {
    match configuration.GetChild(CompilerArgsElement)
    case None => {}
    case Some(compilerArgs) => {compilerArgs}
  }

  /**
   * The tree shape the injector relies on: the `<compilerArgs>` element, if
   * any, is neither the configuration itself nor one of its own children, and
   * the configuration is not one of its children.
   */
  predicate ConfigurationWellShaped(configuration: Node)
    reads configuration, configuration.children
  {
    match configuration.GetChild(CompilerArgsElement)
    case None => true
    case Some(compilerArgs) =>
      compilerArgs != configuration &&
      compilerArgs !in compilerArgs.children && configuration !in compilerArgs.children
  }

  /** What injecting into a plugin may change: the plugin, its configuration and that configuration's `<compilerArgs>`. */
  function PluginFootprint(plugin: Plugin): set<object>
    reads plugin, plugin.configuration
    reads if plugin.configuration == null then [] else plugin.configuration.children
  {
    if plugin.configuration == null then {plugin}
    else {plugin, plugin.configuration} + CompilerArgsSet(plugin.configuration)
  }

  /** What `injectCompilerArgs` may change in `project`: nothing outside its compiler plugin's footprint. */
  ghost function Footprint(project: Project): set<object>
    reads *
  {
    match CompilerPluginOf(project)
    case None => {}
    case Some(plugin) => PluginFootprint(plugin)
  }

  /** The compiler plugin's configuration, if both exist, is well shaped. */
  ghost predicate WellShaped(project: Project)
    reads *
  {
    match CompilerPluginOf(project)
    case None => true
    case Some(plugin) => plugin.configuration == null || ConfigurationWellShaped(plugin.configuration)
  }

  /**
   * The effect of appending `args` under an existing configuration: its
   * `<compilerArgs>` is the old one or, when it had none, a fresh empty one
   * appended after its other children; the old children of `<compilerArgs>`
   * are kept, untouched, and followed by one fresh `<arg>` per argument, in
   * order; `getChild("compilerArgs")` finds that element afterwards. The
   * configuration keeps its name and value.
   */
  twostate predicate CompilerArgsExtended(configuration: Node, args: seq<string>)
    reads *
  {
    configuration.name == old(configuration.name) && configuration.value == old(configuration.value) &&
    match configuration.GetChild(CompilerArgsElement)
    case None => false
    case Some(compilerArgs) =>
      if old(configuration.GetChild(CompilerArgsElement)) == Some(compilerArgs) then
        configuration.children == old(configuration.children) &&
        unchanged(old(compilerArgs.children)) &&
        compilerArgs.name == CompilerArgsElement && compilerArgs.value == old(compilerArgs.value) &&
        |compilerArgs.children| == |old(compilerArgs.children)| + |args| &&
        compilerArgs.children[..|old(compilerArgs.children)|] == old(compilerArgs.children) &&
        FreshArgNodes(compilerArgs.children[|old(compilerArgs.children)|..], args)
      else
        old(configuration.GetChild(CompilerArgsElement)) == None &&
        fresh(compilerArgs) && compilerArgs.name == CompilerArgsElement && compilerArgs.value == None &&
        configuration.children == old(configuration.children) + [compilerArgs] &&
        FreshArgNodes(compilerArgs.children, args)
  }

  /**
   * The effect of a successful non-empty injection on `plugin`: an existing
   * configuration is kept and extended as `CompilerArgsExtended` says; a
   * missing one is replaced by a fresh `<configuration>` whose only child is
   * a fresh `<compilerArgs>` holding one fresh `<arg>` per argument.
   */
  twostate predicate ArgsInjected(plugin: Plugin, args: seq<string>)
    reads *
  {
    var configuration := plugin.configuration;
    configuration != null &&
    if old(plugin.configuration) != null then
      configuration == old(plugin.configuration) && CompilerArgsExtended(configuration, args)
    else
      fresh(configuration) && configuration.name == ConfigurationElement && configuration.value == None &&
      |configuration.children| == 1 &&
      var compilerArgs := configuration.children[0];
      fresh(compilerArgs) && compilerArgs.name == CompilerArgsElement && compilerArgs.value == None &&
      FreshArgNodes(compilerArgs.children, args)
  }

  /**
   * The configuration's first `<compilerArgs>` child, or a fresh empty one
   * appended to the configuration when it has none; either way it is what
   * `getChild("compilerArgs")` finds afterwards.
   */
  method GetOrCreateCompilerArgs(configuration: Node) returns (compilerArgs: Node)
    modifies configuration`children
    ensures configuration.GetChild(CompilerArgsElement) == Some(compilerArgs)
    ensures old(configuration.GetChild(CompilerArgsElement)).Some? ==>
      old(configuration.GetChild(CompilerArgsElement)) == Some(compilerArgs) && configuration.children == old(configuration.children)
    ensures old(configuration.GetChild(CompilerArgsElement)).None? ==>
      fresh(compilerArgs) && compilerArgs.name == CompilerArgsElement && compilerArgs.value == None && compilerArgs.children == [] &&
      configuration.children == old(configuration.children) + [compilerArgs]
  {
    var existing := configuration.GetChild(CompilerArgsElement);
    if existing.None? {
      compilerArgs := new Node(CompilerArgsElement);
      configuration.AddChild(compilerArgs);
      FirstNamedAtEnd(configuration.children, CompilerArgsElement);
    } else {
      compilerArgs := existing.value;
    }
  }

  /** Appends one fresh `<arg>` child per argument to `compilerArgs`, in order. */
  method AppendArgNodes(compilerArgs: Node, args: seq<string>)
    modifies compilerArgs`children
    ensures |compilerArgs.children| == |old(compilerArgs.children)| + |args|
    ensures compilerArgs.children[..|old(compilerArgs.children)|] == old(compilerArgs.children)
    ensures FreshArgNodes(compilerArgs.children[|old(compilerArgs.children)|..], args)
    ensures compilerArgs !in compilerArgs.children[|old(compilerArgs.children)|..]
  {
    ghost var before := compilerArgs.children;
    for i := 0 to |args|
      invariant |compilerArgs.children| == |before| + i
      invariant compilerArgs.children[..|before|] == before
      invariant compilerArgs !in compilerArgs.children[|before|..]
      invariant FreshArgNodes(compilerArgs.children[|before|..], args[..i])
    {
      ghost var added := compilerArgs.children[|before|..];
      var argNode := new Node(ArgElement);
      argNode.SetValue(args[i]);
      compilerArgs.AddChild(argNode);
      assert compilerArgs.children[|before|..] == added + [argNode];
      assert args[..i + 1] == args[..i] + [args[i]];
    }
    assert args[..|args|] == args;
  }

  /**
   * Get or create `<compilerArgs>` under `configuration`, then append one
   * `<arg>` per argument to it.
   */
  method ExtendCompilerArgs(configuration: Node, args: seq<string>)
    requires ConfigurationWellShaped(configuration)
    modifies configuration, CompilerArgsSet(configuration)
    ensures CompilerArgsExtended(configuration, args) && ConfigurationWellShaped(configuration)
  {
    var compilerArgs := GetOrCreateCompilerArgs(configuration);
    ghost var before := compilerArgs.children;
    assert forall n :: n in before ==> n != compilerArgs && n != configuration;
    AppendArgNodes(compilerArgs, args);
    assert compilerArgs.children == before + compilerArgs.children[|before|..];
    assert configuration.GetChild(CompilerArgsElement) == Some(compilerArgs);
  }

  /**
   * The part of `injectCompilerArgs` after the plugin lookup: get or create
   * the configuration, then extend its `<compilerArgs>`.
   */
  method InjectInto(plugin: Plugin, args: seq<string>)
    requires plugin.configuration == null || ConfigurationWellShaped(plugin.configuration)
    modifies PluginFootprint(plugin)
    ensures ArgsInjected(plugin, args) && ConfigurationWellShaped(plugin.configuration)
  {
    var configuration := plugin.configuration;
    if configuration == null {
      configuration := new Node(ConfigurationElement);
      plugin.SetConfiguration(configuration);
      var compilerArgs := GetOrCreateCompilerArgs(configuration);
      AppendArgNodes(compilerArgs, args);
      assert configuration.children == [compilerArgs];
      assert compilerArgs.children == compilerArgs.children[0..];
      assert configuration !in compilerArgs.children;
    } else {
      ExtendCompilerArgs(configuration, args);
    }
  }

  /** `CompilerConfigInjector`: adds arguments to one project's compiler configuration. */
  class CompilerConfigInjector {
    const project: Project

    constructor (project: Project)
      ensures this.project == project
    {
      this.project := project;
    }

    /** `findCompilerPlugin`: the plugin under the compiler key, none without a build section. */
    function FindCompilerPlugin(): (r: Option<Plugin>)
      reads project
      ensures r.Some? <==> project.build.Some? && CompilerPluginKey in project.build.value.pluginsByKey
      ensures r.Some? ==> r.value == project.build.value.pluginsByKey[CompilerPluginKey]
    {
      CompilerPluginOf(project)
    }

    /**
     * `injectCompilerArgs`: no-op for an empty list, an error when the build
     * has no compiler plugin (nothing changes), otherwise `ArgsInjected`.
     */
    method InjectCompilerArgs(nullawayArgs: seq<string>) returns (result: Outcome<InjectError>)
      requires WellShaped(project)
      modifies Footprint(project)
      ensures nullawayArgs == [] ==> result == Pass && unchanged(old(Footprint(project)))
      ensures nullawayArgs != [] && CompilerPluginOf(project).None? ==> result == Fail(CompilerPluginNotFound)
      ensures nullawayArgs != [] && CompilerPluginOf(project).Some? ==>
        result == Pass && ArgsInjected(CompilerPluginOf(project).value, nullawayArgs)
      ensures WellShaped(project) && unchanged(project)
    {
      if nullawayArgs == [] {
        return Pass;
      }
      var found := FindCompilerPlugin();
      if found.None? {
        return Fail(CompilerPluginNotFound);
      }
      InjectInto(found.value, nullawayArgs);
      result := Pass;
    }
  }

  /** The configuration's `<compilerArgs>` element exists and its last children are `<arg>` elements for `args`. */
  ghost predicate ArgsAtEnd(plugin: Plugin, args: seq<string>)
    reads *
  {
    plugin.configuration != null &&
    match plugin.configuration.GetChild(CompilerArgsElement)
    case None => false
    case Some(compilerArgs) =>
      |compilerArgs.children| >= |args| &&
      ArgNodes(compilerArgs.children[|compilerArgs.children| - |args|..], args)
  }

  /**
   * One injection: the plugin whose configuration receives the arguments and
   * the arguments themselves.
   */
  datatype Injection = Injection(plugin: Plugin, args: seq<string>)

  /** After an injection the injected arguments close the `<compilerArgs>` element. */
  twostate lemma InjectedArgsAtEnd(injection: Injection)
    requires ArgsInjected(injection.plugin, injection.args)
    ensures ArgsAtEnd(injection.plugin, injection.args)
  {
    var args := injection.args;
    var configuration := injection.plugin.configuration;
    if old(injection.plugin.configuration) == null {
      FirstNamedAtEnd(configuration.children, CompilerArgsElement);
    } else {
      var compilerArgs := configuration.GetChild(CompilerArgsElement).value;
      if old(configuration.GetChild(CompilerArgsElement)) == Some(compilerArgs) {
        assert compilerArgs.children[|compilerArgs.children| - |args|..] == compilerArgs.children[|old(compilerArgs.children)|..];
      }
    }
  }

  /**
   * Injecting into a `<compilerArgs>` that already ends with `args` leaves
   * `args` there twice: nothing is deduplicated.
   */
  twostate lemma {:induction false} InjectedAgainAtEnd(injection: Injection)
    requires old(ArgsAtEnd(injection.plugin, injection.args)) && ArgsInjected(injection.plugin, injection.args)
    ensures ArgsAtEnd(injection.plugin, injection.args + injection.args)
  {
    var args := injection.args;
    var configuration := injection.plugin.configuration;
    var compilerArgs := old(configuration.GetChild(CompilerArgsElement)).value;
    var firstChildren := old(compilerArgs.children);
    var firstArgs := firstChildren[|firstChildren| - |args|..];
    assert configuration.GetChild(CompilerArgsElement) == Some(compilerArgs);
    var children := compilerArgs.children;
    var secondArgs := children[|firstChildren|..];
    assert ArgNodes(firstArgs, args) by {
      forall i | 0 <= i < |args|
        ensures IsArgNode(firstArgs[i], args[i])
      {
        assert old(IsArgNode(firstArgs[i], args[i]));
        assert firstArgs[i] in firstChildren;
      }
    }
    assert children[|children| - 2 * |args|..] == firstArgs + secondArgs by {
      assert children[..|firstChildren|] == firstChildren;
    }
    ArgNodesConcat(firstArgs, args, secondArgs, args);
  }

  /**
   * Injecting the same arguments twice leaves them twice at the end of
   * `<compilerArgs>`: the injector appends and never deduplicates.
   */
  method InjectTwice(injector: CompilerConfigInjector, args: seq<string>) returns (first: Outcome<InjectError>, second: Outcome<InjectError>)
    requires WellShaped(injector.project)
    modifies Footprint(injector.project)
    ensures args != [] && CompilerPluginOf(injector.project).Some? ==>
      first == Pass && second == Pass && ArgsAtEnd(CompilerPluginOf(injector.project).value, args + args)
  {
    var plugin := injector.FindCompilerPlugin();
    first := injector.InjectCompilerArgs(args);
    if args != [] && plugin.Some? {
      InjectedArgsAtEnd(Injection(plugin.value, args));
    }
    label Mid:
    second := injector.InjectCompilerArgs(args);
    if args != [] && plugin.Some? {
      InjectedAgainAtEnd@Mid(Injection(plugin.value, args));
    }
  }
}
