/**
 * The part of Maven's project model the injector touches: a project whose
 * build maps plugin keys to plugins, a plugin's configuration, and Xpp3Dom
 * configuration nodes (a name, an optional text value, ordered children).
 */
module MavenModel {
  import opened Wrappers

  /** An Xpp3Dom node. */
  class Node {
    var name: string
    var value: Option<string>
    var children: seq<Node>

    /** `new Xpp3Dom(name)`: no value, no children. */
    constructor (name: string)
      ensures this.name == name && value == None && children == []
    {
      this.name := name;
      value := None;
      children := [];
    }

    /** `setValue`. */
    method SetValue(value: string)
      modifies this`value
      ensures this.value == Some(value)
    {
      this.value := Some(value);
    }

    /** `addChild`: appends the child after the existing ones. */
    method AddChild(child: Node)
      modifies this`children
      ensures children == old(children) + [child]
    {
      children := children + [child];
    }

    /** `getChild(name)`: the first child carrying that name, if any. */
    function GetChild(name: string): (r: Option<Node>)
      reads this`children, children`name
      ensures r.Some? ==> r.value in children && r.value.name == name
      ensures r.None? ==> forall c :: c in children ==> c.name != name
    {
      match FirstNamed(children, name)
      case None => None
      case Some(i) => Some(children[i])
    }
  }

  /** The position of the first node of `nodes` named `name`, if any. */
  function FirstNamed(nodes: seq<Node>, name: string): (r: Option<nat>)
    reads nodes`name
    ensures r.Some? ==> r.value < |nodes| && nodes[r.value].name == name
    ensures forall i :: 0 <= i < |nodes| && (r.None? || i < r.value) ==> nodes[i].name != name
  {
    if nodes == [] then None
    else if nodes[0].name == name then Some(0)
    else match FirstNamed(nodes[1..], name)
      case None => None
      case Some(i) => Some(i + 1)
  }

  /** A node named `name` placed after nodes of other names is the first one with that name. */
  lemma FirstNamedAtEnd(nodes: seq<Node>, name: string)
    requires |nodes| > 0 && nodes[|nodes| - 1].name == name
    requires forall i :: 0 <= i < |nodes| - 1 ==> nodes[i].name != name
    ensures FirstNamed(nodes, name) == Some(|nodes| - 1)
  {
  }

  /** A build plugin; only its configuration is modelled. */
  class Plugin {
    var configuration: Node?

    constructor (configuration: Node?)
      ensures this.configuration == configuration
    {
      this.configuration := configuration;
    }

    /** `setConfiguration`. */
    method SetConfiguration(configuration: Node)
      modifies this`configuration
      ensures this.configuration == configuration
    {
      this.configuration := configuration;
    }
  }

  /** A project's build section, through `getPluginsAsMap`: plugins by `groupId:artifactId`. */
  datatype Build = Build(pluginsByKey: map<string, Plugin>)

  /** A Maven project; `None` stands for a project without a build section. */
  class Project {
    var build: Option<Build>

    constructor (build: Option<Build>)
      ensures this.build == build
    {
      this.build := build;
    }
  }
}
