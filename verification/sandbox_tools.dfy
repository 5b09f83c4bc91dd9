/**
 * The sandbox's tool registry: tools that run in containers, keyed by name in
 * registration order, and listed to the model as plain tool definitions.
 */
module SandboxTools {
  import opened Wrappers
  import Json
  import OrderedMap
  import opened ToolTypes

  /** Where a tool runs; containers are the only environment. */
  datatype Environment = Docker

  /** `ToolRegistryEntry`: a tool's definition plus how to run it. */
  datatype Entry = Entry(name: string, description: string, inputSchema: Json.Object, image: string,
                         command: seq<string>, env: Environment, timeoutMs: Option<nat>)

  type Tools = OrderedMap.OMap<Entry>

  /** `register`: the entry is stored under its name, replacing any entry of that name. */
  function WithTool(tools: Tools, tool: Entry): (r: Tools)
    requires tools.Valid()
    ensures r.Valid()
  {
    OrderedMap.Set(tools, tool.name, tool)
  }

  /** `get`. */
  function Lookup(tools: Tools, name: string): Option<Entry>
  {
    OrderedMap.Get(tools, name)
  }

  /** `has`. */
  predicate Contains(tools: Tools, name: string)
  {
    name in tools.entries
  }

  /** An entry as the model sees it: name, description and input schema only. */
  function Definition(tool: Entry): ToolDefinition
  {
    ToolDefinition(tool.name, tool.description, tool.inputSchema)
  }

  /** `listTools`: one definition per entry, in registration order. */
  function Definitions(tools: Tools): (r: seq<ToolDefinition>)
    requires tools.Valid()
    ensures |r| == |tools.keys|
    ensures forall i :: 0 <= i < |r| ==> r[i] == Definition(tools.entries[tools.keys[i]])
  {
    seq(|tools.keys|, i requires 0 <= i < |tools.keys| => Definition(tools.entries[tools.keys[i]]))
  }

  /** After `register(t)`, `get(t.name)` is `t`, and every other name reads as before. */
  lemma LookupAfterRegister(tools: Tools, tool: Entry, name: string)
    requires tools.Valid()
    ensures Lookup(WithTool(tools, tool), name) == if name == tool.name then Some(tool) else Lookup(tools, name)
  {
  }

  /** `has(name)` holds exactly when `get(name)` is defined. */
  lemma ContainsIffLookup(tools: Tools, name: string)
    ensures Contains(tools, name) <==> Lookup(tools, name).Some?
  {
  }

  /**
   * Registering a new name appends its definition to the list; registering an existing
   * name replaces that definition where it stands.
   */
  lemma ListAfterRegister(tools: Tools, tool: Entry)
    requires tools.Valid()
    ensures tool.name !in tools.entries ==>
              Definitions(WithTool(tools, tool)) == Definitions(tools) + [Definition(tool)]
    ensures tool.name in tools.entries ==>
              |Definitions(WithTool(tools, tool))| == |Definitions(tools)| &&
              forall i :: 0 <= i < |Definitions(tools)| ==>
                Definitions(WithTool(tools, tool))[i] ==
                  if tools.keys[i] == tool.name then Definition(tool) else Definitions(tools)[i]
  {
    var r := WithTool(tools, tool);
    if tool.name !in tools.entries {
      assert r.keys == tools.keys + [tool.name];
      forall i | 0 <= i < |tools.keys| ensures r.keys[i] == tools.keys[i] && tools.keys[i] != tool.name {
        assert tools.keys[i] in tools.entries;
      }
    }
  }

  /** The registry object. */
  class ToolRegistry {
    var tools: Tools

    ghost predicate Valid()
      reads this
    {
      tools.Valid()
    }

    constructor ()
      ensures Valid() && tools.keys == []
    {
      tools := OrderedMap.Empty();
    }

    /** `register`. */
    method Register(tool: Entry)
      requires Valid()
      modifies this
      ensures Valid()
      ensures tools == WithTool(old(tools), tool)
    {
      tools := WithTool(tools, tool);
    }

    /** `get`. */
    function Get(name: string): Option<Entry>
      reads this
    {
      Lookup(tools, name)
    }

    /** `has`. */
    predicate Has(name: string)
      reads this
    {
      Contains(tools, name)
    }

    /** `listTools`. */
    function ListTools(): seq<ToolDefinition>
      requires Valid()
      reads this
    {
      Definitions(tools)
    }
  }
}
