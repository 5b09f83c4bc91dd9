/** The tool description shared by the tool host, the sandbox registry and the providers. */
module ToolTypes {
  import Json

  /** `ToolDefinition`: a tool's name, description and JSON input schema. */
  datatype ToolDefinition = ToolDefinition(name: string, description: string, inputSchema: Json.Object)
}
