/** The protocol values the bridge passes around: JSON values, tool
    descriptors, JSON-RPC error data, and the Nexus operation calls that the
    bridge issues to its backend endpoint. */
module McpTypes {
  import opened Wrappers

  /** A JSON value. Numbers are integers only. */
  datatype Json =
    | JNull
    | JBool(b: bool)
    | JInt(n: int)
    | JString(s: string)
    | JArray(items: seq<Json>)
    | JObject(fields: map<string, Json>)

  /** A JSON object (a Python `dict[str, Any]`). */
  type Dict = map<string, Json>

  /** An MCP tool descriptor: `{name, description, inputSchema}`. */
  datatype Tool = Tool(name: string, description: Option<string>, inputSchema: Dict)

  /** The `error` member of a JSON-RPC error response. */
  datatype ErrorData = ErrorData(code: int, message: string)

  /** JSON-RPC 2.0 error codes used by the router. */
  const METHOD_NOT_FOUND: int := -32601
  const INVALID_PARAMS: int := -32602

  /** The MCP Nexus service and its one operation, which lists the tools of an endpoint. */
  const MCP_SERVICE: string := "MCP"
  const LIST_TOOLS_OPERATION: string := "ListTools"

  /** A Nexus operation call issued to an endpoint: either the MCP service's
      ListTools operation (input `None`), or a named operation of a named
      service with a JSON object as input. */
  datatype NexusCall =
    | ListToolsCall(endpoint: string)
    | OperationCall(endpoint: string, service: string, operation: string, arguments: Dict)
}
