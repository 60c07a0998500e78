/** The workflow-side MCP client: an in-workflow MCP server whose handlers
    turn `list_tools` and `call_tool` into Nexus calls to a fixed endpoint.
    Tool names are split at their first `'_'`, with no prefix stripping, no
    capitalization and no error when `'_'` is missing. */
module McpClient {
  import opened Text
  import opened McpTypes

  /** `MCPClient`: the endpoint fixed at construction. */
  datatype Client = Client(endpoint: string)

  /** `_handle_list_tools`: the MCP service's ListTools operation on the endpoint. */
  function HandleListTools(c: Client): (r: NexusCall)
    ensures r.ListToolsCall? && r.endpoint == c.endpoint
  {
    ListToolsCall(c.endpoint)
  }

  /** `_handle_call_tool`: the service is the text before the first `'_'`,
      the operation the text after it (empty when there is no `'_'`); the
      arguments go to the endpoint unchanged. */
  function HandleCallTool(c: Client, name: string, arguments: Dict): (r: NexusCall)
    ensures r.OperationCall? && r.endpoint == c.endpoint && r.arguments == arguments
    ensures '_' !in r.service
    ensures '_' in name ==> r.service + "_" + r.operation == name
    ensures '_' !in name ==> r.service == name && r.operation == ""
  {
    var (service, _, operation) := Partition(name, '_');
    OperationCall(c.endpoint, service, operation, arguments)
  }

  /** The tool name of the stateful-session scenario reaches operation
      `append` of service `TestService`. */
  lemma TestServiceAppendDecodes(c: Client, name: string, arguments: Dict)
    requires name == "TestService_append"
    ensures HandleCallTool(c, name, arguments) == OperationCall(c.endpoint, "TestService", "append", arguments)
  {
    assert name == "TestService" + "_" + "append";
    PartitionUnique(name, '_', "TestService", "append");
  }
}
