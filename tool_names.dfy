/** How the three tool-name conventions of the bridge fit together: the
    catalog's `"service/operation"` names, the transport's split at the first
    `'/'`, the gateway's flattened `"service_operation"` names, and the
    workflow client's split at the first `'_'`. */
module ToolNames {
  import opened Wrappers
  import opened Text
  import opened McpTypes
  import opened ServiceHandler
  import NexusTransport
  import InboundGateway
  import McpClient

  /** Calling a tool by the name the catalog gave it reaches exactly the
      service and operation it was derived from, because registration keeps
      '/' out of service names. */
  lemma CatalogNameRoundTrip(t: NexusTransport.Transport, service: ServiceDefn, tool: ToolEntry, arguments: Dict)
    requires '/' !in service.name
    ensures NexusTransport.DecodeCall(t, NexusTransport.CallToolParams(ToMcpTool(service, tool).name, Some(arguments)))
         == OperationCall(t.endpoint, service.name, tool.defn.name, arguments)
  {
    ToMcpToolSpec(service, tool);
  }

  /** Every tool a handler lists decodes, in the transport, to an operation
      of a service registered with that handler. */
  lemma {:induction false} ListedToolsDecode(t: NexusTransport.Transport, h: MCPServiceHandler, k: nat, arguments: Dict)
    requires h.Valid() && k < |h.ListTools()|
    ensures exists i, j :: && 0 <= i < |h.toolServices| && 0 <= j < |h.toolServices[i].tools|
                           && h.toolServices[i].tools[j].defn in h.toolServices[i].defn.operations
                           && NexusTransport.DecodeCall(t, NexusTransport.CallToolParams(h.ListTools()[k].name, Some(arguments)))
                              == OperationCall(t.endpoint, h.toolServices[i].defn.name, h.toolServices[i].tools[j].defn.name, arguments)
  {
    var ss := h.toolServices;
    FlattenFrom(ss, k);
    var i, j :| 0 <= i < |ss| && 0 <= j < |ss[i].tools| && Flatten(ss)[k] == ToMcpTool(ss[i].defn, ss[i].tools[j]);
    assert WellFormed(ss[i]);
    assert ss[i].tools[j] in ss[i].tools;
    CatalogNameRoundTrip(t, ss[i].defn, ss[i].tools[j], arguments);
  }

  /** Where the gateway accepts a name without a client prefix, the workflow
      client splits it the same way, except that the gateway capitalizes the
      service. */
  lemma GatewayAgreesWithClient(g: InboundGateway.Gateway, c: McpClient.Client, name: string, arguments: Dict)
    requires !Contains(name, "__") && InboundGateway.HandleCallTool(g, name, arguments).Ok?
    ensures var run := InboundGateway.HandleCallTool(g, name, arguments).value.callInput;
            var call := McpClient.HandleCallTool(c, name, arguments);
            && run.service == Capitalize(call.service)
            && run.operation == call.operation
            && run.arguments == call.arguments
  {
    var (service, operation) := InboundGateway.ParseToolName(name).value;
    PartitionUnique(name, '_', service, operation);
  }

  /** A name without `'_'` is refused by the gateway but sent by the workflow
      client as a call of the whole name with an empty operation. */
  lemma MissingUnderscoreOnlyGatewayRefuses(g: InboundGateway.Gateway, c: McpClient.Client, name: string, arguments: Dict)
    requires '_' !in name
    ensures InboundGateway.HandleCallTool(g, name, arguments) == Err(InboundGateway.InvalidToolName(name))
    ensures McpClient.HandleCallTool(c, name, arguments) == OperationCall(c.endpoint, name, "", arguments)
  {
    forall j | 0 <= j && j + 2 <= |name| ensures !OccursAt(name, "__", j) {
      assert name[j] != '_';
    }
    assert InboundGateway.StripClientPrefix(name) == name;
  }

  /** The gateway cannot call a tool by the name the catalog lists for it
      when neither the service nor the operation name contains `'_'`: the
      catalog joins them with `'/'`, and the gateway demands a `'_'`. */
  lemma CatalogNameRefusedByGateway(g: InboundGateway.Gateway, service: ServiceDefn, tool: ToolEntry, arguments: Dict)
    requires '_' !in service.name && '_' !in tool.defn.name
    ensures var name := ToMcpTool(service, tool).name;
            InboundGateway.HandleCallTool(g, name, arguments) == Err(InboundGateway.InvalidToolName(name))
  {
    var name := ToMcpTool(service, tool).name;
    assert name == service.name + "/" + tool.defn.name;
    assert '_' !in name;
    MissingUnderscoreOnlyGatewayRefuses(g, McpClient.Client(g.endpoint), name, arguments);
  }
}
