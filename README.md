# nexus-mcp bridge, modelled in Dafny

This project models the core of nexus-mcp, a bridge between the Model
Context Protocol (MCP) and Nexus RPC operations running on Temporal. The
model has four parts:

- **Tool catalog** (`ServiceHandler`). `MCPServiceHandler` is modelled as a
  class whose registry field the methods update.
  - `register` checks that the class is a Nexus service and that the service
    name has no `'/'`.
  - It resolves each operation's handler as `method_name or name`, rejects
    handlers that are missing or not callable, and skips handlers marked by
    `exclude`.
  - If every check passes, it appends one entry to the registry.
  - `list_tools` lists every tool as `"<service>/<operation>"`. The
    description is the stripped docstring, or None when the handler has no
    docstring. The input schema is the operation's own, or `{}` when the
    operation has no input model.
- **Inbound gateway** (`InboundGateway`). It turns `list_tools` and
  `call_tool` into runs of the proxy workflows on the task queue
  `"nexus-proxy-queue"`.
  - Tool names arrive flattened as `service_operation`.
  - The gateway drops any client prefix up to the last `"__"`, splits the
    rest at its first `'_'`, and requires both parts to be non-empty.
  - It then capitalizes the service name.
- **In-workflow transport** (`NexusTransport`). The JSON-RPC message router
  is modelled as a `method` with a loop and is proved against a fold over
  the inbox (`Run`).
  - It skips messages that are not requests.
  - It answers `initialize` itself.
  - It forwards `tools/list` and `tools/call` as Nexus calls. A `tools/call`
    name is split at its first `'/'`.
  - It answers an unknown method with `METHOD_NOT_FOUND` and invalid
    parameters with `INVALID_PARAMS`.
  - It writes exactly one response per request, carrying that request's id,
    until a Nexus call raises.
- **Workflow MCP client** (`McpClient`). It splits tool names at their first
  `'_'`. It does no prefix stripping, no capitalization and no error
  handling.

`Text` models the Python `str` operations the code relies on: `in`, `find`,
`partition`, `rpartition`, `capitalize` and `strip`. The code never calls
`rfind`; `Text.RFind` is the last-occurrence search behind `rpartition`. `ToolNames`
proves how the naming conventions of the four parts fit together.

Where the code, its comments and its tests disagree, or where a reader might
expect a check the code does not make, the model follows the code:

- Catalog names use `'/'` as the separator (`service_handler.py:54`). The
  test files disagree with each other on the separator:
  - `tests/test_workflow_caller.py:35-38` expects and calls the code's `'/'`
    names.
  - `tests/test_service.py:30-31` and `tests/test_inbound_gateway.py:81-84`
    expect and call `'.'` names.
  - `tests/test_stateful_session.py:93-94` and `:134` use `'_'` names
    (`"TestService_append"`).

  The scenario lemmas state the code's `'/'` names.
- `tests/service.py:26` and `tests/test_service.py:10-13` use
  `tool_service`/`tool_services` where the code says `register` and
  `_tool_services`; `tests/test_stateful_session.py:55` uses `register`, as
  the code does.
- The gateway refuses every catalog name whose service and operation
  contain no `'_'` (`CatalogNameRefusedByGateway`). The catalog joins the two
  with `'/'` (`service_handler.py:54`), and the gateway requires a `'_'`
  (`inbound_gateway.py:106-108`). So the gateway's `call_tool` cannot reach
  such a tool by its listed name; the call at
  `tests/test_inbound_gateway.py:84` is refused in the model.
- The code does not check tool names for length or characters (for
  instance against a 1–64 character `[A-Za-z0-9_-]` pattern, which some MCP
  clients expect). Its only check on names at registration is the `'/'`
  check; the gateway checks names again at call time
  (`inbound_gateway.py:106-114`).
- The gateway restores the service name with the `capitalize` heuristic,
  whose comment assumes PascalCase service names
  (`inbound_gateway.py:116-119`). It keeps no table from flattened names back
  to the original names. The
  model proves exactly when the heuristic restores the name
  (`FlattenedServiceRestored`), and exhibits a name it does not restore
  (`MultiWordServiceNotRestored`).
- A missing handler attribute makes `getattr` raise `AttributeError`, not
  `ValueError`. The model reports it as `MissingAttribute`.

## Model

| member | source | states |
|---|---|---|
| Text.Contains | nexusmcp/inbound_gateway.py:100 | definition: Python's `sep in s`, i.e. `sep` occurs at some index of `s`; `RFind`'s and `StripClientPrefix`'s contracts state what follows from it |
| Text.IndexOf | nexusmcp/inbound_gateway.py:106-108 | `find`: -1 exactly when the character is absent; otherwise the index of its first occurrence |
| Text.RFind | nexusmcp/inbound_gateway.py:100-101 | the last-occurrence search behind `rpartition`, as `rfind`: -1 exactly when the separator does not occur; otherwise the position of its last occurrence |
| Text.RPartition | nexusmcp/inbound_gateway.py:101 | `rpartition`: before + separator + after rebuilds the string, split at the last occurrence; `("", "", s)` when the separator is absent |
| Text.Partition | nexusmcp/nexus_transport.py:122 | `partition`: before + separator + after rebuilds the string, and the separator does not occur in `before`; `(s, "", "")` when the separator is absent |
| Text.PartitionUnique | nexusmcp/workflow/mcp_client.py:61 | a string of the form `before + c + after`, with `c` not in `before`, partitions into exactly those parts |
| Text.Capitalize | nexusmcp/inbound_gateway.py:119 | `capitalize`: same length, first character upper-cased, every later character lower-cased |
| Text.CapitalizeFixedPoints | nexusmcp/inbound_gateway.py:119 | `capitalize` always yields a capitalized string, is idempotent, and leaves a string unchanged exactly when it is already capitalized |
| Text.CapitalizeKeepsNonLetter | nexusmcp/inbound_gateway.py:119 | capitalizing neither adds nor removes a non-letter character such as `'_'` |
| Text.StripPadded | nexusmcp/service_handler.py:55 | stripping text padded with whitespace on both sides gives the text back |
| Text.Strip | nexusmcp/service_handler.py:55 | `strip`: the result is the slice of the input that starts at its first non-whitespace character; it neither starts nor ends with whitespace, and only whitespace follows it |
| ServiceHandler.Exclude | nexusmcp/service_handler.py:163-193 | `exclude` makes the handler not exposed and leaves it callable, with its docstring unchanged |
| ServiceHandler.Exposes | nexusmcp/service_handler.py:134 | definition: a handler is exposed unless its marker is present and false; `Exclude` makes it false |
| ServiceHandler.AttrName | nexusmcp/service_handler.py:129 | definition: the operation's method name when set and non-empty, else its name; `RegistrationOutcome` and `CollectToolsFails` state the `MissingAttribute`/`NotCallable` errors, which carry this name |
| ServiceHandler.ToMcpTool | nexusmcp/service_handler.py:53-61 | definition: the descriptor `service/op`, the stripped docstring or None, the schema or `{}`; its contract is `ToMcpToolSpec` |
| ServiceHandler.ToolFor | nexusmcp/service_handler.py:129-136 | definition: one loop pass, which is a missing-attribute error, a not-callable error, a skip for an excluded handler, or one tool bound to its handler, checked in that order; its contract is stated through `CollectToolsFails` and `CollectToolsKeeps` |
| ServiceHandler.CollectTools | nexusmcp/service_handler.py:127-136 | definition: the loop over the operations as a fold that stops at the first error; its contract is `CollectToolsErrSticks`, `CollectToolsFails` and `CollectToolsKeeps` |
| ServiceHandler.Registration | nexusmcp/service_handler.py:119-138 | definition: the service check, the `'/'` check, then the loop; its contract is `RegistrationOutcome` |
| ServiceHandler.ToMcpToolSpec | nexusmcp/service_handler.py:53-61 | for a service name without `'/'`, the tool name partitions at its first `'/'` into service name and operation name; the description is the stripped docstring exactly when there is one; the schema is the operation's own, or `{}` |
| ServiceHandler.ListedOps | nexusmcp/service_handler.py:127-136 | the operations that become tools are among the service's operations, each resolving and not excluded |
| ServiceHandler.CollectToolsErrSticks | nexusmcp/service_handler.py:127-132 | once the loop raises, later operations do not change the outcome |
| ServiceHandler.CollectToolsFails | nexusmcp/service_handler.py:127-132 | the loop succeeds exactly when every operation's handler exists and is callable, whatever its exclusion marker says; otherwise it fails with the error of the first operation that does not resolve |
| ServiceHandler.CollectToolsKeeps | nexusmcp/service_handler.py:127-136 | on success the collected tools are exactly the non-excluded operations, in declaration order, each bound to its own handler |
| ServiceHandler.RegistrationOutcome | nexusmcp/service_handler.py:119-138 | registration succeeds exactly when the class is a Nexus service, its name has no `'/'` and every handler resolves; the error for each failure case, and for a missing or non-callable handler the error of the first operation whose handler does not resolve; on success the entry holds the service and its listed operations |
| ServiceHandler.ServiceTools | nexusmcp/service_handler.py:156 | one descriptor per tool of the service, in order |
| ServiceHandler.Flatten | nexusmcp/service_handler.py:156 | the listing has as many entries as the registered services have tools in total |
| ServiceHandler.FlattenSnoc | nexusmcp/service_handler.py:138 | listing a registry with one service appended lists the old registry first, then the new service's tools |
| ServiceHandler.FlattenAt | nexusmcp/service_handler.py:156 | tool `j` of service `i` is listed at position `ToolCount(services[..i]) + j`, ordered by registration and then by declaration |
| ServiceHandler.FlattenFrom | nexusmcp/service_handler.py:156 | every listed entry is the descriptor of some tool of some registered service |
| ServiceHandler.TestServiceRegistration | tests/test_service.py:10-13 | the test service registers with exactly two tools, `op1` and `op2`, in that order, each bound to its own handler; the excluded `op3` is dropped |
| ServiceHandler.DescribedTool | nexusmcp/service_handler.py:53-55 | a tool whose docstring is its text on its own line, indented by eight spaces, is described by that text |
| ServiceHandler.TestServiceListing | tests/test_service.py:29-35 | the test service lists two tools: `modified-service-name/modified-op-name` and `modified-service-name/op2`, with the stripped docstrings and the input model's schema |
| ServiceHandler.MCPServiceHandler.constructor | nexusmcp/service_handler.py:96-98 | a new handler has an empty registry and lists no tools |
| ServiceHandler.MCPServiceHandler.ListTools | nexusmcp/service_handler.py:141-156 | the listing has one entry per registered tool |
| ServiceHandler.MCPServiceHandler.Register | nexusmcp/service_handler.py:100-139 | succeeds exactly when `Registration` does, and then returns the class and appends exactly that one entry; otherwise raises the same error and leaves the registry unchanged; the listing grows by exactly the new service's tools; every entry stays well formed |
| InboundGateway.NewGateway | nexusmcp/inbound_gateway.py:44-54 | the gateway keeps its endpoint and uses the task queue `"nexus-proxy-queue"` |
| InboundGateway.HandleListTools | nexusmcp/inbound_gateway.py:56-74 | one `ToolListWorkflow` run for the gateway's endpoint on its task queue |
| InboundGateway.StripClientPrefix | nexusmcp/inbound_gateway.py:99-103 | the text after the last `"__"`, or the whole name when there is none; no `"__"` is left |
| InboundGateway.SplitAtFirstUnderscore | nexusmcp/inbound_gateway.py:105-114 | when it returns a split, that split is a non-empty service without `'_'`, a `'_'`, and a non-empty operation |
| InboundGateway.ParseToolName | nexusmcp/inbound_gateway.py:99-114 | on error, the error names the whole input; on success, the prefix-free name is `service + "_" + operation` with both parts non-empty and no `'_'` in the service |
| InboundGateway.ParseToolNameAccepts | nexusmcp/inbound_gateway.py:105-114 | a name is accepted exactly when such a split exists, and the accepted split is the only one |
| InboundGateway.HandleCallTool | nexusmcp/inbound_gateway.py:76-130 | fails exactly when parsing fails, with `InvalidToolName(name)`; otherwise one `ToolCallWorkflow` run on the gateway's endpoint and queue, with the capitalized service, the operation, and the arguments unchanged |
| InboundGateway.ParseFlattenedName | nexusmcp/inbound_gateway.py:99-114 | a flattened `service + "_" + operation` whose service has no `'_'` and which contains no `"__"` parses back to the pair |
| InboundGateway.CapitalizeIgnoresCase | nexusmcp/inbound_gateway.py:116-119 | capitalizing a lower-cased service gives the same result as capitalizing the original |
| InboundGateway.FlattenedServiceRestored | nexusmcp/inbound_gateway.py:116-119 | a lower-cased, flattened service is forwarded as `capitalize(service)`, which is the original service exactly when that is already capitalized |
| InboundGateway.MultiWordServiceNotRestored | nexusmcp/inbound_gateway.py:116-119 | `"weatherservice_get_forecast"` reaches service `"Weatherservice"` and operation `"get_forecast"`, not `"WeatherService"` |
| NexusTransport.ParseMethod | nexusmcp/nexus_transport.py:58-72 | the recognised method names back to the string; `Unknown` exactly for strings other than the three handled methods |
| NexusTransport.HandleInitialize | nexusmcp/nexus_transport.py:102-111 | protocol version `2024-11-05`, the tools capability, server `nexus-mcp-transport` version `0.1.0` |
| NexusTransport.DecodeCall | nexusmcp/nexus_transport.py:121-130 | the service has no `'/'` and `service + "/" + operation` rebuilds the name; a name without `'/'` is all service with an empty operation; missing arguments become `{}` |
| NexusTransport.WrapResult | nexusmcp/nexus_transport.py:131-134 | structured content exactly when the result is a dict, and then no content items; otherwise one text item holding `str(result)` |
| NexusTransport.InvalidParams | nexusmcp/nexus_transport.py:73-74 | definition: an `INVALID_PARAMS` error whose message is `"Invalid request: "` followed by the validation detail; `Dispatch` and `InvalidParamsIsLocal` state where it is used |
| NexusTransport.ResultResponse | nexusmcp/nexus_transport.py:145-152 | a JSON-RPC 2.0 response with the request's id carrying the result |
| NexusTransport.ErrorResponse | nexusmcp/nexus_transport.py:136-143 | a JSON-RPC 2.0 response with the request's id carrying the error |
| NexusTransport.CallsOf | nexusmcp/nexus_transport.py:58-74 | a request causes at most one Nexus call |
| NexusTransport.Dispatch | nexusmcp/nexus_transport.py:56-80 | per method: the initialize answer or `INVALID_PARAMS`; the tool list; `INVALID_PARAMS` for call parameters that fail validation, else the wrapped result of the decoded call; `METHOD_NOT_FOUND` naming an unknown method; only a Nexus call can raise |
| NexusTransport.Step | nexusmcp/nexus_transport.py:52-82 | definition: one loop iteration, which skips a non-request or a crashed state, and otherwise dispatches the request and either appends its response or records the crash; its contract is stated through `Run`'s lemmas `NonRequestsIgnored`, `CrashIsFinal`, `RunCorrelates` and `RunForwardsCallsInOrder` |
| NexusTransport.Run | nexusmcp/nexus_transport.py:50-87 | definition: the router's state after the inbox, as a fold of `Step`; its contract is `RunCorrelates`, `RunForwardsCallsInOrder`, `CrashIsFinal` and `NonRequestsIgnored`, and `Route` is proved equal to it |
| NexusTransport.Route | nexusmcp/nexus_transport.py:50-87 | the loop's responses, issued calls and crash flag equal the fold `Run` of the dispatch over the inbox |
| NexusTransport.CrashIsFinal | nexusmcp/nexus_transport.py:84-87 | after a Nexus call raises, later messages change nothing |
| NexusTransport.NonRequestsIgnored | nexusmcp/nexus_transport.py:53-55 | notifications and responses leave the router's state unchanged |
| NexusTransport.RunCorrelates | nexusmcp/nexus_transport.py:76-82 | the k-th response carries the k-th request's id; every request is answered unless a call raised, and then the raising request and all later ones are not; every response is JSON-RPC 2.0 |
| NexusTransport.RunForwardsCallsInOrder | nexusmcp/nexus_transport.py:58-74 | without a crash, the Nexus calls issued are exactly those the requests cause, in arrival order |
| NexusTransport.InvalidParamsIsLocal | nexusmcp/nexus_transport.py:73-82 | a `tools/call` with invalid parameters gets `INVALID_PARAMS` for its own id, issues no call, and the router goes on |
| McpClient.HandleListTools | nexusmcp/workflow/mcp_client.py:53-58 | the MCP service's ListTools operation on the client's endpoint |
| McpClient.HandleCallTool | nexusmcp/workflow/mcp_client.py:60-66 | the service has no `'_'` and `service + "_" + operation` rebuilds the name; a name without `'_'` is all service with an empty operation; arguments are unchanged |
| McpClient.TestServiceAppendDecodes | tests/test_stateful_session.py:93 | `"TestService_append"` calls operation `append` of service `TestService` |
| ToolNames.CatalogNameRoundTrip | nexusmcp/nexus_transport.py:121-130 | calling a tool by its catalog name reaches exactly the service and operation it was derived from |
| ToolNames.ListedToolsDecode | nexusmcp/service_handler.py:141-156 | every tool a valid handler lists decodes, in the transport, to an operation of a registered service |
| ToolNames.GatewayAgreesWithClient | nexusmcp/workflow/mcp_client.py:60-66 | for a name the gateway accepts and that has no `"__"`, the client splits it the same way; the only difference is that the gateway capitalizes the service |
| ToolNames.CatalogNameRefusedByGateway | nexusmcp/inbound_gateway.py:106-108 | the gateway refuses the listed name of every tool whose service and operation names contain no `'_'` |
| ToolNames.MissingUnderscoreOnlyGatewayRefuses | nexusmcp/inbound_gateway.py:106-108 | a name without `'_'` is refused by the gateway but sent by the client as the whole name with an empty operation |

## Left out

- The Temporal and Nexus runtime is not modelled: workflow execution, the Temporal client, the worker, `InboundGateway.run`, `register(server)`, and `create_nexus_client`. The gateway's handlers return the workflow run they request, and the client's handlers return the Nexus call they make.
- Workflow ids (`uuid.uuid4()`) are not modelled, because they are random.
- The endpoint's replies are a parameter of the router, a function of the calls issued so far. They are not modelled, because they come from remote code.
- Streams and the router task are not modelled: stream creation, the task's cancellation and `ClosedResourceError`. The router reads a finite inbox, and "raised" ends the loop.
- The router does not stop once a response cannot be written, because writing is not modelled.
- Pydantic validation of request parameters is a parameter of the router, because it is library code. So are `model_dump` and `model_json_schema`.
- NexusTransport.Dispatch: treats every failure of a Nexus call, including of the `ListToolsResult` check on the listed tools, as an exception that ends the loop. A pydantic `ValidationError` raised there would instead be answered with `INVALID_PARAMS`; the model does not tell such errors apart.
- NexusTransport.ResultResponse and NexusTransport.ErrorResponse: always build the response. The source builds it with `JSONRPCResponse.model_validate`, outside the `except pydantic.ValidationError` (`nexus_transport.py:136-152`), so a failure there would end the router; the model assumes it never fails.
- `str()` of a tool result is a parameter, because Python's formatting is not modelled.
- ServiceHandler.Exclude: sets the marker on a value; the in-place `setattr` on a shared function object, and its aliasing, are not modelled.
- Marker values other than booleans are not modelled: only "absent", `True` and `False`.
- The `callable()` check is an input flag of each attribute.
- JSON numbers are integers only; floats are not modelled.
- Text.Capitalize: upper- and lower-cases ASCII letters only; Python's full Unicode case mapping is not modelled.
- `MCPServiceHandler.list_tools` being exposed as a Nexus operation, and its context and input arguments, are not modelled.
- `connect` in the transport and the client is not modelled: the in-memory server and session it builds are library code.
- nexusmcp/proxy_workflow.py, nexusmcp/service.py and nexusmcp/__init__.py are not part of this model.
