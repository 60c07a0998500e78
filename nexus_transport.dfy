/** The in-workflow MCP transport: a router that reads JSON-RPC messages from
    an MCP client session, answers `initialize`, `tools/list` and
    `tools/call` requests (the last two through Nexus calls to the endpoint),
    and writes one correlated response per request. */
module NexusTransport {
  import opened Wrappers
  import opened Text
  import opened McpTypes

  /** A JSON-RPC request id. */
  datatype RequestId = IntId(n: int) | StrId(s: string)

  /** An inbound JSON-RPC message. */
  datatype Inbound =
    | Request(id: RequestId, rpcMethod: string, params: Option<Json>)
    | Notification(rpcMethod: string, params: Option<Json>)
    | Response(id: RequestId, result: Json)
    | ErrorReply(id: RequestId, error: ErrorData)

  /** The methods the router distinguishes. */
  datatype Method = Initialize | ToolsList | ToolsCall | Unknown(name: string)

  function MethodName(m: Method): string
  {
    match m
    case Initialize => "initialize"
    case ToolsList => "tools/list"
    case ToolsCall => "tools/call"
    case Unknown(name) => name
  }

  /** The method a request names; every other string is `Unknown`. */
  function ParseMethod(s: string): (r: Method)
    ensures MethodName(r) == s
    ensures r.Unknown? <==> s !in {"initialize", "tools/list", "tools/call"}
  {
    if s == "initialize" then Initialize
    else if s == "tools/list" then ToolsList
    else if s == "tools/call" then ToolsCall
    else Unknown(s)
  }

  /** `InitializeResult`: protocol version, whether the tools capability is
      offered, and the server's name and version. */
  datatype InitializeResult = InitializeResult(protocolVersion: string, toolsCapability: bool, serverName: string, serverVersion: string)

  /** A text content item of a tool call result. */
  datatype TextContent = TextContent(kind: string, text: string)

  datatype CallToolResult = CallToolResult(content: seq<TextContent>, structuredContent: Option<Dict>)

  /** The `Result` a handler produces. */
  datatype ResultValue =
    | InitResult(init: InitializeResult)
    | ListResult(tools: seq<Tool>)
    | CallResult(call: CallToolResult)

  /** What a response carries: a result or an error, never both. */
  datatype Body = ResultBody(result: ResultValue) | ErrorBody(error: ErrorData)

  /** An outbound JSON-RPC response. */
  datatype Outbound = Outbound(jsonrpc: string, id: RequestId, body: Body)

  /** Validated `tools/call` parameters. */
  datatype CallToolParams = CallToolParams(name: string, arguments: Option<Dict>)

  /** What the router depends on and does not define: pydantic validation of
      the request parameters (Some / Err carry the validation message), the
      Nexus endpoint's replies to the calls issued so far (the last call in
      the history is the one being answered; None when it raises), and
      Python's `str()` of a result. */
  datatype Backend = Backend(
    validateInitialize: Option<Json> -> Option<string>,
    validateCallTool: Option<Json> -> Result<CallToolParams, string>,
    listTools: seq<NexusCall> -> Option<seq<Tool>>,
    execute: seq<NexusCall> -> Option<Json>,
    text: Json -> string)

  /** `WorkflowNexusTransport`: the endpoint it calls. */
  datatype Transport = Transport(endpoint: string)

  const PROTOCOL_VERSION: string := "2024-11-05"
  const SERVER_NAME: string := "nexus-mcp-transport"
  const SERVER_VERSION: string := "0.1.0"

  /** `_handle_initialize`: a fixed answer, whatever the parameters. */
  function HandleInitialize(): (r: InitializeResult)
    ensures r.protocolVersion == PROTOCOL_VERSION && r.toolsCapability
    ensures r.serverName == SERVER_NAME && r.serverVersion == SERVER_VERSION
  {
    InitializeResult(PROTOCOL_VERSION, true, SERVER_NAME, SERVER_VERSION)
  }

  /** The Nexus call `_handle_call_tool` issues: the service is the text
      before the first `'/'` of the tool name, the operation the text after,
      and missing arguments become `{}`. */
  function DecodeCall(t: Transport, p: CallToolParams): (r: NexusCall)
    ensures r.OperationCall? && r.endpoint == t.endpoint
    ensures '/' !in r.service
    ensures '/' in p.name ==> r.service + "/" + r.operation == p.name
    ensures '/' !in p.name ==> r.service == p.name && r.operation == ""
    ensures p.arguments.Some? ==> r.arguments == p.arguments.value
    ensures p.arguments.None? ==> r.arguments == map[]
  {
    var (service, _, operation) := Partition(p.name, '/');
    OperationCall(t.endpoint, service, operation, p.arguments.GetOr(map[]))
  }

  /** The result wrapping of `_handle_call_tool`: a dict becomes structured
      content with no content items; anything else becomes one text item. */
  function WrapResult(v: Json, text: Json -> string): (r: CallToolResult)
    ensures r.structuredContent.Some? <==> v.JObject?
    ensures v.JObject? ==> r.content == [] && r.structuredContent.value == v.fields
    ensures !v.JObject? ==> r.content == [TextContent("text", text(v))]
  {
    match v
    case JObject(fields) => CallToolResult([], Some(fields))
    case _ => CallToolResult([TextContent("text", text(v))], None)
  }

  /** `_json_rpc_result_response` */
  function ResultResponse(request: Inbound, result: ResultValue): (r: Outbound)
    requires request.Request?
    ensures r.jsonrpc == "2.0" && r.id == request.id && r.body.ResultBody? && r.body.result == result
  {
    Outbound("2.0", request.id, ResultBody(result))
  }

  /** `_json_rpc_error_response` */
  function ErrorResponse(request: Inbound, error: ErrorData): (r: Outbound)
    requires request.Request?
    ensures r.jsonrpc == "2.0" && r.id == request.id && r.body.ErrorBody? && r.body.error == error
  {
    Outbound("2.0", request.id, ErrorBody(error))
  }

  /** The error `INVALID_PARAMS` response text for a validation failure. */
  function InvalidParams(detail: string): ErrorData
  {
    ErrorData(INVALID_PARAMS, "Invalid request: " + detail)
  }

  /** How a request was handled: answered with a body, or by an exception
      that escapes the router; with the Nexus calls it issued. */
  datatype Handled = Answered(body: Body, issued: seq<NexusCall>) | Raised(issued: seq<NexusCall>)

  /** The Nexus calls a request causes, whatever the endpoint answers. */
  function CallsOf(t: Transport, b: Backend, rpcMethod: string, params: Option<Json>): (r: seq<NexusCall>)
    ensures |r| <= 1
  {
    match ParseMethod(rpcMethod)
    case ToolsList => [ListToolsCall(t.endpoint)]
    case ToolsCall =>
      (match b.validateCallTool(params)
       case Ok(p) => [DecodeCall(t, p)]
       case Err(_) => [])
    case _ => []
  }

  /** The dispatch of one request in `message_router`, given the Nexus calls
      issued before it. Only a Nexus call can raise; a validation failure and
      an unknown method are answered with an error. */
  function Dispatch(t: Transport, b: Backend, history: seq<NexusCall>, rpcMethod: string, params: Option<Json>): (r: Handled)
    ensures r.issued == CallsOf(t, b, rpcMethod, params)
    ensures r.Raised? ==> |r.issued| == 1 && (ParseMethod(rpcMethod) == ToolsList || ParseMethod(rpcMethod) == ToolsCall)
    ensures ParseMethod(rpcMethod).Unknown? ==>
      r == Answered(ErrorBody(ErrorData(METHOD_NOT_FOUND, "Unknown method: " + rpcMethod)), [])
    ensures ParseMethod(rpcMethod) == Initialize ==>
      r == Answered(
        match b.validateInitialize(params)
        case Some(detail) => ErrorBody(InvalidParams(detail))
        case None => ResultBody(InitResult(HandleInitialize())), [])
    ensures ParseMethod(rpcMethod) == ToolsList ==>
      && (r.Answered? <==> b.listTools(history + r.issued).Some?)
      && (r.Answered? ==> r.body == ResultBody(ListResult(b.listTools(history + r.issued).value)))
    ensures ParseMethod(rpcMethod) == ToolsCall && b.validateCallTool(params).Err? ==>
      r == Answered(ErrorBody(InvalidParams(b.validateCallTool(params).error)), [])
    ensures ParseMethod(rpcMethod) == ToolsCall && b.validateCallTool(params).Ok? ==>
      && (r.Answered? <==> b.execute(history + r.issued).Some?)
      && (r.Answered? ==> r.body == ResultBody(CallResult(WrapResult(b.execute(history + r.issued).value, b.text))))
  {
    match ParseMethod(rpcMethod)
    case Initialize =>
      (match b.validateInitialize(params)
       case Some(detail) => Answered(ErrorBody(InvalidParams(detail)), [])
       case None => Answered(ResultBody(InitResult(HandleInitialize())), []))
    case ToolsList =>
      var call := ListToolsCall(t.endpoint);
      (match b.listTools(history + [call])
       case None => Raised([call])
       case Some(tools) => Answered(ResultBody(ListResult(tools)), [call]))
    case ToolsCall =>
      (match b.validateCallTool(params)
       case Err(detail) => Answered(ErrorBody(InvalidParams(detail)), [])
       case Ok(p) =>
         var call := DecodeCall(t, p);
         match b.execute(history + [call])
         case None => Raised([call])
         case Some(v) => Answered(ResultBody(CallResult(WrapResult(v, b.text))), [call]))
    case Unknown(name) =>
      Answered(ErrorBody(ErrorData(METHOD_NOT_FOUND, "Unknown method: " + name)), [])
  }

  /** The router's state: the responses written so far, the Nexus calls
      issued so far, and whether an exception has ended the loop. */
  datatype RouterState = RouterState(sent: seq<Outbound>, calls: seq<NexusCall>, crashed: bool)

  /** One iteration of `message_router`: messages that are not requests are
      skipped; a request is dispatched and answered, or ends the loop. */
  function Step(t: Transport, b: Backend, st: RouterState, m: Inbound): RouterState
  {
    if st.crashed || !m.Request? then st
    else
      match Dispatch(t, b, st.calls, m.rpcMethod, m.params)
      case Answered(body, issued) =>
        var response := match body
          case ResultBody(result) => ResultResponse(m, result)
          case ErrorBody(error) => ErrorResponse(m, error);
        RouterState(st.sent + [response], st.calls + issued, false)
      case Raised(issued) => RouterState(st.sent, st.calls + issued, true)
  }

  /** The router's state after reading `inbox` from the start. */
  function Run(t: Transport, b: Backend, inbox: seq<Inbound>): RouterState
    decreases |inbox|
  {
    if inbox == [] then RouterState([], [], false)
    else Step(t, b, Run(t, b, inbox[..|inbox| - 1]), inbox[|inbox| - 1])
  }

  /** `message_router`: reads `inbox` in order until it ends or a Nexus call
      raises, writing one response per request it answers. */
  method Route(t: Transport, b: Backend, inbox: seq<Inbound>) returns (sent: seq<Outbound>, calls: seq<NexusCall>, crashed: bool)
    ensures RouterState(sent, calls, crashed) == Run(t, b, inbox)
  {
    sent, calls, crashed := [], [], false;
    var i := 0;
    while i < |inbox| && !crashed
      invariant 0 <= i <= |inbox|
      invariant RouterState(sent, calls, crashed) == Run(t, b, inbox[..i])
    {
      var m := inbox[i];
      assert inbox[..i + 1][..i] == inbox[..i];
      if m.Request? {
        var handled := Dispatch(t, b, calls, m.rpcMethod, m.params);
        match handled {
          case Answered(body, issued) =>
            var response;
            match body {
              case ResultBody(result) => response := ResultResponse(m, result);
              case ErrorBody(error) => response := ErrorResponse(m, error);
            }
            sent := sent + [response];
            calls := calls + issued;
          case Raised(issued) =>
            calls := calls + issued;
            crashed := true;
        }
      }
      i := i + 1;
    }
    if crashed {
      CrashIsFinal(t, b, inbox[..i], inbox[i..]);
      assert inbox[..i] + inbox[i..] == inbox;
    } else {
      assert inbox[..i] == inbox;
    }
  }

  /** Once a Nexus call has raised, the router reads nothing more. */
  lemma {:induction false} CrashIsFinal(t: Transport, b: Backend, done: seq<Inbound>, rest: seq<Inbound>)
    requires Run(t, b, done).crashed
    ensures Run(t, b, done + rest) == Run(t, b, done)
    decreases |rest|
  {
    if rest == [] {
      assert done + rest == done;
    } else {
      var init := rest[..|rest| - 1];
      assert (done + rest)[..|done + rest| - 1] == done + init;
      CrashIsFinal(t, b, done, init);
    }
  }

  /** Messages that are not requests leave the router's state alone. */
  lemma {:induction false} NonRequestsIgnored(t: Transport, b: Backend, done: seq<Inbound>, rest: seq<Inbound>)
    requires forall k :: 0 <= k < |rest| ==> !rest[k].Request?
    ensures Run(t, b, done + rest) == Run(t, b, done)
    decreases |rest|
  {
    if rest == [] {
      assert done + rest == done;
    } else {
      var init := rest[..|rest| - 1];
      assert (done + rest)[..|done + rest| - 1] == done + init;
      assert (done + rest)[|done + rest| - 1] == rest[|rest| - 1];
      NonRequestsIgnored(t, b, done, init);
    }
  }

  /** The ids of the requests in `inbox`, in arrival order. */
  function RequestIds(inbox: seq<Inbound>): seq<RequestId>
    decreases |inbox|
  {
    if inbox == [] then []
    else
      var last := inbox[|inbox| - 1];
      RequestIds(inbox[..|inbox| - 1]) + (if last.Request? then [last.id] else [])
  }

  /** The ids of the responses written, in writing order. */
  function Ids(sent: seq<Outbound>): (r: seq<RequestId>)
    ensures |r| == |sent| && forall k :: 0 <= k < |sent| ==> r[k] == sent[k].id
  {
    seq(|sent|, k requires 0 <= k < |sent| => sent[k].id)
  }

  /** Correlation and order: the k-th response carries the id of the k-th
      request. When the input ends normally every request has its response;
      when a Nexus call raised, the request that raised and every later one
      have none. Every response is a JSON-RPC 2.0 message. */
  lemma {:induction false} RunCorrelates(t: Transport, b: Backend, inbox: seq<Inbound>)
    ensures |Run(t, b, inbox).sent| <= |RequestIds(inbox)|
    ensures Ids(Run(t, b, inbox).sent) == RequestIds(inbox)[..|Run(t, b, inbox).sent|]
    ensures !Run(t, b, inbox).crashed ==> |Run(t, b, inbox).sent| == |RequestIds(inbox)|
    ensures Run(t, b, inbox).crashed ==> |Run(t, b, inbox).sent| < |RequestIds(inbox)|
    ensures forall k :: 0 <= k < |Run(t, b, inbox).sent| ==> Run(t, b, inbox).sent[k].jsonrpc == "2.0"
    decreases |inbox|
  {
    if inbox != [] {
      var init, last := inbox[..|inbox| - 1], inbox[|inbox| - 1];
      RunCorrelates(t, b, init);
      var before, after := Run(t, b, init), Run(t, b, inbox);
      var ids := RequestIds(init);
      if !before.crashed && last.Request? && after.sent != before.sent {
        assert after.sent == before.sent + [after.sent[|after.sent| - 1]];
        assert Ids(after.sent) == Ids(before.sent) + [last.id];
        assert RequestIds(inbox)[..|after.sent|] == ids + [last.id];
      } else {
        assert after.sent == before.sent;
        assert RequestIds(inbox)[..|ids|] == ids;
        assert RequestIds(inbox)[..|before.sent|] == ids[..|before.sent|];
      }
    }
  }

  /** The Nexus calls the requests in `inbox` cause, in arrival order. */
  function IssuedCalls(t: Transport, b: Backend, inbox: seq<Inbound>): seq<NexusCall>
    decreases |inbox|
  {
    if inbox == [] then []
    else
      (if inbox[0].Request? then CallsOf(t, b, inbox[0].rpcMethod, inbox[0].params) else [])
      + IssuedCalls(t, b, inbox[1..])
  }

  lemma {:induction false} IssuedCallsAppend(t: Transport, b: Backend, a: seq<Inbound>, c: seq<Inbound>)
    ensures IssuedCalls(t, b, a + c) == IssuedCalls(t, b, a) + IssuedCalls(t, b, c)
    decreases |a|
  {
    if a == [] {
      assert a + c == c;
    } else {
      assert (a + c)[0] == a[0];
      assert (a + c)[1..] == a[1..] + c;
      IssuedCallsAppend(t, b, a[1..], c);
    }
  }

  /** When the input ends normally, the router has forwarded exactly the Nexus
      calls its requests cause, in arrival order; so the endpoint sees
      state-changing calls in the order the client sent them. */
  lemma {:induction false} RunForwardsCallsInOrder(t: Transport, b: Backend, inbox: seq<Inbound>)
    requires !Run(t, b, inbox).crashed
    ensures Run(t, b, inbox).calls == IssuedCalls(t, b, inbox)
    decreases |inbox|
  {
    if inbox != [] {
      var init, last := inbox[..|inbox| - 1], inbox[|inbox| - 1];
      RunForwardsCallsInOrder(t, b, init);
      IssuedCallsAppend(t, b, init, [last]);
      assert init + [last] == inbox;
      assert IssuedCalls(t, b, [last]) == (if last.Request? then CallsOf(t, b, last.rpcMethod, last.params) else []) by {
        assert [last][1..] == [];
      }
    }
  }

  /** A `tools/call` whose parameters fail validation is answered with
      `INVALID_PARAMS` for its own id, and the router goes on. */
  lemma InvalidParamsIsLocal(t: Transport, b: Backend, inbox: seq<Inbound>, id: RequestId, params: Option<Json>)
    requires !Run(t, b, inbox).crashed && b.validateCallTool(params).Err?
    ensures var after := Run(t, b, inbox + [Request(id, "tools/call", params)]);
      && !after.crashed
      && after.calls == Run(t, b, inbox).calls
      && after.sent == Run(t, b, inbox).sent
                       + [Outbound("2.0", id, ErrorBody(InvalidParams(b.validateCallTool(params).error)))]
  {
    var m := Request(id, "tools/call", params);
    assert (inbox + [m])[..|inbox|] == inbox;
  }
}
