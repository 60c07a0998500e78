/** The inbound gateway: turns MCP `list_tools` and `call_tool` requests into
    runs of the proxy workflows on a fixed Temporal task queue. Tool names
    arrive flattened as `"service_operation"`, possibly behind a client prefix
    that ends in `"__"`. */
module InboundGateway {
  import opened Wrappers
  import opened Text
  import opened McpTypes

  /** The task queue the gateway's `__init__` fixes for both proxy workflows. */
  const PROXY_TASK_QUEUE: string := "nexus-proxy-queue"

  /** Input of `ToolListWorkflow`. */
  datatype ToolListInput = ToolListInput(endpoint: string)

  /** Input of `ToolCallWorkflow`. */
  datatype ToolCallInput = ToolCallInput(endpoint: string, service: string, operation: string, arguments: Dict)

  /** A proxy workflow run the gateway asks Temporal to execute. */
  datatype WorkflowRun =
    | ToolListRun(listInput: ToolListInput, taskQueue: string)
    | ToolCallRun(callInput: ToolCallInput, taskQueue: string)

  /** The `ValueError` raised for a malformed tool name. */
  datatype GatewayError = InvalidToolName(name: string)

  /** The gateway's fields: the Nexus endpoint and the task queue. */
  datatype Gateway = Gateway(endpoint: string, taskQueue: string)

  /** `InboundGateway.__init__`. */
  function NewGateway(endpoint: string): (g: Gateway)
    ensures g.endpoint == endpoint && g.taskQueue == PROXY_TASK_QUEUE
  {
    Gateway(endpoint, PROXY_TASK_QUEUE)
  }

  /** `_handle_list_tools`: one `ToolListWorkflow` run for the gateway's endpoint. */
  function HandleListTools(g: Gateway): (r: WorkflowRun)
    ensures r.ToolListRun? && r.listInput.endpoint == g.endpoint && r.taskQueue == g.taskQueue
  {
    ToolListRun(ToolListInput(g.endpoint), g.taskQueue)
  }

  /** The tool name without its client prefix: the text after the last `"__"`,
      or the whole name when there is none. No `"__"` is left in the result. */
  function StripClientPrefix(name: string): (r: string)
    ensures Contains(name, "__") ==> r == name[RFind(name, "__") + 2..]
    ensures !Contains(name, "__") ==> r == name
    ensures !Contains(r, "__")
  {
    if Contains(name, "__") then
      var (_, _, actual) := RPartition(name, "__");
      var k := RFind(name, "__");
      assert !Contains(actual, "__") by {
        forall j | 0 <= j && j + 2 <= |actual| ensures !OccursAt(actual, "__", j) {
          assert actual[j..j + 2] == name[k + 2 + j..k + 2 + j + 2];
          assert !OccursAt(name, "__", k + 2 + j);
        }
      }
      actual
    else
      name
  }

  /** `rest` splits as a non-empty service without `'_'`, a `'_'`, and a
      non-empty operation. */
  predicate IsToolNameSplit(rest: string, service: string, operation: string)
  {
    service != "" && operation != "" && '_' !in service && rest == service + "_" + operation
  }

  /** `rest` split at its first `'_'`, when both sides are non-empty. */
  function SplitAtFirstUnderscore(rest: string): (r: Option<(string, string)>)
    ensures r.Some? ==> IsToolNameSplit(rest, r.value.0, r.value.1)
  {
    var k := IndexOf(rest, '_');
    if k == -1 then None
    else
      var service := rest[..k];
      var operation := rest[k + 1..];
      assert rest == rest[..k] + [rest[k]] + rest[k + 1..];
      if service == "" || operation == "" then None
      else Some((service, operation))
  }

  /** The name parsing of `_handle_call_tool`, before the service is
      capitalized: split the prefix-free name at its first `'_'`. */
  function ParseToolName(name: string): (r: Result<(string, string), GatewayError>)
    ensures r.Err? ==> r.error == InvalidToolName(name)
    ensures r.Ok? ==> IsToolNameSplit(StripClientPrefix(name), r.value.0, r.value.1)
  {
    match SplitAtFirstUnderscore(StripClientPrefix(name))
    case None => Err(InvalidToolName(name))
    case Some(parts) => Ok(parts)
  }

  /** The name is accepted exactly when its prefix-free part splits as
      service, `'_'`, operation with both parts non-empty; and then the split
      is the one at the first `'_'`. */
  lemma ParseToolNameAccepts(name: string)
    ensures ParseToolName(name).Ok? <==>
      exists service, operation :: IsToolNameSplit(StripClientPrefix(name), service, operation)
    ensures forall service, operation :: IsToolNameSplit(StripClientPrefix(name), service, operation) ==>
      ParseToolName(name) == Ok((service, operation))
  {
    var rest := StripClientPrefix(name);
    forall service, operation | IsToolNameSplit(rest, service, operation)
      ensures ParseToolName(name) == Ok((service, operation))
    {
      PartitionUnique(rest, '_', service, operation);
    }
  }

  /** `_handle_call_tool`: parse the name, capitalize the service, and run
      `ToolCallWorkflow` with the endpoint and the arguments unchanged. */
  function HandleCallTool(g: Gateway, name: string, arguments: Dict): (r: Result<WorkflowRun, GatewayError>)
    ensures r.Err? <==> ParseToolName(name).Err?
    ensures r.Err? ==> r.error == InvalidToolName(name)
    ensures r.Ok? ==>
      var (service, operation) := ParseToolName(name).value;
      && r.value.ToolCallRun? && r.value.taskQueue == g.taskQueue
      && r.value.callInput == ToolCallInput(g.endpoint, Capitalize(service), operation, arguments)
  {
    match ParseToolName(name)
    case Err(e) => Err(e)
    case Ok((service, operation)) =>
      Ok(ToolCallRun(ToolCallInput(g.endpoint, Capitalize(service), operation, arguments), g.taskQueue))
  }

  /** A flattened name `service + "_" + operation` with no `"__"` in it parses
      back to the pair. */
  lemma {:induction false} ParseFlattenedName(service: string, operation: string)
    requires service != "" && '_' !in service
    requires operation != "" && operation[0] != '_' && !Contains(operation, "__")
    ensures ParseToolName(service + "_" + operation) == Ok((service, operation))
  {
    var name := service + "_" + operation;
    forall j | 0 <= j && j + 2 <= |name| ensures !OccursAt(name, "__", j) {
      if j < |service| {
        assert name[j..j + 2][0] == name[j] == service[j];
      } else if j == |service| {
        assert name[j..j + 2][1] == name[j + 1] == operation[0];
      } else {
        assert name[j..j + 2] == operation[j - |service| - 1..j - |service| + 1];
        assert !OccursAt(operation, "__", j - |service| - 1);
      }
    }
    assert !Contains(name, "__");
    assert IsToolNameSplit(StripClientPrefix(name), service, operation);
    ParseToolNameAccepts(name);
  }

  lemma {:induction false} CapitalizeIgnoresCase(s: string)
    ensures Capitalize(LowerAll(s)) == Capitalize(s)
  {
    var a, b := Capitalize(LowerAll(s)), Capitalize(s);
    if s != [] {
      assert a[0] == b[0] by {
        if IsAsciiUpper(s[0]) {
          assert Lower(s[0]) as int == s[0] as int + 32;
        }
      }
      forall i | 0 < i < |s| ensures a[i] == b[i] {
        assert LowerAll(s)[i] == Lower(s[i]);
      }
    }
  }

  /** A service flattened to lower case comes back from the gateway as
      `capitalize(service)`, which is the original service exactly when that
      is already capitalized: multi-word PascalCase names are not restored. */
  lemma FlattenedServiceRestored(g: Gateway, service: string, operation: string, arguments: Dict)
    requires service != "" && '_' !in service
    requires operation != "" && operation[0] != '_' && !Contains(operation, "__")
    ensures HandleCallTool(g, LowerAll(service) + "_" + operation, arguments).Ok?
    ensures HandleCallTool(g, LowerAll(service) + "_" + operation, arguments).value.callInput.service == Capitalize(service)
    ensures HandleCallTool(g, LowerAll(service) + "_" + operation, arguments).value.callInput.service == service
            <==> IsCapitalized(service)
  {
    var lowered := LowerAll(service);
    forall i | 0 <= i < |lowered| ensures lowered[i] != '_' {
      assert service[i] != '_';
    }
    ParseFlattenedName(lowered, operation);
    CapitalizeIgnoresCase(service);
    CapitalizeFixedPoints(service);
  }

  /** `"WeatherService"` flattened to `"weatherservice_get_forecast"` is
      forwarded as service `"Weatherservice"`. */
  lemma MultiWordServiceNotRestored(g: Gateway, name: string, arguments: Dict)
    requires name == "weatherservice_get_forecast"
    ensures HandleCallTool(g, name, arguments)
         == Ok(ToolCallRun(ToolCallInput(g.endpoint, "Weatherservice", "get_forecast", arguments), g.taskQueue))
  {
    ParseWeatherServiceName(name);
    CapitalizeWeatherService("weatherservice");
  }

  lemma ParseWeatherServiceName(name: string)
    requires name == "weatherservice_get_forecast"
    ensures ParseToolName(name) == Ok(("weatherservice", "get_forecast"))
  {
    var service, operation := "weatherservice", "get_forecast";
    assert service + "_" + operation == name;
    NoMarkerWithoutAdjacentUnderscores(operation);
    ParseFlattenedName(service, operation);
  }

  lemma CapitalizeWeatherService(service: string)
    requires service == "weatherservice"
    ensures Capitalize(service) == "Weatherservice"
  {
    var r := Capitalize(service);
    assert r[0] == Upper('w') == 'W';
    forall i | 1 <= i < |service| ensures r[i] == service[i] {
      assert IsAsciiLower(service[i]);
    }
  }

  lemma NoMarkerWithoutAdjacentUnderscores(s: string)
    requires forall i :: 0 <= i < |s| - 1 ==> s[i] != '_' || s[i + 1] != '_'
    ensures !Contains(s, "__")
  {
    forall j | 0 <= j && j + 2 <= |s| ensures !OccursAt(s, "__", j) {
      assert s[j..j + 2] == [s[j], s[j + 1]];
    }
  }
}
