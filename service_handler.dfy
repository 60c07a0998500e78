/** The tool catalog: `MCPServiceHandler` keeps the Nexus services registered
    with it and lists their operations as MCP tools named
    `"<service>/<operation>"`. */
module ServiceHandler {
  import opened Wrappers
  import opened Text
  import opened McpTypes

  /** What `getattr(cls, attr_name)` yields for an operation's handler: whether
      it is callable, the value of its `__nexus_mcp_tool__` marker when it has
      one, and its docstring. */
  datatype Attr = Attr(callable: bool, marker: Option<bool>, doc: Option<string>)

  /** An operation of a Nexus service definition. `methodName` is the Python
      method implementing it; `inputSchema` is the JSON schema of its input
      type when that type is a pydantic model, and None otherwise. */
  datatype OperationDefn = OperationDefn(name: string, methodName: Option<string>, inputSchema: Option<Dict>)

  /** A Nexus service definition: its name and its operations in declaration order. */
  datatype ServiceDefn = ServiceDefn(name: string, operations: seq<OperationDefn>)

  /** A class handed to `register`: its `__name__`, the Nexus service
      definition attached to it (None when it is not a Nexus service), and its
      attributes by name. */
  datatype ServiceClass = ServiceClass(className: string, defn: Option<ServiceDefn>, attrs: map<string, Attr>)

  /** `_Tool`: an operation together with the handler attribute implementing it. */
  datatype ToolEntry = ToolEntry(func: Attr, defn: OperationDefn)

  /** `_ToolService`: a registered service and the tools derived from it. */
  datatype ToolService = ToolService(defn: ServiceDefn, tools: seq<ToolEntry>)

  /** Why `register` raises. */
  datatype RegisterError =
    | NotAService(className: string)
    | SlashInServiceName(serviceName: string)
    | MissingAttribute(attrName: string)
    | NotCallable(attrName: string)

  /** A handler is exposed unless it carries the `__nexus_mcp_tool__` marker
      with a false value; a handler without the marker is exposed. */
  predicate Exposes(fn: Attr)
  {
    fn.marker != Some(false)
  }

  /** `exclude`: sets the marker to False and leaves the handler otherwise alone. */
  function Exclude(fn: Attr): (r: Attr)
    ensures !Exposes(r)
    ensures r.callable == fn.callable && r.doc == fn.doc
  {
    fn.(marker := Some(false))
  }

  /** The attribute `register` looks up: the operation's method name when it
      is set and non-empty, otherwise the operation's own name. */
  function AttrName(op: OperationDefn): string
  {
    match op.methodName
    case Some(m) => if m != "" then m else op.name
    case None => op.name
  }

  /** The handler of `op` exists and is callable, so `register` accepts it. */
  predicate Resolves(cls: ServiceClass, op: OperationDefn)
  {
    AttrName(op) in cls.attrs && cls.attrs[AttrName(op)].callable
  }

  /** `op` becomes a tool: its handler resolves and is not excluded. */
  predicate Listed(cls: ServiceClass, op: OperationDefn)
  {
    Resolves(cls, op) && Exposes(cls.attrs[AttrName(op)])
  }

  /** `_Tool.to_mcp_tool`: the MCP descriptor of one tool of `service`. */
  function ToMcpTool(service: ServiceDefn, tool: ToolEntry): Tool
  {
    Tool(
      service.name + "/" + tool.defn.name,
      match tool.func.doc case Some(d) => Some(Strip(d)) case None => None,
      tool.defn.inputSchema.GetOr(map[]))
  }

  /** The descriptor names the tool after its service and operation so that,
      when the service name has no '/', the first '/' splits the name back
      into the two; it is described by the stripped docstring exactly when
      there is one, and its schema is the operation's own, or `{}`. */
  lemma ToMcpToolSpec(service: ServiceDefn, tool: ToolEntry)
    ensures var r := ToMcpTool(service, tool);
      && ('/' !in service.name ==> Partition(r.name, '/') == (service.name, "/", tool.defn.name))
      && (r.description.Some? <==> tool.func.doc.Some?)
      && (r.description.Some? ==> r.description.value == Strip(tool.func.doc.value))
      && (tool.defn.inputSchema.None? ==> r.inputSchema == map[])
      && (tool.defn.inputSchema.Some? ==> r.inputSchema == tool.defn.inputSchema.value)
  {
    if '/' !in service.name {
      PartitionUnique(ToMcpTool(service, tool).name, '/', service.name, tool.defn.name);
    }
  }

  /** One pass of `register`'s loop: the tool `op` contributes (None when it is
      excluded), or the error that aborts the registration. The callable check
      comes before the exclusion check. */
  function ToolFor(cls: ServiceClass, op: OperationDefn): Result<Option<ToolEntry>, RegisterError>
  {
    var name := AttrName(op);
    if name !in cls.attrs then Err(MissingAttribute(name))
    else if !cls.attrs[name].callable then Err(NotCallable(name))
    else if !Exposes(cls.attrs[name]) then Ok(None)
    else Ok(Some(ToolEntry(cls.attrs[name], op)))
  }

  /** The tools `register`'s loop has collected after visiting `ops`, or the
      first error it met. */
  function CollectTools(cls: ServiceClass, ops: seq<OperationDefn>): Result<seq<ToolEntry>, RegisterError>
    decreases |ops|
  {
    if ops == [] then Ok([])
    else
      match CollectTools(cls, ops[..|ops| - 1])
      case Err(e) => Err(e)
      case Ok(tools) =>
        match ToolFor(cls, ops[|ops| - 1])
        case Err(e) => Err(e)
        case Ok(None) => Ok(tools)
        case Ok(Some(t)) => Ok(tools + [t])
  }

  /** What `register(cls)` appends to the registry, or the error it raises. */
  function Registration(cls: ServiceClass): Result<ToolService, RegisterError>
  {
    match cls.defn
    case None => Err(NotAService(cls.className))
    case Some(defn) =>
      if '/' in defn.name then Err(SlashInServiceName(defn.name))
      else
        match CollectTools(cls, defn.operations)
        case Err(e) => Err(e)
        case Ok(tools) => Ok(ToolService(defn, tools))
  }

  /** The operations of `ops` that become tools, in declaration order. */
  function ListedOps(cls: ServiceClass, ops: seq<OperationDefn>): (r: seq<OperationDefn>)
    ensures |r| <= |ops|
    ensures forall op :: op in r ==> op in ops && Listed(cls, op)
  {
    if ops == [] then []
    else (if Listed(cls, ops[0]) then [ops[0]] else []) + ListedOps(cls, ops[1..])
  }

  /** The operation of each tool. */
  function Defns(tools: seq<ToolEntry>): (r: seq<OperationDefn>)
    ensures |r| == |tools| && forall j :: 0 <= j < |tools| ==> r[j] == tools[j].defn
  {
    seq(|tools|, j requires 0 <= j < |tools| => tools[j].defn)
  }

  lemma {:induction false} ListedOpsAppend(cls: ServiceClass, a: seq<OperationDefn>, b: seq<OperationDefn>)
    ensures ListedOps(cls, a + b) == ListedOps(cls, a) + ListedOps(cls, b)
  {
    if a == [] {
      assert a + b == b;
    } else {
      assert (a + b)[0] == a[0];
      assert (a + b)[1..] == a[1..] + b;
      ListedOpsAppend(cls, a[1..], b);
    }
  }

  /** Once the loop has met an error, visiting more operations keeps that error. */
  lemma {:induction false} CollectToolsErrSticks(cls: ServiceClass, ops: seq<OperationDefn>, i: nat)
    requires i <= |ops| && CollectTools(cls, ops[..i]).Err?
    ensures CollectTools(cls, ops) == CollectTools(cls, ops[..i])
    decreases |ops| - i
  {
    if i < |ops| {
      assert ops[..i + 1][..i] == ops[..i];
      CollectToolsErrSticks(cls, ops, i + 1);
    } else {
      assert ops[..i] == ops;
    }
  }

  /** `register`'s loop fails exactly when some operation's handler is missing
      or not callable (whatever its exclusion marker says), and then with the
      error of the first such operation. */
  lemma {:induction false} CollectToolsFails(cls: ServiceClass, ops: seq<OperationDefn>)
    ensures CollectTools(cls, ops).Ok? <==> forall i :: 0 <= i < |ops| ==> Resolves(cls, ops[i])
    ensures CollectTools(cls, ops).Err? ==>
      exists k :: && 0 <= k < |ops| && !Resolves(cls, ops[k])
                  && (forall j :: 0 <= j < k ==> Resolves(cls, ops[j]))
                  && ToolFor(cls, ops[k]) == Err(CollectTools(cls, ops).error)
    decreases |ops|
  {
    if ops != [] {
      var init := ops[..|ops| - 1];
      CollectToolsFails(cls, init);
      assert forall i :: 0 <= i < |init| ==> init[i] == ops[i];
    }
  }

  lemma DefnsSnoc(tools: seq<ToolEntry>, t: ToolEntry)
    ensures Defns(tools + [t]) == Defns(tools) + [t.defn]
  {
  }

  lemma ListedOpsSingle(cls: ServiceClass, op: OperationDefn)
    ensures ListedOps(cls, [op]) == if Listed(cls, op) then [op] else []
  {
    assert [op][1..] == [];
  }

  /** On success the loop keeps exactly the listed operations, in declaration
      order, each with its own handler. */
  lemma {:induction false} CollectToolsKeeps(cls: ServiceClass, ops: seq<OperationDefn>)
    requires CollectTools(cls, ops).Ok?
    ensures Defns(CollectTools(cls, ops).value) == ListedOps(cls, ops)
    ensures forall t :: t in CollectTools(cls, ops).value ==>
              AttrName(t.defn) in cls.attrs && t.func == cls.attrs[AttrName(t.defn)]
    decreases |ops|
  {
    if ops != [] {
      var init, last := ops[..|ops| - 1], ops[|ops| - 1];
      CollectToolsKeeps(cls, init);
      var tools := CollectTools(cls, init).value;
      assert ops == init + [last];
      ListedOpsAppend(cls, init, [last]);
      ListedOpsSingle(cls, last);
      if Listed(cls, last) {
        var t := ToolEntry(cls.attrs[AttrName(last)], last);
        assert CollectTools(cls, ops).value == tools + [t];
        DefnsSnoc(tools, t);
      } else {
        assert CollectTools(cls, ops).value == tools;
      }
    }
  }

  /** `register` raises exactly when the class is not a Nexus service, its
      service name contains '/', or an operation's handler is missing or not
      callable, and then with the error of the first operation whose handler
      does not resolve; otherwise the new entry holds the service's non-excluded
      operations, in declaration order, each with its handler. */
  lemma RegistrationOutcome(cls: ServiceClass)
    ensures Registration(cls).Ok? <==>
      && cls.defn.Some? && '/' !in cls.defn.value.name
      && forall i :: 0 <= i < |cls.defn.value.operations| ==> Resolves(cls, cls.defn.value.operations[i])
    ensures cls.defn.None? ==> Registration(cls) == Err(NotAService(cls.className))
    ensures cls.defn.Some? && '/' in cls.defn.value.name ==>
      Registration(cls) == Err(SlashInServiceName(cls.defn.value.name))
    ensures cls.defn.Some? && '/' !in cls.defn.value.name && Registration(cls).Err? ==>
      var ops := cls.defn.value.operations;
      exists k :: && 0 <= k < |ops| && !Resolves(cls, ops[k])
                  && (forall j :: 0 <= j < k ==> Resolves(cls, ops[j]))
                  && ToolFor(cls, ops[k]) == Err(Registration(cls).error)
    ensures Registration(cls).Ok? ==>
      && Registration(cls).value.defn == cls.defn.value
      && Defns(Registration(cls).value.tools) == ListedOps(cls, cls.defn.value.operations)
      && forall t :: t in Registration(cls).value.tools ==>
           AttrName(t.defn) in cls.attrs && t.func == cls.attrs[AttrName(t.defn)]
  {
    if cls.defn.Some? {
      CollectToolsFails(cls, cls.defn.value.operations);
      if Registration(cls).Ok? {
        CollectToolsKeeps(cls, cls.defn.value.operations);
      }
    }
  }

  /** The descriptors of one service's tools, in declaration order. */
  function ServiceTools(ts: ToolService): (r: seq<Tool>)
    ensures |r| == |ts.tools|
    ensures forall j :: 0 <= j < |r| ==> r[j] == ToMcpTool(ts.defn, ts.tools[j])
  {
    seq(|ts.tools|, j requires 0 <= j < |ts.tools| => ToMcpTool(ts.defn, ts.tools[j]))
  }

  /** The number of tools of the services in `ss`. */
  function ToolCount(ss: seq<ToolService>): nat
  {
    if ss == [] then 0 else ToolCount(ss[..|ss| - 1]) + |ss[|ss| - 1].tools|
  }

  /** `list_tools`: every tool of every service, services in registration
      order and tools in declaration order. */
  function Flatten(ss: seq<ToolService>): (r: seq<Tool>)
    ensures |r| == ToolCount(ss)
  {
    if ss == [] then [] else Flatten(ss[..|ss| - 1]) + ServiceTools(ss[|ss| - 1])
  }

  /** Listing a registry with one more service appended lists the old
      registry first and the new service's tools last. */
  lemma FlattenSnoc(ss: seq<ToolService>, s: ToolService)
    ensures Flatten(ss + [s]) == Flatten(ss) + ServiceTools(s)
  {
    assert (ss + [s])[..|ss|] == ss;
  }

  /** Tool `j` of service `i` is listed at position `ToolCount(ss[..i]) + j`:
      registration order first, declaration order second. */
  lemma {:induction false} FlattenAt(ss: seq<ToolService>, i: nat, j: nat)
    requires i < |ss| && j < |ss[i].tools|
    ensures ToolCount(ss[..i]) + j < |Flatten(ss)|
    ensures Flatten(ss)[ToolCount(ss[..i]) + j] == ToMcpTool(ss[i].defn, ss[i].tools[j])
    decreases |ss|
  {
    var init, last := ss[..|ss| - 1], ss[|ss| - 1];
    var head, tail := Flatten(init), ServiceTools(last);
    assert Flatten(ss) == head + tail;
    if i == |ss| - 1 {
      assert ToolCount(ss[..i]) == |head| by {
        assert ss[..i] == init;
      }
      assert (head + tail)[|head| + j] == tail[j];
    } else {
      var k := ToolCount(ss[..i]) + j;
      assert k < |head| && head[k] == ToMcpTool(ss[i].defn, ss[i].tools[j]) by {
        assert init[..i] == ss[..i] && init[i] == ss[i];
        FlattenAt(init, i, j);
      }
      assert (head + tail)[k] == head[k];
    }
  }

  /** Every listed tool is the descriptor of some tool of some registered service. */
  lemma {:induction false} FlattenFrom(ss: seq<ToolService>, k: nat)
    requires k < |Flatten(ss)|
    ensures exists i, j :: 0 <= i < |ss| && 0 <= j < |ss[i].tools| && Flatten(ss)[k] == ToMcpTool(ss[i].defn, ss[i].tools[j])
    decreases |ss|
  {
    var init := ss[..|ss| - 1];
    var n := |Flatten(init)|;
    if k < n {
      FlattenFrom(init, k);
      var i, j :| 0 <= i < |init| && 0 <= j < |init[i].tools| && Flatten(init)[k] == ToMcpTool(init[i].defn, init[i].tools[j]);
      assert ss[i] == init[i];
    } else {
      var i, j := |ss| - 1, k - n;
      assert Flatten(ss)[k] == ToMcpTool(ss[i].defn, ss[i].tools[j]);
    }
  }

  /** One more step of `register`'s loop: the outcome after `ops[..i+1]`
      is the outcome after `ops[..i]` extended by operation `i`. */
  lemma CollectToolsSnoc(cls: ServiceClass, ops: seq<OperationDefn>, i: nat)
    requires i < |ops|
    ensures CollectTools(cls, ops[..i + 1])
         == match CollectTools(cls, ops[..i])
            case Err(e) => Err(e)
            case Ok(tools) =>
              match ToolFor(cls, ops[i])
              case Err(e) => Err(e)
              case Ok(None) => Ok(tools)
              case Ok(Some(t)) => Ok(tools + [t])
  {
    assert ops[..i + 1][..i] == ops[..i];
  }

  /** Three operations of which the first two are exposed and the third is
      excluded yield exactly the first two tool entries, in order. */
  lemma CollectToolsOfThree(cls: ServiceClass, ops: seq<OperationDefn>, t1: ToolEntry, t2: ToolEntry)
    requires |ops| == 3
    requires ToolFor(cls, ops[0]) == Ok(Some(t1))
    requires ToolFor(cls, ops[1]) == Ok(Some(t2))
    requires ToolFor(cls, ops[2]) == Ok(None)
    ensures CollectTools(cls, ops) == Ok([t1, t2])
  {
    assert ops[..0] == [];
    CollectToolsSnoc(cls, ops, 0);
    assert [] + [t1] == [t1];
    CollectToolsSnoc(cls, ops, 1);
    assert [t1] + [t2] == [t1, t2];
    CollectToolsSnoc(cls, ops, 2);
    assert ops[..3] == ops;
  }

  /** The test suite's service class: a service whose first operation is
      renamed, with a third operation excluded. */
  predicate IsTestService(cls: ServiceClass, schema: Dict, doc1: string, doc2: string)
  {
    cls == ServiceClass("TestServiceHandler",
      Some(ServiceDefn("modified-service-name", [
        OperationDefn("modified-op-name", Some("op1"), Some(schema)),
        OperationDefn("op2", Some("op2"), Some(schema)),
        OperationDefn("op3", Some("op3"), Some(schema))])),
      map["op1" := Attr(true, None, Some(doc1)),
          "op2" := Attr(true, None, Some(doc2)),
          "op3" := Exclude(Attr(true, None, Some(doc2)))])
  }

  /** Registering the test suite's service keeps its two exposed operations,
      in declaration order, each bound to its own method. */
  lemma TestServiceRegistration(cls: ServiceClass, schema: Dict, doc1: string, doc2: string)
    requires IsTestService(cls, schema, doc1, doc2)
    ensures Registration(cls)
         == Ok(ToolService(cls.defn.value, [
              ToolEntry(Attr(true, None, Some(doc1)), cls.defn.value.operations[0]),
              ToolEntry(Attr(true, None, Some(doc2)), cls.defn.value.operations[1])]))
  {
    var ops := cls.defn.value.operations;
    TestServiceHandlers(cls, schema, doc1, doc2);
    CollectToolsOfThree(cls, ops, ToolEntry(Attr(true, None, Some(doc1)), ops[0]), ToolEntry(Attr(true, None, Some(doc2)), ops[1]));
  }

  /** The handlers of the test service: `op1` and `op2` are exposed, `op3` is excluded. */
  lemma TestServiceHandlers(cls: ServiceClass, schema: Dict, doc1: string, doc2: string)
    requires IsTestService(cls, schema, doc1, doc2)
    ensures var ops := cls.defn.value.operations;
      && ToolFor(cls, ops[0]) == Ok(Some(ToolEntry(Attr(true, None, Some(doc1)), ops[0])))
      && ToolFor(cls, ops[1]) == Ok(Some(ToolEntry(Attr(true, None, Some(doc2)), ops[1])))
      && ToolFor(cls, ops[2]) == Ok(None)
  {
    var ops := cls.defn.value.operations;
    assert AttrName(ops[0]) == "op1" && AttrName(ops[1]) == "op2" && AttrName(ops[2]) == "op3";
  }

  /** The line break and indentation around a method docstring's text. */
  const DOC_INDENT := "\n        "

  /** The listing of a single registered service with two tools. */
  lemma ListingOfTwo(svc: ToolService)
    requires |svc.tools| == 2
    ensures Flatten([svc]) == [ToMcpTool(svc.defn, svc.tools[0]), ToMcpTool(svc.defn, svc.tools[1])]
  {
    assert [svc][..0] == [];
  }

  /** The descriptor of a tool whose docstring is `text` indented by eight spaces. */
  lemma DescribedTool(service: ServiceDefn, tool: ToolEntry, name: string, text: string)
    requires service.name + "/" + tool.defn.name == name
    requires text != [] && !IsSpace(text[0]) && !IsSpace(text[|text| - 1])
    requires tool.func.doc == Some(DOC_INDENT + text + DOC_INDENT)
    ensures ToMcpTool(service, tool) == Tool(name, Some(text), tool.defn.inputSchema.GetOr(map[]))
  {
    assert forall i :: 0 <= i < |DOC_INDENT| ==> IsSpace(DOC_INDENT[i]);
    StripPadded(DOC_INDENT, text);
  }

  /** The catalog scenario of the test suite: the registered service lists two
      tools named after the service and operation names, with the stripped
      docstrings. */
  lemma TestServiceListing(cls: ServiceClass, schema: Dict, doc1: string, doc2: string)
    requires doc1 == DOC_INDENT + "This is a test operation." + DOC_INDENT
    requires doc2 == DOC_INDENT + "This is also a test operation." + DOC_INDENT
    requires IsTestService(cls, schema, doc1, doc2)
    ensures Registration(cls).Ok?
    ensures Flatten([Registration(cls).value])
         == [Tool("modified-service-name" + "/" + "modified-op-name", Some("This is a test operation."), schema),
             Tool("modified-service-name" + "/" + "op2", Some("This is also a test operation."), schema)]
  {
    TestServiceRegistration(cls, schema, doc1, doc2);
    var svc := Registration(cls).value;
    assert svc.defn.name == "modified-service-name";
    assert svc.tools[0].defn.name == "modified-op-name" && svc.tools[1].defn.name == "op2";
    assert svc.tools[0].func.doc == Some(doc1) && svc.tools[1].func.doc == Some(doc2);
    ListingOfTwo(svc);
    DescribedTool(svc.defn, svc.tools[0], "modified-service-name" + "/" + "modified-op-name", "This is a test operation.");
    DescribedTool(svc.defn, svc.tools[1], "modified-service-name" + "/" + "op2", "This is also a test operation.");
  }

  /** What a successful registration guarantees about its entry. */
  ghost predicate WellFormed(ts: ToolService)
  {
    && '/' !in ts.defn.name
    && forall t :: t in ts.tools ==> t.defn in ts.defn.operations
  }

  /** A successful registration yields a well-formed entry, and appending it
      lists its tools after those already registered. */
  lemma RegisteredEntry(cls: ServiceClass, ss: seq<ToolService>)
    requires Registration(cls).Ok?
    ensures WellFormed(Registration(cls).value)
    ensures Flatten(ss + [Registration(cls).value]) == Flatten(ss) + ServiceTools(Registration(cls).value)
  {
    var entry := Registration(cls).value;
    RegistrationOutcome(cls);
    forall t | t in entry.tools ensures t.defn in entry.defn.operations {
      var j :| 0 <= j < |entry.tools| && entry.tools[j] == t;
      assert Defns(entry.tools)[j] == t.defn;
    }
    FlattenSnoc(ss, entry);
  }

  /** `MCPServiceHandler`: the registry of tool services. */
  class MCPServiceHandler {
    var toolServices: seq<ToolService>

    /** Every entry came from a successful registration. */
    ghost predicate Valid()
      reads this
    {
      forall i :: 0 <= i < |toolServices| ==> WellFormed(toolServices[i])
    }

    /** A new handler has an empty registry and lists no tools. */
    constructor ()
      ensures Valid()
      ensures toolServices == [] && ListTools() == []
    {
      toolServices := [];
    }

    /** `list_tools`, as a pure read of the registry. */
    function ListTools(): (r: seq<Tool>)
      reads this
      ensures |r| == ToolCount(toolServices)
    {
      Flatten(toolServices)
    }

    /** `register`: derives the service's tools and appends one entry, only
        after every check has passed; on success returns the class unchanged. */
    method Register(cls: ServiceClass) returns (r: Result<ServiceClass, RegisterError>)
      requires Valid()
      modifies this
      ensures Valid()
      ensures r.Ok? <==> Registration(cls).Ok?
      ensures r.Ok? ==> r.value == cls && toolServices == old(toolServices) + [Registration(cls).value]
      ensures r.Err? ==> r.error == Registration(cls).error && toolServices == old(toolServices)
      ensures ListTools() == old(ListTools()) + (if r.Ok? then ServiceTools(Registration(cls).value) else [])
    {
      if cls.defn.None? {
        return Err(NotAService(cls.className));
      }
      var defn := cls.defn.value;
      if '/' in defn.name {
        return Err(SlashInServiceName(defn.name));
      }
      var ops := defn.operations;
      var tools: seq<ToolEntry> := [];
      var i := 0;
      while i < |ops|
        invariant 0 <= i <= |ops|
        invariant CollectTools(cls, ops[..i]) == Ok(tools)
        invariant toolServices == old(toolServices)
      {
        var op := ops[i];
        CollectToolsSnoc(cls, ops, i);
        var attrName := AttrName(op);
        if attrName !in cls.attrs {
          CollectToolsErrSticks(cls, ops, i + 1);
          return Err(MissingAttribute(attrName));
        }
        var attr := cls.attrs[attrName];
        if !attr.callable {
          CollectToolsErrSticks(cls, ops, i + 1);
          return Err(NotCallable(attrName));
        }
        if Exposes(attr) {
          tools := tools + [ToolEntry(attr, op)];
        }
        i := i + 1;
      }
      assert ops[..i] == ops;
      var entry := ToolService(defn, tools);
      RegisteredEntry(cls, toolServices);
      toolServices := toolServices + [entry];
      return Ok(cls);
    }
  }
}
