/** The MCP request handlers: `tools/list` advertises the two tools, and
    `tools/call` routes a call by tool name and turns every thrown error into
    a tool result flagged `isError`, so the dispatcher itself never throws. */
module Server {
  import opened Js
  import opened Mcp
  import opened BraveTypes
  import opened RateLimit
  import opened BraveSearchApi
  import opened WebSearchTool
  import opened LocalSearchTool

  const NoArguments: string := "No arguments provided"

  /** What V8 throws for `JSON.stringify(undefined).substring(0, 100)`. */
  const UndefinedSubstring: string := "Cannot read properties of undefined (reading 'substring')"

  /** The `params` of a `tools/call` request; `arguments` may be absent. */
  datatype CallToolRequest = CallToolRequest(name: string, arguments: Option<Json>)

  /** What the dispatcher answers, with the counters after the call and the
      upstream requests it caused. */
  datatype Reply = Reply(response: CallToolResult, counters: Counters, sent: seq<Request>)

  /** The `tools/list` answer. */
  function ListTools(): (tools: seq<Tool>)
    ensures forall i, j :: 0 <= i < j < |tools| ==> tools[i].name != tools[j].name
    ensures forall t :: t in tools ==> t.required == ["query"]
  {
    [WebTool, LocalTool]
  }

  /** The `catch` block's answer for an error with this message. */
  function ErrorResult(message: string): CallToolResult {
    CallToolResult([TextContent("text", "Error: " + message)], true)
  }

  function UnknownToolResult(name: string): CallToolResult {
    CallToolResult([TextContent("text", "Unknown tool: " + name)], true)
  }

  /** A handler's outcome as the dispatcher returns it: the handler's result
      unchanged, or the error caught and turned into an error result. */
  function Caught(run: Run<CallToolResult>): Reply {
    match run.result
    case Ok(r) => Reply(r, run.counters, run.sent)
    case Err(m) => Reply(ErrorResult(m), run.counters, run.sent)
  }

  /** The `tools/call` handler: reject falsy arguments, then route by name. */
  function CallTool(api: Api, c: Counters, clock: Clock, request: CallToolRequest): (reply: Reply)
    ensures |reply.response.content| == 1 && reply.response.content[0].kind == "text"
    ensures |reply.sent| <= reply.counters.month - c.month
  {
    if !Truthy(request.arguments) then Reply(ErrorResult(NoArguments), c, [])
    else
      var args := request.arguments.value;
      if request.name == WebSearchToolName then Caught(HandleWebSearch(api, c, clock, args))
      else if request.name == LocalSearchToolName then Caught(HandleLocalSearch(api, c, clock, args))
      else Reply(UnknownToolResult(request.name), c, [])
  }

  /** The `tools/call` handler as written: the log line before the argument
      test evaluates `JSON.stringify(args).substring(0, 100)`, and
      `JSON.stringify` gives `undefined` for absent arguments, so that
      expression throws a `TypeError` first. */
  function CallToolAsWritten(api: Api, c: Counters, clock: Clock, request: CallToolRequest): (reply: Reply)
    ensures |reply.response.content| == 1 && reply.response.content[0].kind == "text"
    ensures request.arguments.None? ==> reply.response.isError && reply.counters == c && reply.sent == []
  {
    if request.arguments.None? then Reply(ErrorResult(UndefinedSubstring), c, [])
    else CallTool(api, c, clock, request)
  }

  /** `tools/list` advertises web search, then local search. */
  lemma ListToolsNames()
    ensures |ListTools()| == 2
    ensures ListTools()[0].name == "brave_web_search" && ListTools()[1].name == "brave_local_search"
    ensures forall t :: t in ListTools() ==> t.required == ["query"]
  {
  }

  /** Falsy arguments (absent, `null`, `false`, `0`, `""`) are refused with
      "Error: No arguments provided" whatever the tool name, before any
      routing: nothing is checked against the rate limiter and nothing sent. */
  lemma CallToolNoArguments(api: Api, c: Counters, clock: Clock, name: string, args: Option<Json>)
    requires args.None? || args.value.Null? || args.value == Bool(false) || args.value == Num(0) || args.value == Str("")
    ensures CallTool(api, c, clock, CallToolRequest(name, args)) ==
      Reply(CallToolResult([TextContent("text", "Error: No arguments provided")], true), c, [])
  {
    assert "Error: " + NoArguments == "Error: No arguments provided";
  }

  /** A name that is not an advertised tool's gets "Unknown tool: <name>",
      with no "Error: " prefix, and nothing else happens. */
  lemma CallToolUnknownTool(api: Api, c: Counters, clock: Clock, name: string, args: Json)
    requires Truthy(Some(args))
    requires forall t :: t in ListTools() ==> t.name != name
    ensures CallTool(api, c, clock, CallToolRequest(name, Some(args))) ==
      Reply(CallToolResult([TextContent("text", "Unknown tool: " + name)], true), c, [])
  {
    assert ListTools()[0].name == WebSearchToolName;
    assert ListTools()[1].name == LocalSearchToolName;
  }

  /** Each advertised tool routes to its handler, whose result is returned
      unchanged or whose error becomes "Error: <message>". */
  lemma CallToolRoutes(api: Api, c: Counters, clock: Clock, args: Json)
    requires Truthy(Some(args))
    ensures CallTool(api, c, clock, CallToolRequest("brave_web_search", Some(args))) ==
      Caught(HandleWebSearch(api, c, clock, args))
    ensures CallTool(api, c, clock, CallToolRequest("brave_local_search", Some(args))) ==
      Caught(HandleLocalSearch(api, c, clock, args))
  {
  }

  /** Every answer is a single text block; it is flagged an error exactly
      when the arguments are falsy, the tool is unknown, or its handler threw. */
  lemma CallToolAnswerShape(api: Api, c: Counters, clock: Clock, request: CallToolRequest)
    ensures var reply := CallTool(api, c, clock, request);
      && |reply.response.content| == 1
      && reply.response.content[0].kind == "text"
      && (reply.response.isError <==>
            !Truthy(request.arguments) ||
            (request.name != WebSearchToolName && request.name != LocalSearchToolName) ||
            (request.name == WebSearchToolName &&
               HandleWebSearch(api, c, clock, request.arguments.value).result.Err?) ||
            (request.name == LocalSearchToolName &&
               HandleLocalSearch(api, c, clock, request.arguments.value).result.Err?))
  {
  }

  /** Whether the call's `count` and `offset`, where given, convert
      without a `TypeError`. */
  predicate Convertible(request: CallToolRequest) {
    request.arguments.None? ||
    (CountError(GetProperty(request.arguments.value, "count").GetOr(Num(0))).None? &&
     OffsetError(GetProperty(request.arguments.value, "offset").GetOr(Num(0))).None?)
  }

  /** The counters move only when a handler ran. When the call's `count`
      and `offset` convert, they move by one per request sent. */
  lemma CallToolSlots(api: Api, c: Counters, clock: Clock, request: CallToolRequest)
    ensures Convertible(request) ==>
      CallTool(api, c, clock, request).counters.month == c.month + |CallTool(api, c, clock, request).sent|
    ensures (!Truthy(request.arguments) ||
             (request.name != WebSearchToolName && request.name != LocalSearchToolName)) ==>
      CallTool(api, c, clock, request).counters == c
  {
    if Truthy(request.arguments) && Convertible(request) {
      var args := request.arguments.value;
      if request.name == WebSearchToolName && IsBraveWebSearchArgs(args) {
        var a := WebArguments(args);
        WebSearchSlots(api, c, clock(0), a.query, a.count, a.offset);
      } else if request.name == LocalSearchToolName && IsBraveLocalSearchArgs(args) {
        var a := LocalArguments(args);
        LocalSearchSlots(api, c, clock, a.query, a.count);
      }
    }
  }

  /** A web search call with `"offset": null` passes the rate limiter and
      then fails at `offset.toString()`: it answers the `TypeError`, uses a
      slot and sends nothing. */
  lemma NullOffsetAnswer(api: Api, c: Counters, clock: Clock, query: string)
    requires Check(c, clock(0)).outcome.Pass?
    ensures var reply := CallTool(api, c, clock,
        CallToolRequest("brave_web_search", Some(Obj(map["query" := Str(query), "offset" := Null]))));
      && reply.response == ErrorResult("Cannot read properties of null (reading 'toString')")
      && reply.counters.month == c.month + 1
      && reply.sent == []
  {
    var args := Obj(map["query" := Str(query), "offset" := Null]);
    assert IsBraveWebSearchArgs(args);
    var a := WebArguments(args);
    assert a.query == query && a.count == Num(10) && a.offset == Null;
    NullOffsetUsesSlot(api, c, clock(0), query, 10);
    var search := WebSearch(api, c, clock(0), query, Num(10), Null);
    assert search == Run(Err(NullOffset), Check(c, clock(0)).after, []);
    assert HandleWebSearch(api, c, clock, args) == Run(Err(NullOffset), Check(c, clock(0)).after, []);
  }

  /** With truthy arguments, the answer is "Unknown tool" exactly when the
      name is not one `tools/list` advertises. */
  lemma AdvertisedIffRouted(api: Api, c: Counters, clock: Clock, name: string, args: Json)
    requires Truthy(Some(args))
    ensures CallTool(api, c, clock, CallToolRequest(name, Some(args))).response == UnknownToolResult(name) <==>
      forall t :: t in ListTools() ==> t.name != name
  {
    var reply := CallTool(api, c, clock, CallToolRequest(name, Some(args)));
    assert ListTools()[0].name == WebSearchToolName;
    assert ListTools()[1].name == LocalSearchToolName;
    if name == WebSearchToolName || name == LocalSearchToolName {
      var text := reply.response.content[0].text;
      if reply.response.isError {
        assert text[0] == 'E';
      }
      assert UnknownToolResult(name).content[0].text[0] == 'U';
    }
  }

  lemma RefusedWebArguments(api: Api, c: Counters, clock: Clock, args: Json)
    requires Truthy(Some(args))
    requires !(args.Obj? && "query" in args.fields && args.fields["query"].Str?)
    ensures CallTool(api, c, clock, CallToolRequest(WebSearchToolName, Some(args))).response ==
      ErrorResult("Invalid arguments for " + WebSearchToolName)
    ensures CallTool(api, c, clock, CallToolRequest(WebSearchToolName, Some(args))).counters == c
    ensures CallTool(api, c, clock, CallToolRequest(WebSearchToolName, Some(args))).sent == []
  {
    HandleWebSearchRejects(api, c, clock, args);
    assert "Invalid arguments for " + WebSearchToolName == InvalidWebArguments;
  }

  lemma RefusedLocalArguments(api: Api, c: Counters, clock: Clock, args: Json)
    requires Truthy(Some(args))
    requires !(args.Obj? && "query" in args.fields && args.fields["query"].Str?)
    ensures CallTool(api, c, clock, CallToolRequest(LocalSearchToolName, Some(args))).response ==
      ErrorResult("Invalid arguments for " + LocalSearchToolName)
    ensures CallTool(api, c, clock, CallToolRequest(LocalSearchToolName, Some(args))).counters == c
    ensures CallTool(api, c, clock, CallToolRequest(LocalSearchToolName, Some(args))).sent == []
  {
    HandleLocalSearchRejects(api, c, clock, args);
    assert "Invalid arguments for " + LocalSearchToolName == InvalidLocalArguments;
  }

  /** An advertised tool called with arguments its guard refuses answers
      "Error: Invalid arguments for <tool name>" and sends nothing. */
  lemma InvalidArgumentsNameTheTool(api: Api, c: Counters, clock: Clock, t: Tool, args: Json)
    requires t in ListTools()
    requires Truthy(Some(args))
    requires !(args.Obj? && "query" in args.fields && args.fields["query"].Str?)
    ensures CallTool(api, c, clock, CallToolRequest(t.name, Some(args))).response ==
      ErrorResult("Invalid arguments for " + t.name)
    ensures CallTool(api, c, clock, CallToolRequest(t.name, Some(args))).counters == c
    ensures CallTool(api, c, clock, CallToolRequest(t.name, Some(args))).sent == []
  {
    if t.name == WebSearchToolName {
      RefusedWebArguments(api, c, clock, args);
    } else {
      assert t.name == LocalSearchToolName;
      RefusedLocalArguments(api, c, clock, args);
    }
  }

  /** As written, a call without `arguments` never reaches the argument
      test: it answers the `TypeError`, not "No arguments provided". */
  lemma MissingArgumentsAsWritten(api: Api, c: Counters, clock: Clock, name: string)
    ensures var reply := CallToolAsWritten(api, c, clock, CallToolRequest(name, None));
      reply.response == ErrorResult(UndefinedSubstring) &&
      reply.response != ErrorResult(NoArguments)
  {
    assert |ErrorResult(UndefinedSubstring).content[0].text| != |ErrorResult(NoArguments).content[0].text|;
  }

  /** As written and corrected agree on every call that has `arguments`. */
  lemma AsWrittenAgreesWithArguments(api: Api, c: Counters, clock: Clock, name: string, args: Json)
    ensures CallToolAsWritten(api, c, clock, CallToolRequest(name, Some(args))) ==
      CallTool(api, c, clock, CallToolRequest(name, Some(args)))
  {
  }
}
