/** The `brave_web_search` tool: its advertised schema and its handler,
    which checks the arguments, fills in `count` and `offset` when they are
    absent and wraps the search text in a tool result. */
module WebSearchTool {
  import opened Js
  import opened Mcp
  import opened BraveTypes
  import opened RateLimit
  import opened BraveSearchApi

  const WebSearchToolName: string := "brave_web_search"
  const InvalidWebArguments: string := "Invalid arguments for brave_web_search"

  /** `WEB_SEARCH_TOOL`, without its prose descriptions. */
  const WebTool: Tool := Tool(
    WebSearchToolName,
    [ SchemaProperty("query", "string", None),
      SchemaProperty("count", "number", Some(Num(10))),
      SchemaProperty("offset", "number", Some(Num(0))) ],
    ["query"])

  /** `const { query, count = 10, offset = 0 } = args as WebSearchArgs`: a
      default replaces only an absent key; a key that is present, even with
      `null` or a value of another type, is taken as it is. */
  function WebArguments(args: Json): (a: WebSearchArgs)
    requires IsBraveWebSearchArgs(args)
    ensures Str(a.query) == args.fields["query"]
    ensures "count" in args.fields ==> a.count == args.fields["count"]
    ensures "count" !in args.fields ==> a.count == Num(10)
    ensures "offset" in args.fields ==> a.offset == args.fields["offset"]
    ensures "offset" !in args.fields ==> a.offset == Num(0)
  {
    WebSearchArgs(GetProperty(args, "query").value.s,
                  GetProperty(args, "count").GetOr(Num(10)),
                  GetProperty(args, "offset").GetOr(Num(0)))
  }

  /** `handleWebSearch(args)`; the web search runs at the call's first
      rate-limit check. */
  function HandleWebSearch(api: Api, c: Counters, clock: Clock, args: Json): (r: Run<CallToolResult>)
    ensures |r.sent| <= r.counters.month - c.month
    ensures r.result.Ok? ==>
      |r.result.value.content| == 1 && r.result.value.content[0].kind == "text" && !r.result.value.isError
  {
    if !IsBraveWebSearchArgs(args) then Run(Err(InvalidWebArguments), c, [])
    else
      var a := WebArguments(args);
      var search := WebSearch(api, c, clock(0), a.query, a.count, a.offset);
      match search.result
      case Ok(text) => Run(Ok(TextResult(text)), search.counters, search.sent)
      case Err(m) => Run(Err(m), search.counters, search.sent)
  }

  /** Arguments the guard refuses fail with "Invalid arguments for
      brave_web_search" before any search: no rate-limit check, no request. */
  lemma HandleWebSearchRejects(api: Api, c: Counters, clock: Clock, args: Json)
    requires !(args.Obj? && "query" in args.fields && args.fields["query"].Str?)
    ensures HandleWebSearch(api, c, clock, args) == Run(Err(InvalidWebArguments), c, [])
  {
  }

  /** Accepted arguments run the web search with the query, the given count
      or 10 and the given offset or 0, each forwarded unchanged (a `null`
      is given, not absent); the search text comes back as one text block
      with `isError: false`, and a search error is thrown as it is. */
  lemma HandleWebSearchForwards(api: Api, c: Counters, clock: Clock, fields: map<string, Json>)
    requires "query" in fields && fields["query"].Str?
    ensures var r := HandleWebSearch(api, c, clock, Obj(fields));
      var w := WebSearch(api, c, clock(0), fields["query"].s,
                         if "count" in fields then fields["count"] else Num(10),
                         if "offset" in fields then fields["offset"] else Num(0));
      && r.counters == w.counters && r.sent == w.sent
      && (w.result.Ok? ==> r.result == Ok(CallToolResult([TextContent("text", w.result.value)], false)))
      && (w.result.Err? ==> r.result == Err(w.result.message))
  {
  }

  /** The defaults the handler fills in are the ones the schema advertises,
      and `query`, the one key the guard demands, is the one key the schema
      requires. */
  lemma WebDefaultsMatchSchema(api: Api, c: Counters, clock: Clock, query: string)
    ensures WebTool.required == ["query"]
    ensures DeclaredDefault(WebTool, "count").Some?
    ensures DeclaredDefault(WebTool, "offset").Some?
    ensures HandleWebSearch(api, c, clock, Obj(map["query" := Str(query)])).sent ==
      WebSearch(api, c, clock(0), query,
                DeclaredDefault(WebTool, "count").value,
                DeclaredDefault(WebTool, "offset").value).sent
  {
    HandleWebSearchForwards(api, c, clock, map["query" := Str(query)]);
  }
}
