/** The `brave_local_search` tool: its advertised schema and its handler,
    which checks the arguments, fills in `count` when it is absent, wraps
    the search text in a tool result and re-throws any error. */
module LocalSearchTool {
  import opened Js
  import opened Mcp
  import opened BraveTypes
  import opened RateLimit
  import opened BraveSearchApi

  const LocalSearchToolName: string := "brave_local_search"
  const InvalidLocalArguments: string := "Invalid arguments for brave_local_search"

  /** `LOCAL_SEARCH_TOOL`, without its prose descriptions. */
  const LocalTool: Tool := Tool(
    LocalSearchToolName,
    [ SchemaProperty("query", "string", None),
      SchemaProperty("count", "number", Some(Num(5))) ],
    ["query"])

  /** `const { query, count = 5 } = args as LocalSearchArgs`: the default
      replaces only an absent `count`; a present one is taken as it is. */
  function LocalArguments(args: Json): (a: LocalSearchArgs)
    requires IsBraveLocalSearchArgs(args)
    ensures Str(a.query) == args.fields["query"]
    ensures "count" in args.fields ==> a.count == args.fields["count"]
    ensures "count" !in args.fields ==> a.count == Num(5)
  {
    LocalSearchArgs(GetProperty(args, "query").value.s, GetProperty(args, "count").GetOr(Num(5)))
  }

  /** `handleLocalSearch(args)` */
  function HandleLocalSearch(api: Api, c: Counters, clock: Clock, args: Json): (r: Run<CallToolResult>)
    ensures |r.sent| <= r.counters.month - c.month
    ensures r.result.Ok? ==>
      |r.result.value.content| == 1 && r.result.value.content[0].kind == "text" && !r.result.value.isError
  {
    if !IsBraveLocalSearchArgs(args) then Run(Err(InvalidLocalArguments), c, [])
    else
      var a := LocalArguments(args);
      var search := LocalSearch(api, c, clock, a.query, a.count);
      match search.result
      case Ok(text) => Run(Ok(TextResult(text)), search.counters, search.sent)
      case Err(m) => Run(Err(m), search.counters, search.sent)
  }

  /** Arguments the guard refuses fail with "Invalid arguments for
      brave_local_search" before any search: no rate-limit check, no request. */
  lemma HandleLocalSearchRejects(api: Api, c: Counters, clock: Clock, args: Json)
    requires !(args.Obj? && "query" in args.fields && args.fields["query"].Str?)
    ensures HandleLocalSearch(api, c, clock, args) == Run(Err(InvalidLocalArguments), c, [])
  {
  }

  /** Accepted arguments run the local search with the query and the given
      count or 5; the text comes back as one text block with `isError: false`,
      and any error of the search is re-thrown unchanged. */
  lemma HandleLocalSearchForwards(api: Api, c: Counters, clock: Clock, fields: map<string, Json>)
    requires "query" in fields && fields["query"].Str?
    ensures var r := HandleLocalSearch(api, c, clock, Obj(fields));
      var l := LocalSearch(api, c, clock, fields["query"].s,
                           if "count" in fields then fields["count"] else Num(5));
      && r.counters == l.counters && r.sent == l.sent
      && (l.result.Ok? ==> r.result == Ok(CallToolResult([TextContent("text", l.result.value)], false)))
      && (l.result.Err? ==> r.result == Err(l.result.message))
  {
  }

  /** Every error the handler throws is either its own argument error or
      the search's error, unchanged. */
  lemma HandleLocalSearchRethrows(api: Api, c: Counters, clock: Clock, args: Json)
    ensures var r := HandleLocalSearch(api, c, clock, args);
      r.result.Err? ==>
        if IsBraveLocalSearchArgs(args) then
          r.result.message == LocalSearch(api, c, clock, LocalArguments(args).query,
                                          LocalArguments(args).count).result.message
        else r.result.message == InvalidLocalArguments
  {
  }

  /** The default count the handler fills in is the one the schema
      advertises, and `query`, the one key the guard demands, is the one key
      the schema requires. */
  lemma LocalDefaultMatchesSchema(api: Api, c: Counters, clock: Clock, query: string)
    ensures LocalTool.required == ["query"]
    ensures DeclaredDefault(LocalTool, "count").Some?
    ensures HandleLocalSearch(api, c, clock, Obj(map["query" := Str(query)])).sent ==
      LocalSearch(api, c, clock, query, DeclaredDefault(LocalTool, "count").value).sent
  {
    HandleLocalSearchForwards(api, c, clock, map["query" := Str(query)]);
  }
}
