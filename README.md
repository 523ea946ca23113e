# Brave Search MCP server: a Dafny model of its core

This project models the core of a Model Context Protocol server that
advertises two tools, `brave_web_search` and `brave_local_search`, and answers
their calls by querying the Brave Search API. The model covers:

- the in-process rate limiter: a fixed one-second window admitting one call
  and a process-lifetime ceiling of 15000 calls;
- the argument guards, over a JSON value datatype with the JavaScript
  `typeof`, truthiness and `in` rules written out;
- the search services. Web search clamps the count to 20, turns an upstream
  HTTP error into a thrown message and renders the results. Local search
  extracts location ids, falls back to web search when there are none,
  otherwise fetches POI details and descriptions, and renders them. With
  the configured one admission per second, that last branch never
  succeeds (see below);
- the two tool handlers;
- the `tools/list` and `tools/call` handlers. `tools/call` refuses falsy
  arguments, routes by name, and turns every thrown error into an `isError`
  result.

The model has two layers.

- **Specification functions.** `RateLimit.Check`, `BraveSearchApi.WebSearch`,
  `BraveSearchApi.LocalSearch`, `WebSearchTool.HandleWebSearch`,
  `LocalSearchTool.HandleLocalSearch` and `Server.CallTool` pass the
  rate-limit counters along explicitly. They return the answer, the new
  counters and the list of upstream requests sent.
- **Imperative methods.** `RateLimit.RateLimiter` is the mutable
  `requestCount` record. `CheckRateLimit`, `PerformWebSearch`, `GetPoisData`,
  `GetDescriptionsData` and `PerformLocalSearch` update it in place. Each
  method is proved to agree with its specification function, and the
  properties are proved as lemmas about those functions.

Outside effects become parameters:

- The HTTP API is an oracle `Api`. For each request it gives either a decoded
  body or an HTTP error (status, status text, body text).
- `Date.now()` becomes a time argument. Within one tool call, a `Clock` gives
  the instant of the k-th rate-limit check.

### Where the model follows the code rather than the documentation

- The web tool's schema says "offset max 9". The code never bounds the
  offset and passes it through unchanged, and so does the model.
- The local search fallback calls `performWebSearch(query, count)`. It
  passes the unclamped count and lets the offset default to 0. That fallback
  performs a second rate-limit check. With one admission per second, a
  fallback within the same second as the first check is therefore refused:
  see `BraveSearchApi.LocalSearchWithinOneWindowFails`.
- With the configured one admission per second, a local search that finds
  location ids always answers "Rate limit exceeded". `getPoisData` makes its
  rate-limit check and reaches its `fetch` before `getDescriptionsData`
  makes its own, with no `await` between the two checks, so they read the
  clock well under a second apart. An admitted POI check fills the window,
  and the descriptions check is refused. `formatLocalResults` is therefore
  never reached from `performLocalSearch`. The model keeps the clock a
  parameter, so the rendering branch of `LocalSearchLookupAnswer` is stated
  for clocks the program cannot produce; `BraveSearchApi.LookupsNeedTwoWindows`
  proves the refusal for every clock whose two lookup checks are at most a
  second apart.
- A missing review count renders as `0`, not as `N/A`.
- Non-number `count`/`offset` values are not rejected by any guard. They
  reach the search functions unchanged. After the rate-limit check has used
  its slot, `Math.min(count, 20)` throws for an object with an own
  `toString` key, or an array holding one. `offset.toString()` throws for
  `null` and for such values. Either way the call answers the `TypeError`
  and sends nothing.
- `Promise.all` waits for the POI and description lookups together. The model
  runs both lookups:
  - Their rate-limit checks run in order, POI first.
  - A lookup the limiter refuses throws before any HTTP response arrives, so
    its error is the one reported, the POI refusal winning over the
    description refusal.
  - When both lookups reach the network and both fail, the POI error is
    reported.

## Model

| member | source | states |
|---|---|---|
| RateLimit.Check | src/services/braveSearchApi.ts:16-28 | one check: the month counter grows by one exactly when the check admits; a refusal carries "Rate limit exceeded"; the window start moves to `now` exactly when more than 1000 ms have passed |
| RateLimit.CheckAdmitsIff | src/services/braveSearchApi.ts:18-25 | a check admits exactly when, after the possible window restart, the second counter is below 1 and the month counter below 15000 |
| RateLimit.CheckWindowRestart | src/services/braveSearchApi.ts:18-21 | strictly more than 1000 ms after the last restart the window restarts at `now` and the second counter restarts from 0; at 1000 ms or less both are kept |
| RateLimit.CheckCounts | src/services/braveSearchApi.ts:22-27 | a refusal throws "Rate limit exceeded" and counts nothing; an admission adds exactly one to each counter; the month counter is never reset |
| RateLimit.CheckPreservesValid | src/services/braveSearchApi.ts:22-27 | checks keep both counters within their ceilings |
| RateLimit.SaturatedWindowRefuses | src/services/braveSearchApi.ts:22-25 | once the window's allowance is used, every further check in it is refused and changes nothing |
| RateLimit.AtMostPerSecondPerWindow | src/services/braveSearchApi.ts:16-28 | any run of checks inside one window admits at most the allowance left in it and does not move the window start |
| RateLimit.AtMostPerMonth | src/services/braveSearchApi.ts:16-28 | over any run of checks the month counter grows by exactly the number admitted and never passes 15000 |
| RateLimit.RateLimiter.constructor | src/config/constants.ts:10-14 | the record starts with both counters at 0 and the window opening at creation time |
| RateLimit.RateLimiter.CheckRateLimit | src/services/braveSearchApi.ts:16-28 | the in-place update yields exactly the outcome and counters of `Check` on the old record, keeps them within ceilings and never lowers the month counter |
| Js.NatToStringDigits | src/services/braveSearchApi.ts:167 | the decimal spelling of a number is a non-empty digit string that starts with "0" only for 0 itself |
| Js.NatToStringRoundTrip | src/services/braveSearchApi.ts:167 | reading back the decimal spelling gives the number |
| Js.NoIndexIsQuery | src/types/braveSearch.ts:65-72 | no own property of an array is named "query" |
| Js.JoinEmptyIff | src/services/braveSearchApi.ts:169 | joining with a non-empty separator gives "" exactly when there is no part or a single empty part |
| Js.JoinSnoc | src/services/braveSearchApi.ts:61-63 | joining one more part appends the separator and that part |
| Js.JoinStartsWithFirst | src/services/braveSearchApi.ts:172 | a join starts with its first part |
| Js.NonEmpty | src/services/braveSearchApi.ts:162 | filtering out empty strings keeps no empty part and never lengthens the list |
| Js.NonEmptyMembers | src/services/braveSearchApi.ts:162 | a string is in the filtered list exactly when it is a part and not empty: every non-empty part is kept, nothing is added |
| Js.NonEmptyAppend | src/services/braveSearchApi.ts:162 | the filter distributes over concatenation, so the kept parts stay in their order |
| Js.NonEmptyNoneIff | src/services/braveSearchApi.ts:157-162 | the filter leaves nothing exactly when every part is empty |
| BraveTypes.IsBraveWebSearchArgs | src/types/braveSearch.ts:65-72 | the guard holds exactly for an object with a string-valued own key `query`; null, booleans, numbers, strings and arrays are refused |
| BraveTypes.IsBraveLocalSearchArgs | src/types/braveSearch.ts:74-81 | the local guard admits exactly what the web guard admits |
| BraveTypes.OtherKeysIrrelevant | src/types/braveSearch.ts:65-72 | adding, replacing or removing any key other than `query` never changes the guard's verdict |
| WebSearchTool.WebArguments | src/tools/webSearch.ts:41 | the destructured `query` is the object's; `count` is the given value when the key is present (even `null`) and 10 only when it is absent; likewise `offset` with 0 |
| LocalSearchTool.LocalArguments | src/tools/localSearch.ts:44 | the destructured `query` is the object's; `count` is the given value when the key is present (even `null`) and 5 only when it is absent |
| BraveSearchApi.ClampCount | src/services/braveSearchApi.ts:37 | a number count becomes the smaller of it and 20, never above 20 and unchanged at or below it; other values pass through |
| BraveSearchApi.CountError | src/services/braveSearchApi.ts:37 | `Math.min(count, 20)` throws "Cannot convert object to primitive value" only for an object or array; an object throws exactly when it has an own `toString` key |
| BraveSearchApi.OffsetError | src/services/braveSearchApi.ts:38 | `offset.toString()` never throws for a number, string or boolean; `null` throws "Cannot read properties of null (reading 'toString')"; an object throws exactly when it has an own `toString` key |
| BraveSearchApi.FormatWebResults | src/services/braveSearchApi.ts:55-63 | when there is at least one result the text starts with "Title: " |
| BraveSearchApi.FormatWebResultsEmptyIff | src/services/braveSearchApi.ts:55-63 | the web answer is "" exactly when there is no result list or it is empty |
| BraveSearchApi.FormatWebSingle | src/services/braveSearchApi.ts:61-63 | one result renders as its single Title/Description/URL block |
| BraveSearchApi.WebBlockMissingFields | src/services/braveSearchApi.ts:55-59 | for every result, each of title, description and URL renders as its value when present and as "" when absent, independently of the other two |
| BraveSearchApi.ConformingWebBlock | src/services/braveSearchApi.ts:55-62 | a result with all three declared fields renders them unchanged |
| BraveSearchApi.FormatWebListSnoc | src/services/braveSearchApi.ts:61-63 | one more result appends a blank line and its block, in order |
| BraveSearchApi.KeptIds | src/services/braveSearchApi.ts:91 | the filter never yields more ids than there are entries |
| BraveSearchApi.LocationIds | src/services/braveSearchApi.ts:91 | an absent `locations` or `results` gives no ids |
| BraveSearchApi.KeptIdsAppend | src/services/braveSearchApi.ts:91 | id extraction distributes over concatenation, keeping order |
| BraveSearchApi.KeptIdsMembers | src/services/braveSearchApi.ts:91 | an id is extracted exactly when some entry carries it |
| BraveSearchApi.KeptIdsNoneIff | src/services/braveSearchApi.ts:91-93 | no id is extracted exactly when no entry has one |
| BraveSearchApi.KeptIdsConforming | src/services/braveSearchApi.ts:91 | when every entry has an id, one id per entry is extracted in order |
| BraveSearchApi.ConformingLocationIds | src/services/braveSearchApi.ts:91 | on a web answer shaped as declared, every location entry contributes its id |
| BraveSearchApi.FormatLocalResults | src/services/braveSearchApi.ts:155-173 | the local answer is never empty, and is "No local results found" when there are no POIs |
| BraveSearchApi.AddressLineCases | src/services/braveSearchApi.ts:157-162 | the address line is "N/A" when every part is absent or empty, and otherwise the non-empty parts joined in order by ", ", never "" |
| BraveSearchApi.HoursLineCases | src/services/braveSearchApi.ts:169 | the hours line is "N/A" exactly when there are no hours or only one empty entry, and otherwise the ", "-joined hours |
| BraveSearchApi.DescriptionLineCases | src/services/braveSearchApi.ts:170 | a missing or empty description renders as "No description available", any other as itself |
| BraveSearchApi.LocalBlockPlaceholders | src/services/braveSearchApi.ts:164-171 | a POI with nothing but id and name renders N/A placeholders, "(0 reviews)" and the description fallback |
| BraveSearchApi.LocalBlockLines | src/services/braveSearchApi.ts:164-171 | every line of a POI block: phone and price fall back to "N/A" when absent or empty; rating value to "N/A" and review count to 0 only when absent, each on its own, so 0 shows as "0" |
| BraveSearchApi.FormatLocalEmptyIff | src/services/braveSearchApi.ts:155-172 | the local answer is "No local results found" exactly when there are no POIs |
| BraveSearchApi.ConformingPoisEmptyIff | src/services/braveSearchApi.ts:155-172 | on a POI answer shaped as declared, the fallback text appears exactly when its results array is empty |
| BraveSearchApi.FormatLocalSnoc | src/services/braveSearchApi.ts:155-172 | one more POI appends the "\n---\n" separator and its block, in order |
| BraveSearchApi.WebSearch | src/services/braveSearchApi.ts:33-64 | the counters are those of one check; no more requests are sent than slots used; the only request ever sent is the query with the clamped count and the offset; an answer always follows a request |
| BraveSearchApi.PoisLookup | src/services/braveSearchApi.ts:109-127 | the counters are those of one check; the only request ever sent carries the non-empty ids; an answer always follows a request |
| BraveSearchApi.DescriptionsLookup | src/services/braveSearchApi.ts:132-150 | the counters are those of one check; the only request ever sent carries the non-empty ids; an answer always follows a request |
| BraveSearchApi.JoinLookups | src/services/braveSearchApi.ts:98-103 | the combined lookup succeeds exactly when both lookups do, and its error is always one of theirs |
| BraveSearchApi.LocalSearch | src/services/braveSearchApi.ts:69-104 | no more requests are sent than slots used; the first request is always the location search; an answer needs at least two requests |
| BraveSearchApi.WebSearchRequest | src/services/braveSearchApi.ts:33-40 | a refused check sends nothing; an admitted one then throws, sending nothing, when `count` does not convert (line 37) and otherwise when `offset.toString()` throws (line 38); past both it sends exactly the query with the clamped count and the offset |
| BraveSearchApi.WebSearchAnswer | src/services/braveSearchApi.ts:48-63 | once the request is sent, an HTTP error becomes "Brave API error: <status> <statusText>\n<text>" and a body becomes its formatted results |
| BraveSearchApi.NullOffsetUsesSlot | src/services/braveSearchApi.ts:34-38 | an admitted web search with a `null` offset throws the `toString` TypeError, uses one slot and sends nothing |
| BraveSearchApi.LocalSearchFallback | src/services/braveSearchApi.ts:93-95 | when `count` converts and there are no location ids, local search answers and sends what a web search with the same query and count and offset 0 does at the next check |
| BraveSearchApi.LocalSearchCountError | src/services/braveSearchApi.ts:70-76 | a `count` that does not convert makes an admitted local search throw at `Math.min`, having used one slot and sent nothing |
| BraveSearchApi.WebSearchSlots | src/services/braveSearchApi.ts:34-38 | the month counter grows by one exactly when the check admits; when `count` and `offset` convert, by one per request sent |
| BraveSearchApi.PoisLookupSlots | src/services/braveSearchApi.ts:109-127 | the month counter grows by the number of requests sent |
| BraveSearchApi.DescriptionsLookupSlots | src/services/braveSearchApi.ts:132-150 | the month counter grows by the number of requests sent |
| BraveSearchApi.LocalSearchSlots | src/services/braveSearchApi.ts:69-104 | when `count` converts, the month counter grows by exactly the number of requests local search sent; when it does not, nothing is sent |
| BraveSearchApi.LocalSearchChecks | src/services/braveSearchApi.ts:69-104 | local search makes one check (refused, `count` not converting, or location search failing), two (fallback) or three (lookups), and its counters are those of that many checks at the clock's instants |
| BraveSearchApi.LocalSearchLookupRequests | src/services/braveSearchApi.ts:97-101 | with location ids, the requests are the location search, then the POI request if the second check admits it, then the descriptions request if the third does, both with the non-empty ids |
| BraveSearchApi.LocalSearchLookupAnswer | src/services/braveSearchApi.ts:97-103 | with location ids, either refusal answers "Rate limit exceeded"; with both admitted, a POI HTTP error is reported before a descriptions one, and two bodies give their rendering |
| BraveSearchApi.LookupsNeedTwoWindows | src/services/braveSearchApi.ts:98-133 | with one admission per second and the two lookup checks at most a second apart, as the program makes them, a local search that finds location ids answers "Rate limit exceeded" |
| BraveSearchApi.LocalSearchWithinOneWindowFails | src/services/braveSearchApi.ts:93-101 | when the second check falls in the window the first one used, local search always throws, and once the location search has answered the error is "Rate limit exceeded" |
| BraveSearchApi.PerformWebSearch | src/services/braveSearchApi.ts:33-64 | the in-place version yields the answer, requests and counters of `WebSearch` on the old record |
| BraveSearchApi.GetPoisData | src/services/braveSearchApi.ts:109-127 | the in-place version yields the answer, requests and counters of `PoisLookup` on the old record |
| BraveSearchApi.GetDescriptionsData | src/services/braveSearchApi.ts:132-150 | the in-place version yields the answer, requests and counters of `DescriptionsLookup` on the old record |
| BraveSearchApi.PerformLocalSearch | src/services/braveSearchApi.ts:69-104 | the in-place version yields the answer, requests and counters of `LocalSearch` on the old record |
| WebSearchTool.HandleWebSearch | src/tools/webSearch.ts:36-48 | no more requests are sent than slots used; a returned result is a single text block not flagged as an error |
| WebSearchTool.HandleWebSearchRejects | src/tools/webSearch.ts:37-39 | arguments the guard refuses throw "Invalid arguments for brave_web_search" with nothing counted or sent |
| WebSearchTool.HandleWebSearchForwards | src/tools/webSearch.ts:41-47 | admitted arguments run web search with the query and with count/offset defaulting to 10/0 only when absent; its text becomes a non-error result and its error is rethrown |
| WebSearchTool.WebDefaultsMatchSchema | src/tools/webSearch.ts:13-41 | the defaults the handler applies are the ones the schema advertises, and the schema requires exactly `query` |
| LocalSearchTool.HandleLocalSearch | src/tools/localSearch.ts:36-56 | no more requests are sent than slots used; a returned result is a single text block not flagged as an error |
| LocalSearchTool.HandleLocalSearchRejects | src/tools/localSearch.ts:40-42 | arguments the guard refuses throw "Invalid arguments for brave_local_search" with nothing counted or sent |
| LocalSearchTool.HandleLocalSearchForwards | src/tools/localSearch.ts:44-51 | admitted arguments run local search with the query and with count defaulting to 5 only when absent; its text becomes a non-error result |
| LocalSearchTool.HandleLocalSearchRethrows | src/tools/localSearch.ts:52-55 | an error of local search is rethrown unchanged |
| LocalSearchTool.LocalDefaultMatchesSchema | src/tools/localSearch.ts:18-44 | the count default the handler applies is the one the schema advertises, and the schema requires exactly `query` |
| Server.ListTools | src/index.ts:43-48 | the advertised tools have distinct names, so routing by name is unambiguous, and each requires only `query` |
| Server.CallTool | src/index.ts:50-98 | corrected dispatcher: every answer is one text block, and no more requests are sent than slots used |
| Server.CallToolAsWritten | src/index.ts:50-98 | dispatcher as written: every answer is one text block, and a call without `arguments` answers an error having counted and sent nothing |
| Server.ListToolsNames | src/index.ts:43-48 | `tools/list` advertises web search then local search, each requiring only `query` |
| Server.CallToolNoArguments | src/index.ts:57-60 | falsy arguments answer "Error: No arguments provided" for any name, with nothing counted or sent |
| Server.CallToolUnknownTool | src/index.ts:72-77 | a name no advertised tool has answers "Unknown tool: <name>" flagged as an error, with nothing counted or sent |
| Server.CallToolRoutes | src/index.ts:63-70 | each tool name routes to its handler, whose result is returned and whose error becomes "Error: <message>" |
| Server.CallToolAnswerShape | src/index.ts:50-97 | every answer is one text block, flagged as an error exactly when the arguments are falsy, the tool is unknown or the handler threw |
| Server.CallToolSlots | src/index.ts:50-98 | falsy arguments and unknown tools leave the counters unchanged; when the call's `count` and `offset` convert, the month counter grows by exactly the number of requests sent |
| Server.NullOffsetAnswer | src/index.ts:63-66 | a web search call with `"offset": null` answers "Error: Cannot read properties of null (reading 'toString')", uses a slot and sends nothing |
| Server.AdvertisedIffRouted | src/index.ts:43-77 | with truthy arguments, the answer is "Unknown tool" exactly when `tools/list` does not advertise the name |
| Server.RefusedWebArguments | src/index.ts:63-66 | web search with arguments its guard refuses answers "Error: Invalid arguments for brave_web_search" and sends nothing |
| Server.RefusedLocalArguments | src/index.ts:67-70 | local search with arguments its guard refuses answers "Error: Invalid arguments for brave_local_search" and sends nothing |
| Server.InvalidArgumentsNameTheTool | src/index.ts:63-70 | any advertised tool given arguments its guard refuses answers "Error: Invalid arguments for <tool name>" and sends nothing |
| Server.MissingArgumentsAsWritten | src/index.ts:55-60 | as written, a call without `arguments` answers the TypeError of the log line, not "No arguments provided" |
| Server.AsWrittenAgreesWithArguments | src/index.ts:54-57 | as written and corrected dispatchers agree on every call that has `arguments` |

## Left out

- HTTP: URL construction, query parameters, request headers, `fetch` and JSON
  decoding are not modelled. The oracle `Api` gives the decoded body or the
  HTTP error for each request.
- Server.CallTool and BraveSearchApi.LocalSearch: each tool call is modelled
  as running alone; the counters go in when the call starts and come back
  when it has finished. In the program `requestCount` is one shared record,
  and another call's `checkRateLimit` can run while this one waits at an
  `await fetch`. Checks of overlapping calls interleaving at the awaits are
  not modelled, so `LocalSearchFallback`, `LocalSearchChecks` and the other
  per-call lemmas hold only for a call that no other call overlaps.
  `RateLimit.AtMostPerSecondPerWindow` and `RateLimit.AtMostPerMonth` are
  about any run of checks, so they hold for the checks of overlapping calls
  too, in whatever order they interleave.
- Concurrency: the two `Promise.all` lookups run in sequence. When each
  fails with an HTTP error, the real winner is whichever settles first; the
  model reports the POI error.
- JavaScript numbers are modelled as integers: fractions, NaN and infinities
  do not occur. A rating like 4.5 cannot be represented.
- BraveSearchApi.ClampCount: does not model the ToNumber coercion `Math.min`
  applies to a non-number count (a string "5" or `null`, say), because the
  request records the JSON value as received. The `toString` spelling of
  count and offset inside the URL is not modelled for the same reason. The
  `TypeError` either conversion can throw is modelled (`CountError`,
  `OffsetError`).
- The `in` operator sees own properties only; inherited prototype properties
  such as `toString` are not modelled.
- A descriptions answer without its `descriptions` object, which would throw
  a TypeError, is not modelled: the map is always present.
- A POI without `name` (rendered "undefined") is not modelled: `id` and
  `name` are always present, as the interface declares.
- `coordinates` and the web results' `language`, `published` and `rank` are
  carried or declared but never read.
- Logging, metrics counters and latency timers, the security middleware, the
  SSE transport, the server metadata and the startup API-key check are not
  part of this model. `JSON.stringify` is modelled only by whether its result
  is a string, which is the case for every present argument value.
- Tool descriptions (prose) are not modelled; names, property types,
  defaults and required keys are.

## Findings

| source | as written | input that shows it | evidently intended | confidence | as-written member | corrected member |
|---|---|---|---|---|---|---|
| src/index.ts:55 | the log line evaluates `JSON.stringify(args).substring(0, 100)` before the `!args` test; `JSON.stringify(undefined)` is `undefined`, so the call throws a TypeError | a `tools/call` request whose params have no `arguments` field | the answer "Error: No arguments provided" from the test at lines 57-60 | high, not executed | Server.MissingArgumentsAsWritten | Server.CallToolNoArguments |
