/** The search client: the web search, the two-stage local search with its
    fallback, the POI and description lookups, and the text the results are
    rendered as. Every upstream call first passes the rate limiter.

    The HTTP endpoints are an oracle (`Api`): a total function from the
    request sent to either the parsed answer or the error status. Each
    operation is a function of the limiter's counters that also reports the
    requests it sent (`Run`); the methods at the end perform the same steps
    on the shared `RateLimiter` object and are proved to agree with them. */
module BraveSearchApi {
  import opened Js
  import opened BraveTypes
  import opened RateLimit

  /** The most results the web search endpoint is asked for. */
  const MaxCount: int := 20

  const NoLocalResults: string := "No local results found"
  const NoDescription: string := "No description available"
  const Missing: string := "N/A"

  /** V8's `TypeError` messages for the conversions below. */
  const NotPrimitive: string := "Cannot convert object to primitive value"
  const NullOffset: string := "Cannot read properties of null (reading 'toString')"
  const OffsetNotFunction: string := "offset.toString is not a function"

  /** A request as sent upstream, with the query parameters that vary. */
  datatype Request =
      /** web search: `q`, `count`, `offset` */
    | WebQuery(q: string, count: Json, offset: Json)
      /** web search restricted to locations: `q`, `search_lang=en`,
          `result_filter=locations`, `count` */
    | LocationQuery(q: string, count: Json)
      /** POI lookup: one `ids` parameter per id */
    | PoisQuery(ids: seq<string>)
      /** description lookup: one `ids` parameter per id */
    | DescriptionsQuery(ids: seq<string>)

  /** What an endpoint answers: a parsed body (`response.ok`), or the status,
      status text and body text of a failed response. */
  datatype Fetched<+T> = Body(value: T) | HttpError(status: int, statusText: string, text: string)

  /** The three upstream endpoints. */
  datatype Api = Api(
    web: Request -> Fetched<BraveWeb>,
    pois: Request -> Fetched<BravePoiResponse>,
    descriptions: Request -> Fetched<BraveDescription>)

  /** `clock(k)` is what `Date.now()` reads at the k-th rate-limit check
      made while serving one tool call (counting from 0). */
  type Clock = nat -> int

  /** An operation's outcome, the counters after it and the requests it sent,
      in the order sent. */
  datatype Run<+T> = Run(result: Result<T>, counters: Counters, sent: seq<Request>)

  // ---------------------------------------------------------------------
  // Requests and responses

  /** `Math.min(count, 20)` for a numeric count; any other value is sent as
      it came. */
  function ClampCount(count: Json): (r: Json)
    ensures count.Num? ==> r.Num? && r.n <= MaxCount && r.n <= count.n && (r.n == count.n || r.n == MaxCount)
    ensures !count.Num? ==> r == count
  {
    if count.Num? && count.n > MaxCount then Num(MaxCount) else count
  }

  /** The `TypeError` that `Math.min(count, 20)` throws converting `count`
      to a number, if any: numbers, strings, booleans and `null` always
      convert. */
  function CountError(count: Json): (r: Option<string>)
    ensures r.Some? ==> r.value == NotPrimitive && (count.Obj? || count.Arr?)
    ensures count.Obj? ==> (r.Some? <==> "toString" in count.fields)
  {
    if ToPrimitiveThrows(count) then Some(NotPrimitive) else None
  }

  /** The `TypeError` that `offset.toString()` throws, if any: `null` has
      no properties, an own `toString` key is not a function, and an array
      converts its elements. */
  function OffsetError(offset: Json): (r: Option<string>)
    ensures offset.Num? || offset.Str? || offset.Bool? ==> r.None?
    ensures offset.Null? ==> r == Some(NullOffset)
    ensures offset.Obj? ==> (r.Some? <==> "toString" in offset.fields)
  {
    match offset
    case Null => Some(NullOffset)
    case Obj(fields) => if "toString" in fields then Some(OffsetNotFunction) else None
    case Arr(_) => if ToPrimitiveThrows(offset) then Some(NotPrimitive) else None
    case _ => None
  }

  function ApiErrorMessage(status: int, statusText: string, text: string): string {
    "Brave API error: " + IntToString(status) + " " + statusText + "\n" + text
  }

  /** `response.ok ? await response.json() : throw ...` */
  function Settle<T>(f: Fetched<T>): Result<T> {
    match f
    case Body(v) => Ok(v)
    case HttpError(status, statusText, text) => Err(ApiErrorMessage(status, statusText, text))
  }

  // ---------------------------------------------------------------------
  // Web results

  /** `data.web?.results || []` */
  function WebResults(data: BraveWeb): seq<WebResult> {
    match data.web
    case None => []
    case Some(section) => section.results.GetOr([])
  }

  function WebBlock(r: WebResult): string {
    "Title: " + OrString(r.title, "") +
    "\nDescription: " + OrString(r.description, "") +
    "\nURL: " + OrString(r.url, "")
  }

  function WebBlocks(rs: seq<WebResult>): (blocks: seq<string>)
    ensures |blocks| == |rs|
  {
    seq(|rs|, i requires 0 <= i < |rs| => WebBlock(rs[i]))
  }

  function FormatWebList(rs: seq<WebResult>): string {
    Join(WebBlocks(rs), "\n\n")
  }

  /** The text a web search answers with. */
  function FormatWebResults(data: BraveWeb): (text: string)
    ensures WebResults(data) != [] ==> "Title: " <= text
  {
    FormatWebList(WebResults(data))
  }

  lemma WebBlockStart(r: WebResult)
    ensures "Title: " <= WebBlock(r)
  {
  }

  /** The text is empty exactly when there are no results: absent `web`,
      absent `results` and an empty array all give "". */
  lemma FormatWebResultsEmptyIff(data: BraveWeb)
    ensures FormatWebResults(data) == "" <==> WebResults(data) == []
    ensures data.web.None? || data.web.value.results.None? ==> FormatWebResults(data) == ""
  {
    var rs := WebResults(data);
    JoinEmptyIff(WebBlocks(rs), "\n\n");
    if |rs| == 1 {
      WebBlockStart(rs[0]);
    }
  }

  /** One result renders as its three labelled lines. */
  lemma FormatWebSingle(r: WebResult)
    ensures FormatWebList([r]) ==
      "Title: " + OrString(r.title, "") + "\nDescription: " + OrString(r.description, "") + "\nURL: " + OrString(r.url, "")
  {
  }

  /** Each field of a result renders on its own: a present field as it is,
      a missing one as "" (and an empty one is "" too), whatever the other
      two fields hold. */
  lemma WebBlockMissingFields(r: WebResult)
    ensures WebBlock(r) ==
      "Title: " + (if r.title.Some? then r.title.value else "") +
      "\nDescription: " + (if r.description.Some? then r.description.value else "") +
      "\nURL: " + (if r.url.Some? then r.url.value else "")
    ensures r.title.None? ==> "Title: \nDescription: " <= WebBlock(r)
  {
    var title := if r.title.Some? then r.title.value else "";
    var description := if r.description.Some? then r.description.value else "";
    var url := if r.url.Some? then r.url.value else "";
    assert OrString(r.title, "") == title;
    assert OrString(r.description, "") == description;
    assert OrString(r.url, "") == url;
  }

  /** Results render in input order, separated by a blank line. */
  lemma FormatWebListSnoc(rs: seq<WebResult>, r: WebResult)
    requires |rs| >= 1
    ensures FormatWebList(rs + [r]) == FormatWebList(rs) + "\n\n" + WebBlock(r)
  {
    assert WebBlocks(rs + [r]) == WebBlocks(rs) + [WebBlock(r)];
    JoinSnoc(WebBlocks(rs), WebBlock(r), "\n\n");
  }

  // ---------------------------------------------------------------------
  // Location ids

  /** The ids of the entries whose `id` is neither `null` nor `undefined`,
      in order. */
  function KeptIds(rs: seq<LocationRef>): (ids: seq<string>)
    ensures |ids| <= |rs|
  {
    if |rs| == 0 then []
    else (if rs[0].id.Some? then [rs[0].id.value] else []) + KeptIds(rs[1..])
  }

  /** `webData.locations?.results?.filter(r => r.id != null).map(r => r.id) || []` */
  function LocationIds(data: BraveWeb): (ids: seq<string>)
    ensures data.locations.None? || data.locations.value.results.None? ==> ids == []
  {
    match data.locations
    case None => []
    case Some(section) => KeptIds(section.results.GetOr([]))
  }

  /** Keeping ids distributes over concatenation, so ids keep their order. */
  lemma {:induction false} KeptIdsAppend(a: seq<LocationRef>, b: seq<LocationRef>)
    ensures KeptIds(a + b) == KeptIds(a) + KeptIds(b)
    decreases |a|
  {
    if |a| == 0 {
      assert a + b == b;
    } else {
      var head := if a[0].id.Some? then [a[0].id.value] else [];
      assert (a + b)[0] == a[0];
      assert (a + b)[1..] == a[1..] + b;
      assert KeptIds(a + b) == head + KeptIds(a[1..] + b);
      KeptIdsAppend(a[1..], b);
      assert KeptIds(a) == head + KeptIds(a[1..]);
      assert head + (KeptIds(a[1..]) + KeptIds(b)) == (head + KeptIds(a[1..])) + KeptIds(b);
    }
  }

  /** An id is kept exactly when some entry carries it. */
  lemma {:induction false} KeptIdsMembers(rs: seq<LocationRef>, id: string)
    ensures id in KeptIds(rs) <==> exists i :: 0 <= i < |rs| && rs[i].id == Some(id)
    decreases |rs|
  {
    if |rs| > 0 {
      KeptIdsMembers(rs[1..], id);
      if id in KeptIds(rs[1..]) {
        var i :| 0 <= i < |rs[1..]| && rs[1..][i].id == Some(id);
        assert rs[i + 1].id == Some(id);
      }
      if exists i :: 0 <= i < |rs| && rs[i].id == Some(id) {
        var i :| 0 <= i < |rs| && rs[i].id == Some(id);
        if i > 0 {
          assert rs[1..][i - 1].id == Some(id);
        }
      }
    }
  }

  /** No id is kept exactly when every entry lacks one. */
  lemma {:induction false} KeptIdsNoneIff(rs: seq<LocationRef>)
    ensures KeptIds(rs) == [] <==> forall i :: 0 <= i < |rs| ==> rs[i].id.None?
    decreases |rs|
  {
    if |rs| > 0 {
      KeptIdsNoneIff(rs[1..]);
      assert forall i :: 1 <= i < |rs| ==> rs[i] == rs[1..][i - 1];
    }
  }

  /** When every entry has its id, as the interface declares, every entry
      contributes its id. */
  lemma {:induction false} KeptIdsConforming(rs: seq<LocationRef>)
    requires forall r :: r in rs ==> r.id.Some?
    ensures |KeptIds(rs)| == |rs|
    ensures forall i :: 0 <= i < |rs| ==> KeptIds(rs)[i] == rs[i].id.value
    decreases |rs|
  {
    if |rs| > 0 {
      assert forall r :: r in rs[1..] ==> r in rs;
      KeptIdsConforming(rs[1..]);
    }
  }

  /** On a web answer shaped as the interface declares, every location entry
      contributes its id. */
  lemma ConformingLocationIds(data: BraveWeb)
    requires WebConforms(data)
    requires data.locations.Some? && data.locations.value.results.Some?
    ensures |LocationIds(data)| == |data.locations.value.results.value|
  {
    KeptIdsConforming(data.locations.value.results.value);
  }

  /** On a web result shaped as the interface declares, `|| ''` changes
      nothing: the block shows the three fields as they are. */
  lemma ConformingWebBlock(r: WebResult)
    requires r.title.Some? && r.description.Some? && r.url.Some?
    ensures WebBlock(r) ==
      "Title: " + r.title.value + "\nDescription: " + r.description.value + "\nURL: " + r.url.value
  {
  }

  // ---------------------------------------------------------------------
  // Local results

  /** `[street ?? '', locality ?? '', region ?? '', postalCode ?? '']` */
  function AddressParts(a: Option<Address>): seq<string> {
    match a
    case None => ["", "", "", ""]
    case Some(x) => [
      Coalesce(x.streetAddress, ""), Coalesce(x.addressLocality, ""),
      Coalesce(x.addressRegion, ""), Coalesce(x.postalCode, "")]
  }

  /** The non-empty address parts joined by ", ", or "N/A". */
  function AddressLine(a: Option<Address>): string {
    var joined := Join(NonEmpty(AddressParts(a)), ", ");
    if joined != "" then joined else Missing
  }

  /** `ratingValue ?? 'N/A'` */
  function RatingValueText(r: Option<Rating>): string {
    match r
    case Some(Rating(Some(v), _)) => IntToString(v)
    case _ => Missing
  }

  /** `ratingCount ?? 0` */
  function RatingCountText(r: Option<Rating>): string {
    match r
    case Some(Rating(_, Some(n))) => IntToString(n)
    case _ => IntToString(0)
  }

  /** `(openingHours || []).join(', ') || 'N/A'` */
  function HoursLine(h: Option<seq<string>>): string {
    var joined := Join(h.GetOr([]), ", ");
    if joined != "" then joined else Missing
  }

  /** `descriptions[id] || 'No description available'` */
  function DescriptionLine(d: BraveDescription, id: string): string {
    OrString(if id in d.descriptions then Some(d.descriptions[id]) else None, NoDescription)
  }

  /** One POI's block: its name line, then `LocalFields`. */
  function LocalBlock(poi: BraveLocation, d: BraveDescription): string {
    "Name: " + LocalFields(poi, d)
  }

  /** The block after "Name: ": the name, then one line per field. */
  function LocalFields(poi: BraveLocation, d: BraveDescription): string {
    poi.name +
    "\nAddress: " + AddressLine(poi.address) +
    "\nPhone: " + OrString(poi.phone, Missing) +
    "\nRating: " + RatingValueText(poi.rating) + " (" + RatingCountText(poi.rating) + " reviews)" +
    "\nPrice Range: " + OrString(poi.priceRange, Missing) +
    "\nHours: " + HoursLine(poi.openingHours) +
    "\nDescription: " + DescriptionLine(d, poi.id) + "\n"
  }

  function LocalBlocks(pois: seq<BraveLocation>, d: BraveDescription): (blocks: seq<string>)
    ensures |blocks| == |pois|
  {
    seq(|pois|, i requires 0 <= i < |pois| => LocalBlock(pois[i], d))
  }

  /** `formatLocalResults`: one block per POI joined by "\n---\n", or
      "No local results found". */
  function FormatLocalResults(p: BravePoiResponse, d: BraveDescription): (text: string)
    ensures text != ""
    ensures p.results.GetOr([]) == [] ==> text == NoLocalResults
  {
    var joined := Join(LocalBlocks(p.results.GetOr([]), d), "\n---\n");
    if joined != "" then joined else NoLocalResults
  }

  /** The address is "N/A" when every part is missing or empty, and otherwise
      the non-empty parts, in order, joined by ", ". */
  lemma AddressLineCases(a: Option<Address>)
    ensures (forall i :: 0 <= i < 4 ==> AddressParts(a)[i] == "") ==> AddressLine(a) == Missing
    ensures (exists i :: 0 <= i < 4 && AddressParts(a)[i] != "") ==>
      AddressLine(a) == Join(NonEmpty(AddressParts(a)), ", ") && AddressLine(a) != ""
  {
    var parts := AddressParts(a);
    NonEmptyNoneIff(parts);
    JoinEmptyIff(NonEmpty(parts), ", ");
  }

  /** Opening hours render as "N/A" when absent, empty or a single empty
      entry, and otherwise as the entries joined by ", ". */
  lemma HoursLineCases(h: Option<seq<string>>)
    ensures HoursLine(h) ==
      if h.None? || h.value == [] || h.value == [""] then Missing else Join(h.value, ", ")
  {
    JoinEmptyIff(h.GetOr([]), ", ");
  }

  /** The description is the looked-up one, unless it is missing or empty. */
  lemma DescriptionLineCases(d: BraveDescription, id: string)
    ensures DescriptionLine(d, id) ==
      if id in d.descriptions && d.descriptions[id] != "" then d.descriptions[id] else NoDescription
  {
  }

  /** Every line of a POI's block as the template renders it: phone and
      price range fall back to "N/A" when absent or empty (`||`); the
      rating value falls back to "N/A" and the review count to 0 only when
      absent, each independently (`??`), so a value of 0 still shows as
      "0". */
  lemma LocalBlockLines(poi: BraveLocation, d: BraveDescription)
    ensures LocalBlock(poi, d) ==
      "Name: " + (poi.name +
      "\nAddress: " + AddressLine(poi.address) +
      "\nPhone: " + (if poi.phone.Some? && poi.phone.value != "" then poi.phone.value else "N/A") +
      "\nRating: " +
        (if poi.rating.Some? && poi.rating.value.ratingValue.Some?
         then IntToString(poi.rating.value.ratingValue.value) else "N/A") +
      " (" +
        (if poi.rating.Some? && poi.rating.value.ratingCount.Some?
         then IntToString(poi.rating.value.ratingCount.value) else "0") +
      " reviews)" +
      "\nPrice Range: " + (if poi.priceRange.Some? && poi.priceRange.value != "" then poi.priceRange.value else "N/A") +
      "\nHours: " + HoursLine(poi.openingHours) +
      "\nDescription: " + DescriptionLine(d, poi.id) + "\n")
  {
    var phone := if poi.phone.Some? && poi.phone.value != "" then poi.phone.value else "N/A";
    var value := if poi.rating.Some? && poi.rating.value.ratingValue.Some?
      then IntToString(poi.rating.value.ratingValue.value) else "N/A";
    var reviews := if poi.rating.Some? && poi.rating.value.ratingCount.Some?
      then IntToString(poi.rating.value.ratingCount.value) else "0";
    var price := if poi.priceRange.Some? && poi.priceRange.value != "" then poi.priceRange.value else "N/A";
    assert OrString(poi.phone, Missing) == phone;
    assert RatingValueText(poi.rating) == value;
    assert IntToString(0) == "0";
    assert RatingCountText(poi.rating) == reviews;
    assert OrString(poi.priceRange, Missing) == price;
  }

  /** A POI with every optional field missing and no description renders
      with every placeholder: the case of `LocalBlockLines` with nothing given. */
  lemma LocalBlockPlaceholders(id: string, name: string, d: BraveDescription)
    requires id !in d.descriptions
    ensures LocalBlock(BraveLocation(id, name, None, None, None, None, None, None), d) ==
      "Name: " + (name + "\nAddress: " + "N/A" + "\nPhone: " + "N/A" + "\nRating: " + "N/A" + " (" + "0" + " reviews)" +
      "\nPrice Range: " + "N/A" + "\nHours: " + "N/A" + "\nDescription: " + "No description available" + "\n")
  {
    LocalBlockLines(BraveLocation(id, name, None, None, None, None, None, None), d);
    AddressLineCases(None);
  }

  lemma LocalBlockStart(poi: BraveLocation, d: BraveDescription)
    ensures "Name: " <= LocalBlock(poi, d)
  {
  }

  /** "No local results found" is the answer exactly when there is no POI
      (absent or empty `results`); otherwise it is the joined blocks. */
  lemma FormatLocalEmptyIff(p: BravePoiResponse, d: BraveDescription)
    ensures FormatLocalResults(p, d) == NoLocalResults <==> p.results.GetOr([]) == []
    ensures p.results.GetOr([]) != [] ==>
      FormatLocalResults(p, d) == Join(LocalBlocks(p.results.GetOr([]), d), "\n---\n")
  {
    var pois := p.results.GetOr([]);
    var blocks := LocalBlocks(pois, d);
    if |pois| > 0 {
      LocalBlockStart(pois[0], d);
      JoinStartsWithFirst(blocks, "\n---\n");
      var joined := Join(blocks, "\n---\n");
      assert joined[1] == 'a';
      assert NoLocalResults[1] == 'o';
    }
  }

  /** On a POI answer shaped as the interface declares, "No local results
      found" is the answer exactly when its `results` array is empty. */
  lemma ConformingPoisEmptyIff(p: BravePoiResponse, d: BraveDescription)
    requires PoisConform(p)
    ensures FormatLocalResults(p, d) == NoLocalResults <==> p.results.value == []
  {
    FormatLocalEmptyIff(p, d);
  }

  /** POIs render in order, separated by "\n---\n". */
  lemma FormatLocalSnoc(pois: seq<BraveLocation>, poi: BraveLocation, d: BraveDescription)
    requires |pois| >= 1
    ensures FormatLocalResults(BravePoiResponse(Some(pois + [poi])), d) ==
      FormatLocalResults(BravePoiResponse(Some(pois)), d) + "\n---\n" + LocalBlock(poi, d)
  {
    FormatLocalEmptyIff(BravePoiResponse(Some(pois + [poi])), d);
    FormatLocalEmptyIff(BravePoiResponse(Some(pois)), d);
    assert LocalBlocks(pois + [poi], d) == LocalBlocks(pois, d) + [LocalBlock(poi, d)];
    JoinSnoc(LocalBlocks(pois, d), LocalBlock(poi, d), "\n---\n");
  }

  // ---------------------------------------------------------------------
  // The search operations, as functions of the counters

  /** `performWebSearch(query, count, offset)` at time `now`. */
  function WebSearch(api: Api, c: Counters, now: int, query: string, count: Json, offset: Json): (r: Run<string>)
    ensures r.counters == Check(c, now).after
    ensures |r.sent| <= r.counters.month - c.month
    ensures r.sent != [] ==> r.sent == [WebQuery(query, ClampCount(count), offset)]
    ensures r.result.Ok? ==> r.sent != []
  {
    var check := Check(c, now);
    if check.outcome.Fail? then Run(Err(check.outcome.message), check.after, [])
    else if CountError(count).Some? then Run(Err(CountError(count).value), check.after, [])
    else if OffsetError(offset).Some? then Run(Err(OffsetError(offset).value), check.after, [])
    else
      var request := WebQuery(query, ClampCount(count), offset);
      match Settle(api.web(request))
      case Ok(data) => Run(Ok(FormatWebResults(data)), check.after, [request])
      case Err(m) => Run(Err(m), check.after, [request])
  }

  /** `getPoisData(ids)` at time `now`: empty ids are not sent. */
  function PoisLookup(api: Api, c: Counters, now: int, ids: seq<string>): (r: Run<BravePoiResponse>)
    ensures r.counters == Check(c, now).after
    ensures |r.sent| <= r.counters.month - c.month
    ensures r.sent != [] ==> r.sent == [PoisQuery(NonEmpty(ids))]
    ensures r.result.Ok? ==> r.sent != []
  {
    var check := Check(c, now);
    if check.outcome.Fail? then Run(Err(check.outcome.message), check.after, [])
    else
      var request := PoisQuery(NonEmpty(ids));
      Run(Settle(api.pois(request)), check.after, [request])
  }

  /** `getDescriptionsData(ids)` at time `now`: empty ids are not sent. */
  function DescriptionsLookup(api: Api, c: Counters, now: int, ids: seq<string>): (r: Run<BraveDescription>)
    ensures r.counters == Check(c, now).after
    ensures |r.sent| <= r.counters.month - c.month
    ensures r.sent != [] ==> r.sent == [DescriptionsQuery(NonEmpty(ids))]
    ensures r.result.Ok? ==> r.sent != []
  {
    var check := Check(c, now);
    if check.outcome.Fail? then Run(Err(check.outcome.message), check.after, [])
    else
      var request := DescriptionsQuery(NonEmpty(ids));
      Run(Settle(api.descriptions(request)), check.after, [request])
  }

  /** `Promise.all([pois, descriptions])` then `formatLocalResults`. Both
      lookups are started; the combined promise rejects with the first
      rejection. A lookup the limiter refuses (it sent nothing) rejects before
      any response can arrive, the POI lookup's before the description
      lookup's; of two upstream errors the POI lookup's is taken. */
  function JoinLookups(pois: Run<BravePoiResponse>, descs: Run<BraveDescription>): (r: Result<string>)
    ensures r.Ok? <==> pois.result.Ok? && descs.result.Ok?
    ensures r.Err? ==>
      (pois.result.Err? && r.message == pois.result.message) ||
      (descs.result.Err? && r.message == descs.result.message)
  {
    if pois.result.Err? && pois.sent == [] then Err(pois.result.message)
    else if descs.result.Err? && descs.sent == [] then Err(descs.result.message)
    else if pois.result.Err? then Err(pois.result.message)
    else if descs.result.Err? then Err(descs.result.message)
    else Ok(FormatLocalResults(pois.result.value, descs.result.value))
  }

  /** `performLocalSearch(query, count)`: a location-filtered web search,
      then either the web search fallback (no location id) or the POI and
      description lookups. */
  function LocalSearch(api: Api, c: Counters, clock: Clock, query: string, count: Json): (r: Run<string>)
    ensures |r.sent| <= r.counters.month - c.month
    ensures r.sent != [] ==> r.sent[0] == LocationQuery(query, ClampCount(count))
    ensures r.result.Ok? ==> |r.sent| >= 2
  {
    var check := Check(c, clock(0));
    if check.outcome.Fail? then Run(Err(check.outcome.message), check.after, [])
    else if CountError(count).Some? then Run(Err(CountError(count).value), check.after, [])
    else
      var request := LocationQuery(query, ClampCount(count));
      match Settle(api.web(request))
      case Err(m) => Run(Err(m), check.after, [request])
      case Ok(webData) =>
        var ids := LocationIds(webData);
        if |ids| == 0 then
          var fallback := WebSearch(api, check.after, clock(1), query, count, Num(0));
          Run(fallback.result, fallback.counters, [request] + fallback.sent)
        else
          var pois := PoisLookup(api, check.after, clock(1), ids);
          var descs := DescriptionsLookup(api, pois.counters, clock(2), ids);
          Run(JoinLookups(pois, descs), descs.counters, [request] + pois.sent + descs.sent)
  }

  // ---------------------------------------------------------------------
  // Properties of the search operations

  /** The order in which a web search can fail, and the request it sends:
      the rate limiter first, then converting `count` (`Math.min`), then
      `offset.toString()`. Each of these failures throws before any request
      is sent, the last two after the check has used its slot. Past all
      three, exactly one request is sent, with the count clamped to at most
      20 and the offset as given. */
  lemma WebSearchRequest(api: Api, c: Counters, now: int, query: string, count: Json, offset: Json)
    ensures var r := WebSearch(api, c, now, query, count, offset);
      && r.counters == Check(c, now).after
      && (Check(c, now).outcome.Fail? ==> r.result == Err(RateLimitMessage) && r.sent == [])
      && (Check(c, now).outcome.Pass? && CountError(count).Some? ==>
            r.result == Err(NotPrimitive) && r.sent == [])
      && (Check(c, now).outcome.Pass? && CountError(count).None? && OffsetError(offset).Some? ==>
            r.result == Err(OffsetError(offset).value) && r.sent == [])
      && (Check(c, now).outcome.Pass? && CountError(count).None? && OffsetError(offset).None? ==>
            r.sent == [WebQuery(query, ClampCount(count), offset)] &&
            (count.Num? ==> r.sent[0].count.n <= MaxCount))
  {
  }

  /** Once the request is sent, the answer's text is the formatted results,
      and an upstream failure's message carries the status. */
  lemma WebSearchAnswer(api: Api, c: Counters, now: int, query: string, count: Json, offset: Json)
    ensures var r := WebSearch(api, c, now, query, count, offset);
      Check(c, now).outcome.Pass? && CountError(count).None? && OffsetError(offset).None? ==>
      match api.web(WebQuery(query, ClampCount(count), offset))
      case Body(data) => r.result == Ok(FormatWebResults(data))
      case HttpError(s, t, x) => r.result == Err(ApiErrorMessage(s, t, x))
  {
  }

  /** An explicit `null` offset (the destructuring default applies only to
      an absent one) passes the rate limiter, then throws at
      `offset.toString()`: the slot is used and nothing is sent. */
  lemma NullOffsetUsesSlot(api: Api, c: Counters, now: int, query: string, count: int)
    requires Check(c, now).outcome.Pass?
    ensures WebSearch(api, c, now, query, Num(count), Null) ==
      Run(Err("Cannot read properties of null (reading 'toString')"), Check(c, now).after, [])
    ensures WebSearch(api, c, now, query, Num(count), Null).counters.month == c.month + 1
  {
  }

  /** With no usable location id, a local search answers exactly what a web
      search for the same query and count answers (offset 0), made as the
      next rate-limit check. */
  lemma LocalSearchFallback(api: Api, c: Counters, clock: Clock, query: string, count: Json)
    requires Check(c, clock(0)).outcome.Pass?
    requires api.web(LocationQuery(query, ClampCount(count))).Body?
    requires LocationIds(api.web(LocationQuery(query, ClampCount(count))).value) == []
    ensures var r := LocalSearch(api, c, clock, query, count);
      var w := WebSearch(api, Check(c, clock(0)).after, clock(1), query, count, Num(0));
      CountError(count).None? ==>
        r.result == w.result && r.counters == w.counters &&
        r.sent == [LocationQuery(query, ClampCount(count))] + w.sent
  {
  }

  /** A `count` that cannot be converted to a number makes the local
      search throw at `Math.min`, after its first check used a slot and
      before the location search is sent. */
  lemma LocalSearchCountError(api: Api, c: Counters, clock: Clock, query: string, count: Json)
    requires Check(c, clock(0)).outcome.Pass?
    requires CountError(count).Some?
    ensures LocalSearch(api, c, clock, query, count) ==
      Run(Err(NotPrimitive), Check(c, clock(0)).after, [])
  {
  }

  /** Every request sent was admitted by exactly one check. The month
      counter grows by one for an admitted check; when `count` and `offset`
      convert, that is one per request sent. */
  lemma WebSearchSlots(api: Api, c: Counters, now: int, query: string, count: Json, offset: Json)
    ensures WebSearch(api, c, now, query, count, offset).counters.month ==
      c.month + (if Check(c, now).outcome.Pass? then 1 else 0)
    ensures CountError(count).None? && OffsetError(offset).None? ==>
      WebSearch(api, c, now, query, count, offset).counters.month ==
      c.month + |WebSearch(api, c, now, query, count, offset).sent|
  {
    CheckCounts(c, now);
  }

  lemma PoisLookupSlots(api: Api, c: Counters, now: int, ids: seq<string>)
    ensures PoisLookup(api, c, now, ids).counters.month == c.month + |PoisLookup(api, c, now, ids).sent|
  {
    CheckCounts(c, now);
  }

  lemma DescriptionsLookupSlots(api: Api, c: Counters, now: int, ids: seq<string>)
    ensures DescriptionsLookup(api, c, now, ids).counters.month ==
      c.month + |DescriptionsLookup(api, c, now, ids).sent|
  {
    CheckCounts(c, now);
  }

  /** When `count` converts, the month counter grows by exactly the number
      of upstream requests a local search sent; when it does not, nothing
      is sent. */
  lemma LocalSearchSlots(api: Api, c: Counters, clock: Clock, query: string, count: Json)
    ensures CountError(count).None? ==>
      LocalSearch(api, c, clock, query, count).counters.month ==
      c.month + |LocalSearch(api, c, clock, query, count).sent|
    ensures CountError(count).Some? ==> LocalSearch(api, c, clock, query, count).sent == []
  {
    var check := Check(c, clock(0));
    CheckCounts(c, clock(0));
    if check.outcome.Pass? && CountError(count).None? {
      var request := LocationQuery(query, ClampCount(count));
      if api.web(request).Body? {
        var ids := LocationIds(api.web(request).value);
        if |ids| == 0 {
          WebSearchSlots(api, check.after, clock(1), query, count, Num(0));
        } else {
          var pois := PoisLookup(api, check.after, clock(1), ids);
          PoisLookupSlots(api, check.after, clock(1), ids);
          DescriptionsLookupSlots(api, pois.counters, clock(2), ids);
        }
      }
    }
  }

  /** How many rate-limit checks a local search makes: one when it is
      refused, `count` does not convert or the location search fails
      upstream; two on the fallback; three when it looks up POIs and
      descriptions. The counters end as that many checks at `clock(0)`,
      `clock(1)`, `clock(2)` leave them. */
  lemma LocalSearchChecks(api: Api, c: Counters, clock: Clock, query: string, count: Json)
    ensures var r := LocalSearch(api, c, clock, query, count);
      var request := LocationQuery(query, ClampCount(count));
      var first := Check(c, clock(0));
      if first.outcome.Fail? || CountError(count).Some? || api.web(request).HttpError? then
        r.counters == CheckAll(c, [clock(0)]).after
      else if LocationIds(api.web(request).value) == [] then
        r.counters == CheckAll(c, [clock(0), clock(1)]).after
      else
        r.counters == CheckAll(c, [clock(0), clock(1), clock(2)]).after
  {
    var first := Check(c, clock(0));
    var second := Check(first.after, clock(1));
    assert [clock(0), clock(1)][1..] == [clock(1)];
    assert [clock(0), clock(1), clock(2)][1..] == [clock(1), clock(2)];
    assert [clock(1), clock(2)][1..] == [clock(2)];
    assert CheckAll(c, [clock(0)]).after == first.after;
    assert CheckAll(first.after, [clock(1)]).after == second.after;
    assert CheckAll(c, [clock(0), clock(1)]).after == second.after;
    assert CheckAll(second.after, [clock(2)]).after == Check(second.after, clock(2)).after;
    assert CheckAll(first.after, [clock(1), clock(2)]).after == Check(second.after, clock(2)).after;
    assert CheckAll(c, [clock(0), clock(1), clock(2)]).after == Check(second.after, clock(2)).after;
  }

  /** The requests of a local search that found location ids: the location
      search, then the POI request if its check (the second) admits it,
      then the descriptions request if its check (the third) admits it,
      both carrying the non-empty ids. */
  lemma LocalSearchLookupRequests(api: Api, c: Counters, clock: Clock, query: string, count: Json)
    requires Check(c, clock(0)).outcome.Pass?
    requires CountError(count).None?
    requires api.web(LocationQuery(query, ClampCount(count))).Body?
    requires LocationIds(api.web(LocationQuery(query, ClampCount(count))).value) != []
    ensures var location := LocationQuery(query, ClampCount(count));
      var ids := LocationIds(api.web(location).value);
      var second := Check(Check(c, clock(0)).after, clock(1));
      var third := Check(second.after, clock(2));
      LocalSearch(api, c, clock, query, count).sent ==
        [location] +
        (if second.outcome.Pass? then [PoisQuery(NonEmpty(ids))] else []) +
        (if third.outcome.Pass? then [DescriptionsQuery(NonEmpty(ids))] else [])
  {
  }

  /** The answer of a local search that found location ids, as
      `Promise.all` settles it: a lookup the limiter refuses rejects first,
      the POI lookup's refusal before the descriptions lookup's, and either
      refusal beats an upstream error; of two upstream errors the POI
      lookup's is reported; with both bodies the answer is their rendering. */
  lemma LocalSearchLookupAnswer(api: Api, c: Counters, clock: Clock, query: string, count: Json)
    requires Check(c, clock(0)).outcome.Pass?
    requires CountError(count).None?
    requires api.web(LocationQuery(query, ClampCount(count))).Body?
    requires LocationIds(api.web(LocationQuery(query, ClampCount(count))).value) != []
    ensures var ids := LocationIds(api.web(LocationQuery(query, ClampCount(count))).value);
      var second := Check(Check(c, clock(0)).after, clock(1));
      var third := Check(second.after, clock(2));
      var p := api.pois(PoisQuery(NonEmpty(ids)));
      var d := api.descriptions(DescriptionsQuery(NonEmpty(ids)));
      var r := LocalSearch(api, c, clock, query, count).result;
      && (second.outcome.Fail? || third.outcome.Fail? ==> r == Err(RateLimitMessage))
      && (second.outcome.Pass? && third.outcome.Pass? ==>
            match p
            case HttpError(s, t, x) => r == Err(ApiErrorMessage(s, t, x))
            case Body(pois) =>
              match d
              case HttpError(s, t, x) => r == Err(ApiErrorMessage(s, t, x))
              case Body(descs) => r == Ok(FormatLocalResults(pois, descs)))
  {
  }

  /** The program makes the descriptions lookup's check right after the POI
      lookup's, with no `await` between them, so the two read the clock
      less than a second apart. Then, with one call admitted per second, a
      local search that finds location ids never succeeds: an admitted POI
      check fills the window and the descriptions check is refused. */
  lemma LookupsNeedTwoWindows(api: Api, c: Counters, clock: Clock, query: string, count: Json)
    requires Valid(c)
    requires Check(c, clock(0)).outcome.Pass?
    requires CountError(count).None?
    requires api.web(LocationQuery(query, ClampCount(count))).Body?
    requires LocationIds(api.web(LocationQuery(query, ClampCount(count))).value) != []
    requires clock(2) - clock(1) <= WindowMs
    ensures LocalSearch(api, c, clock, query, count).result == Err(RateLimitMessage)
  {
    var first := Check(c, clock(0));
    CheckCounts(c, clock(0));
    var second := Check(first.after, clock(1));
    CheckCounts(first.after, clock(1));
    if second.outcome.Pass? {
      SaturatedWindowRefuses(second.after, clock(2));
    }
    LocalSearchLookupAnswer(api, c, clock, query, count);
  }

  /** With one call admitted per second, a local search whose second check
      falls in the window its first check used cannot succeed: it fails
      upstream, at `Math.min`, or with "Rate limit exceeded" at the
      fallback web search or at the POI lookup. */
  lemma LocalSearchWithinOneWindowFails(api: Api, c: Counters, clock: Clock, query: string, count: Json)
    requires Valid(c)
    requires clock(1) - Check(c, clock(0)).after.lastReset <= WindowMs
    ensures var r := LocalSearch(api, c, clock, query, count);
      var request := LocationQuery(query, ClampCount(count));
      r.result.Err? &&
      (Check(c, clock(0)).outcome.Pass? && CountError(count).None? && api.web(request).Body? ==>
         r.result == Err(RateLimitMessage))
  {
    var first := Check(c, clock(0));
    CheckCounts(c, clock(0));
    if first.outcome.Pass? {
      assert first.after.second == PerSecond;
      SaturatedWindowRefuses(first.after, clock(1));
    }
  }

  // ---------------------------------------------------------------------
  // The same operations on the shared limiter object

  /** `performWebSearch` on the shared `requestCount` record. */
  method PerformWebSearch(limiter: RateLimiter, api: Api, now: int, query: string, count: Json, offset: Json)
    returns (result: Result<string>, sent: seq<Request>)
    modifies limiter
    ensures Run(result, limiter.Snapshot(), sent) == WebSearch(api, old(limiter.Snapshot()), now, query, count, offset)
  {
    var outcome := limiter.CheckRateLimit(now);
    if outcome.Fail? {
      return Err(outcome.message), [];
    }
    var countError := CountError(count);
    if countError.Some? {
      return Err(countError.value), [];
    }
    var offsetError := OffsetError(offset);
    if offsetError.Some? {
      return Err(offsetError.value), [];
    }
    var request := WebQuery(query, ClampCount(count), offset);
    sent := [request];
    match Settle(api.web(request)) {
      case Ok(data) => result := Ok(FormatWebResults(data));
      case Err(m) => result := Err(m);
    }
  }

  /** `getPoisData` on the shared record. */
  method GetPoisData(limiter: RateLimiter, api: Api, now: int, ids: seq<string>)
    returns (result: Result<BravePoiResponse>, sent: seq<Request>)
    modifies limiter
    ensures Run(result, limiter.Snapshot(), sent) == PoisLookup(api, old(limiter.Snapshot()), now, ids)
  {
    var outcome := limiter.CheckRateLimit(now);
    if outcome.Fail? {
      return Err(outcome.message), [];
    }
    var request := PoisQuery(NonEmpty(ids));
    result, sent := Settle(api.pois(request)), [request];
  }

  /** `getDescriptionsData` on the shared record. */
  method GetDescriptionsData(limiter: RateLimiter, api: Api, now: int, ids: seq<string>)
    returns (result: Result<BraveDescription>, sent: seq<Request>)
    modifies limiter
    ensures Run(result, limiter.Snapshot(), sent) == DescriptionsLookup(api, old(limiter.Snapshot()), now, ids)
  {
    var outcome := limiter.CheckRateLimit(now);
    if outcome.Fail? {
      return Err(outcome.message), [];
    }
    var request := DescriptionsQuery(NonEmpty(ids));
    result, sent := Settle(api.descriptions(request)), [request];
  }

  /** `performLocalSearch` on the shared record; the two lookups run one
      after the other. */
  method PerformLocalSearch(limiter: RateLimiter, api: Api, clock: Clock, query: string, count: Json)
    returns (result: Result<string>, sent: seq<Request>)
    modifies limiter
    ensures Run(result, limiter.Snapshot(), sent) == LocalSearch(api, old(limiter.Snapshot()), clock, query, count)
  {
    var outcome := limiter.CheckRateLimit(clock(0));
    if outcome.Fail? {
      return Err(outcome.message), [];
    }
    var countError := CountError(count);
    if countError.Some? {
      return Err(countError.value), [];
    }
    var request := LocationQuery(query, ClampCount(count));
    var webData;
    match Settle(api.web(request)) {
      case Err(m) => return Err(m), [request];
      case Ok(data) => webData := data;
    }
    var ids := LocationIds(webData);
    if |ids| == 0 {
      var fallbackSent;
      result, fallbackSent := PerformWebSearch(limiter, api, clock(1), query, count, Num(0));
      sent := [request] + fallbackSent;
      return;
    }
    var pois, poisSent := GetPoisData(limiter, api, clock(1), ids);
    var afterPois := limiter.Snapshot();
    var descs, descsSent := GetDescriptionsData(limiter, api, clock(2), ids);
    result := JoinLookups(Run(pois, afterPois, poisSent), Run(descs, limiter.Snapshot(), descsSent));
    sent := [request] + poisSent + descsSent;
  }
}
