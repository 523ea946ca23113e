/** The records the Brave Search API answers with, the tools' argument
    records and the type guards that admit a tool's arguments. Response
    fields that the code reads defensively (`?.`, `||`, `??`) are optional
    here even where the declared interface requires them; `WebConforms` and
    `PoisConform` state what the interfaces declare. */
module BraveTypes {
  import opened Js

  /** One entry of `web.results`; `language`, `published` and `rank` are
      declared but never read. */
  datatype WebResult = WebResult(title: Option<string>, description: Option<string>, url: Option<string>)

  datatype WebSection = WebSection(results: Option<seq<WebResult>>)

  /** One entry of `locations.results`. */
  datatype LocationRef = LocationRef(id: Option<string>, title: Option<string>)

  datatype LocationSection = LocationSection(results: Option<seq<LocationRef>>)

  /** The answer of the web search endpoint. */
  datatype BraveWeb = BraveWeb(web: Option<WebSection>, locations: Option<LocationSection>)

  datatype Address = Address(
    streetAddress: Option<string>,
    addressLocality: Option<string>,
    addressRegion: Option<string>,
    postalCode: Option<string>)

  datatype Coordinates = Coordinates(latitude: int, longitude: int)

  datatype Rating = Rating(ratingValue: Option<int>, ratingCount: Option<int>)

  /** One point of interest. */
  datatype BraveLocation = BraveLocation(
    id: string,
    name: string,
    address: Option<Address>,
    coordinates: Option<Coordinates>,
    phone: Option<string>,
    rating: Option<Rating>,
    openingHours: Option<seq<string>>,
    priceRange: Option<string>)

  /** The answer of the POI endpoint. */
  datatype BravePoiResponse = BravePoiResponse(results: Option<seq<BraveLocation>>)

  /** The answer of the descriptions endpoint, keyed by location id. */
  datatype BraveDescription = BraveDescription(descriptions: map<string, string>)

  /** A web answer as the `BraveWeb` interface declares it: every web result
      has its title, description and URL, and every location entry its id. */
  predicate WebConforms(w: BraveWeb) {
    && (w.web.Some? && w.web.value.results.Some? ==>
          forall r :: r in w.web.value.results.value ==>
            r.title.Some? && r.description.Some? && r.url.Some?)
    && (w.locations.Some? && w.locations.value.results.Some? ==>
          forall r :: r in w.locations.value.results.value ==> r.id.Some?)
  }

  /** A POI answer as the `BravePoiResponse` interface declares it: the
      `results` array is present and every location has its address. */
  predicate PoisConform(p: BravePoiResponse) {
    p.results.Some? && forall l :: l in p.results.value ==> l.address.Some?
  }

  /** The `query`, `count` and `offset` a handler destructures from a
      `WebSearchArgs`, defaults filled in. `count` and `offset` are declared
      numbers, but no guard checks them, so they hold whatever JSON value
      was sent. */
  datatype WebSearchArgs = WebSearchArgs(query: string, count: Json, offset: Json)

  /** The `query` and `count` a handler destructures from a
      `LocalSearchArgs`, the default filled in. */
  datatype LocalSearchArgs = LocalSearchArgs(query: string, count: Json)

  /** `typeof args === "object" && args !== null && "query" in args &&
      typeof args.query === "string"` */
  predicate HasStringQuery(args: Json) {
    && TypeOf(Some(args)) == "object"
    && args != Null
    && HasProperty(args, "query")
    && TypeOf(GetProperty(args, "query")) == "string"
  }

  /** `isBraveWebSearchArgs`: it holds exactly for an object with a
      string-valued own key `query`; `null`, booleans, numbers, strings and
      arrays (whose own keys are "length" and the indices) are refused. */
  function IsBraveWebSearchArgs(args: Json): (r: bool)
    ensures r <==> args.Obj? && "query" in args.fields && args.fields["query"].Str?
  {
    NoIndexIsQuery(if args.Arr? then |args.items| else 0);
    HasStringQuery(args)
  }

  /** `isBraveLocalSearchArgs`: the same test as the web guard, so the two
      admit exactly the same values. */
  function IsBraveLocalSearchArgs(args: Json): (r: bool)
    ensures r <==> IsBraveWebSearchArgs(args)
  {
    NoIndexIsQuery(if args.Arr? then |args.items| else 0);
    HasStringQuery(args)
  }

  /** Only `query` matters: adding, replacing or removing any other key, with
      a value of any type, never changes the verdict. */
  lemma OtherKeysIrrelevant(fields: map<string, Json>, key: string, v: Json)
    requires key != "query"
    ensures IsBraveWebSearchArgs(Obj(fields[key := v])) == IsBraveWebSearchArgs(Obj(fields))
    ensures IsBraveWebSearchArgs(Obj(fields - {key})) == IsBraveWebSearchArgs(Obj(fields))
  {
  }
}
