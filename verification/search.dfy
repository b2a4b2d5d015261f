/** `search_api` (app/routes_search.py): the checks a search request must
    pass, the upstream endpoint of each search type, and the query
    parameters sent upstream, each numeric one clamped to its cap. */
module Search {
  import opened Common
  import opened Text
  import opened Json
  import opened Upstream

  /** The four search types the endpoint map knows. */
  datatype SearchType = Web | Images | Videos | News

  /** The path segment naming a search type. */
  function TypeName(t: SearchType): string {
    match t
    case Web => "web"
    case Images => "images"
    case Videos => "videos"
    case News => "news"
  }

  /** `search_type in endpoint_map`. */
  function ParseSearchType(name: string): (r: Option<SearchType>)
    ensures r.Some? ==> TypeName(r.value) == name
    ensures r.None? <==> forall t: SearchType :: TypeName(t) != name
  {
    if name == "web" then Some(Web)
    else if name == "images" then Some(Images)
    else if name == "videos" then Some(Videos)
    else if name == "news" then Some(News)
    else None
  }

  /** Each type is parsed back from its own name. */
  lemma ParseTypeName(t: SearchType)
    ensures ParseSearchType(TypeName(t)) == Some(t)
  {
  }

  const SearchHost := "https://search.hackclub.com"

  /** `endpoint_map[search_type]`. */
  function EndpointPath(t: SearchType): (p: string)
    ensures StartsWith(p, "/res/v1/") && EndsWith(p, "/search")
  {
    match t
    case Web => "/res/v1/web/search"
    case Images => "/res/v1/images/search"
    case Videos => "/res/v1/videos/search"
    case News => "/res/v1/news/search"
  }

  /** Distinct types are sent to distinct endpoints. */
  lemma EndpointsDistinct(a: SearchType, b: SearchType)
    requires a != b
    ensures EndpointPath(a) != EndpointPath(b)
  {
    assert EndpointPath(a)[8] != EndpointPath(b)[8] || |EndpointPath(a)| != |EndpointPath(b)|;
  }

  /** The query string: every value arrives as a string. */
  type Args = map<string, string>

  /** A query parameter sent upstream. */
  datatype Param = PStr(s: string) | PInt(n: int)

  /** `request.args.get(name)` is truthy: present and non-empty. */
  predicate Given(args: Args, name: string) {
    name in args && args[name] != ""
  }

  /** `min(int(request.args.get(name, default)), cap)`. `None` is the
      `ValueError` of a value that is not a decimal integer. */
  function ClampedArg(args: Args, name: string, default: int, cap: int): (r: Option<int>)
    requires default <= cap
    ensures name !in args ==> r == Some(default)
    ensures name in args ==> (r.Some? <==> PyIntOfString(args[name]).Some?)
    ensures r.Some? ==> r.value <= cap
    ensures r.Some? && name in args ==>
      r.value == PyIntOfString(args[name]).value || (r.value == cap && PyIntOfString(args[name]).value > cap)
    ensures r.Some? && name in args ==>
      var n := PyIntOfString(args[name]).value;
      r.value == if n < cap then n else cap
  {
    var n := if name in args then PyIntOfString(args[name]) else Some(default);
    match n
    case None => None
    case Some(v) => Some(if v < cap then v else cap)
  }

  /** A requested value at or under the cap is sent as is; one over the cap is sent as the cap. */
  lemma ClampDecimal(args: Args, name: string, default: int, cap: int, n: int)
    requires default <= cap
    ensures n <= cap ==> ClampedArg(args[name := IntToDecimal(n)], name, default, cap) == Some(n)
    ensures n > cap ==> ClampedArg(args[name := IntToDecimal(n)], name, default, cap) == Some(cap)
  {
    DecimalRoundTrip(n);
  }

  /** The default and the cap of `count` for each type. */
  function DefaultCount(t: SearchType): int {
    match t
    case Web => 20
    case Images => 50
    case _ => 20
  }

  function CountCap(t: SearchType): (cap: int)
    ensures DefaultCount(t) <= cap
  {
    match t
    case Web => 20
    case Images => 200
    case _ => 50
  }

  const OffsetCap := 9

  /** `params[name] = request.args.get(name)` when that value is truthy. */
  function WithGiven(params: map<string, Param>, args: Args, name: string): (r: map<string, Param>)
    ensures Given(args, name) ==> r == params[name := PStr(args[name])]
    ensures !Given(args, name) ==> r == params
  {
    if Given(args, name) then params[name := PStr(args[name])] else params
  }

  /** The query parameters for a search of type `t` for the stripped query
      `q`; `None` when `count` or `offset` is not a decimal integer. */
  function SearchParams(t: SearchType, q: string, args: Args): (r: Option<map<string, Param>>)
    ensures r.None? <==>
      || ("count" in args && PyIntOfString(args["count"]).None?)
      || (t != Images && "offset" in args && PyIntOfString(args["offset"]).None?)
    ensures r.Some? ==>
      var p := r.value;
      && p.Keys <= {"q", "count", "offset", "country", "freshness", "safesearch"}
      && "q" in p && p["q"] == PStr(q)
      && "count" in p && p["count"].PInt? && p["count"].n <= CountCap(t)
      && ("count" !in args ==> p["count"] == PInt(DefaultCount(t)))
      && ("count" in args ==>
            var n := PyIntOfString(args["count"]).value;
            p["count"] == PInt(if n < CountCap(t) then n else CountCap(t)))
      && ("offset" in p <==> t != Images)
      && ("offset" in p ==> p["offset"].PInt? && p["offset"].n <= OffsetCap)
      && ("offset" in p && "offset" !in args ==> p["offset"] == PInt(0))
      && ("offset" in p && "offset" in args ==>
            var n := PyIntOfString(args["offset"]).value;
            p["offset"] == PInt(if n < OffsetCap then n else OffsetCap))
      && ("country" in p <==> t == Web && Given(args, "country"))
      && ("country" in p ==> p["country"] == PStr(args["country"]))
      && ("freshness" in p <==> t != Images && Given(args, "freshness"))
      && ("freshness" in p ==> p["freshness"] == PStr(args["freshness"]))
      && ("safesearch" in p <==> t == Images)
      && (t == Images ==> p["safesearch"] == PStr(if "safesearch" in args then args["safesearch"] else "strict"))
  {
    match ClampedArg(args, "count", DefaultCount(t), CountCap(t))
    case None => None
    case Some(count) =>
      if t == Images then Some(ImageParams(q, count, args))
      else
        match ClampedArg(args, "offset", 0, OffsetCap)
        case None => None
        case Some(offset) => Some(PagedParams(t, q, count, offset, args))
  }

  /** The image parameters: the query, the count and the safe-search level. */
  function ImageParams(q: string, count: int, args: Args): (p: map<string, Param>)
    ensures p.Keys == {"q", "count", "safesearch"}
    ensures p["q"] == PStr(q) && p["count"] == PInt(count)
    ensures p["safesearch"] == PStr(if "safesearch" in args then args["safesearch"] else "strict")
  {
    var safe := if "safesearch" in args then args["safesearch"] else "strict";
    map["q" := PStr(q), "count" := PInt(count), "safesearch" := PStr(safe)]
  }

  /** The parameters of the paged types: the query, the count, the offset,
      the country for web search, and the freshness when given. */
  function PagedParams(t: SearchType, q: string, count: int, offset: int, args: Args): (p: map<string, Param>)
    requires t != Images
    ensures p.Keys <= {"q", "count", "offset", "country", "freshness"}
    ensures "q" in p && p["q"] == PStr(q)
    ensures "count" in p && p["count"] == PInt(count)
    ensures "offset" in p && p["offset"] == PInt(offset)
    ensures "country" in p <==> t == Web && Given(args, "country")
    ensures "country" in p ==> p["country"] == PStr(args["country"])
    ensures "freshness" in p <==> Given(args, "freshness")
    ensures "freshness" in p ==> p["freshness"] == PStr(args["freshness"])
  {
    var base := map["q" := PStr(q), "count" := PInt(count), "offset" := PInt(offset)];
    var withCountry := if t == Web then WithGiven(base, args, "country") else base;
    WithGiven(withCountry, args, "freshness")
  }

  /** With nothing but the query given, each type sends exactly its defaults. */
  lemma DefaultParams(q: string, qArg: string)
    ensures SearchParams(Web, q, map["q" := qArg]) == Some(map["q" := PStr(q), "count" := PInt(20), "offset" := PInt(0)])
    ensures SearchParams(Images, q, map["q" := qArg]) == Some(map["q" := PStr(q), "count" := PInt(50), "safesearch" := PStr("strict")])
    ensures SearchParams(Videos, q, map["q" := qArg]) == Some(map["q" := PStr(q), "count" := PInt(20), "offset" := PInt(0)])
    ensures SearchParams(News, q, map["q" := qArg]) == Some(map["q" := PStr(q), "count" := PInt(20), "offset" := PInt(0)])
  {
  }

  /** A client asking for `n` results gets `min(n, cap)` of them, for every
      type and whatever else the query string holds. */
  lemma RequestedCountSent(t: SearchType, q: string, args: Args, n: int)
    requires t == Images || "offset" !in args || PyIntOfString(args["offset"]).Some?
    ensures var r := SearchParams(t, q, args["count" := IntToDecimal(n)]);
      r.Some? && r.value["count"] == PInt(if n < CountCap(t) then n else CountCap(t))
  {
    DecimalRoundTrip(n);
  }

  /** The request sent upstream. */
  datatype SearchRequest = SearchRequest(url: string, params: map<string, Param>, authorization: string)

  const SearchNotConfigured := HttpError(500, "Search API not configured")
  const QueryRequired := HttpError(400, "Query parameter required")
  const InvalidSearchType := HttpError(400, "Invalid search type")

  /** The checks of `search_api`, in order, and the request they lead to.
      `envKey` is `SEARCH_API_KEY` (`""` when unset). A `count` or `offset`
      that is not an integer raises outside the `try`, so Flask answers 500. */
  function PlanSearch(loggedIn: bool, envKey: string, searchType: string, args: Args): (r: Reply<SearchRequest>)
    ensures !loggedIn ==> r == Fail(Unauthorized)
    ensures loggedIn && Strip(envKey) == "" ==> r == Fail(SearchNotConfigured)
    ensures loggedIn && Strip(envKey) != "" ==>
      var q := Strip(if "q" in args then args["q"] else "");
      && (q == "" ==> r == Fail(QueryRequired))
      && (q != "" && ParseSearchType(searchType).None? ==> r == Fail(InvalidSearchType))
      && (q != "" && ParseSearchType(searchType).Some? ==>
            var t := ParseSearchType(searchType).value;
            && (SearchParams(t, q, args).None? ==> r == Fail(InternalError))
            && (SearchParams(t, q, args).Some? ==>
                  r == Ok(SearchRequest(SearchHost + EndpointPath(t), SearchParams(t, q, args).value,
                                        "Bearer " + Strip(envKey)))))
    ensures r.Ok? ==> "q" in r.value.params && r.value.params["q"].PStr? && r.value.params["q"].s != ""
                      && Stripped(r.value.params["q"].s)
  {
    if !loggedIn then Fail(Unauthorized)
    else
      var apiKey := Strip(envKey);
      if apiKey == "" then Fail(SearchNotConfigured)
      else
        var q := Strip(if "q" in args then args["q"] else "");
        if q == "" then Fail(QueryRequired)
        else
          match ParseSearchType(searchType)
          case None => Fail(InvalidSearchType)
          case Some(t) =>
            match SearchParams(t, q, args)
            case None => Fail(InternalError)
            case Some(params) => Ok(SearchRequest(SearchHost + EndpointPath(t), params, "Bearer " + apiKey))
  }

  /** A search is sent exactly when the user is signed in, the key is set,
      the query is not blank, the type is known and the numbers parse; it
      then goes to that type's endpoint, carries the key as a bearer token
      and asks for the stripped query. */
  lemma PlanSearchSendsIff(loggedIn: bool, envKey: string, searchType: string, args: Args)
    ensures var r := PlanSearch(loggedIn, envKey, searchType, args);
      var q := Strip(if "q" in args then args["q"] else "");
      && (r.Ok? <==> loggedIn && Strip(envKey) != "" && q != "" && ParseSearchType(searchType).Some?
                     && SearchParams(ParseSearchType(searchType).value, q, args).Some?)
      && (r.Ok? ==>
            && r.value.url == SearchHost + ("/res/v1/" + searchType + "/search")
            && StartsWith(r.value.authorization, "Bearer ") && r.value.authorization[7..] == Strip(envKey)
            && r.value.params["q"] == PStr(q))
  {
    var r := PlanSearch(loggedIn, envKey, searchType, args);
    if r.Ok? {
      var t := ParseSearchType(searchType).value;
      EndpointNamesType(t);
      assert ("Bearer " + Strip(envKey))[..7] == "Bearer ";
    }
  }

  lemma EndpointNamesType(t: SearchType)
    ensures EndpointPath(t) == "/res/v1/" + TypeName(t) + "/search"
  {
  }

  /** The answer of `search_api` once the upstream call is made: the JSON of
      a 200 answer; `Search API error: <status>` with the upstream status
      passed through; or a 500 carrying the exception text. */
  function SearchAnswer(result: UpstreamResult): (r: Reply<Json>)
    ensures r.Ok? <==> result.Answered? && result.status == 200 && result.body.JsonBody?
    ensures r.Ok? ==> r.value == result.body.json
    ensures result.Answered? && result.status != 200 ==>
      r == Fail(HttpError(result.status, "Search API error: " + IntToDecimal(result.status)))
    ensures result.Raised? ==> r == Fail(HttpError(500, result.message))
  {
    match result
    case Raised(msg) => Fail(HttpError(500, msg))
    case Answered(status, body) =>
      if status != 200 then Fail(HttpError(status, "Search API error: " + IntToDecimal(status)))
      else
        match body
        case NotJson(e) => Fail(HttpError(500, e))
        case JsonBody(data) => Ok(data)
  }

  /** The upstream status can be read back from the error text. */
  lemma SearchErrorNamesStatus(status: int, body: Body)
    requires status != 200
    ensures var e := SearchAnswer(Answered(status, body)).err.error;
      |e| > 18 && PyIntOfString(e[18..]) == Some(status) && e[18..] != "" && SearchAnswer(Answered(status, body)).Status() == status
  {
    var e := SearchAnswer(Answered(status, body)).err.error;
    assert e[18..] == IntToDecimal(status);
    DecimalRoundTrip(status);
  }
}
