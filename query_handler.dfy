/**
 * The `GET /query?url=...` route of the related-videos service: a ladder of
 * checks on the `url` query parameter, each of which can end the request with
 * a 400 response, followed by one call to the external scraper whose outcome
 * becomes a 500, 404 or 200 response.
 *
 * The two foreign collaborators are parameters of `Handle`:
 *  - `parse` is the WHATWG URL parser; `isURL(s)` is `parse(s).Some?`, and the
 *    parsed form is what `getYoutubeIdentifierFromURL` reads;
 *  - `scrape` is the scraper's `scrape(videoId, routePlanner)` call, with the
 *    route planner fixed at startup.
 */
module QueryHandler {
  import opened Wrappers
  import opened UrlValidator

  /** A JSON value inside a related-video record. */
  datatype Value =
    | Str(text: string)
      /** Any value that is not a string and whose string conversion succeeds,
          carried with the text that a template literal inserts for it. */
    | NonStr(asText: string)

  /** A related-video record as the scraper returns it: its fields by name. */
  type Record = map<string, Value>

  /**
   * What the awaited scrape call does: it throws, resolves to null/undefined,
   * or resolves to an array of record objects.
   */
  datatype ScrapeOutcome = Threw(error: Value) | Nullish | Videos(records: seq<Record>)

  /** The JSON body sent back. */
  datatype Body =
    | ErrorMessage(message: string)   // `{ error: "<message>" }`
    | ErrorRaw(error: Value)          // `{ error: <the thrown value> }`
    | Records(items: seq<Record>)     // the JSON array of records

  datatype Response = Response(status: int, body: Body)

  const MissingUrlMessage := "Missing url querystring."
  const InvalidUrlMessage := "Invalid URL."
  const InvalidYoutubeUrlMessage := "Invalid Youtube URL."
  const NotFoundMessage := "Related videos not found."
  const ShortLinkPrefix := "https://youtu.be/"

  /** The text `${e.videoId}` inserts: the field's string form, or `undefined` when it is missing. */
  function VideoIdText(e: Record): (t: string)
    ensures "videoId" !in e ==> t == "undefined"
    ensures "videoId" in e && e["videoId"].Str? ==> t == e["videoId"].text
    ensures "videoId" in e && e["videoId"].NonStr? ==> t == e["videoId"].asText
  {
    if "videoId" in e then
      match e["videoId"]
      case Str(t) => t
      case NonStr(t) => t
    else "undefined"
  }

  /** `{ ...e, url: `https://youtu.be/${e.videoId}` }`. */
  function WithUrl(e: Record): (r: Record)
    ensures r.Keys == e.Keys + {"url"}
    ensures forall k :: k in e && k != "url" ==> r[k] == e[k]
    ensures r["url"] == Str(ShortLinkPrefix + VideoIdText(e))
  {
    e["url" := Str(ShortLinkPrefix + VideoIdText(e))]
  }

  /** `result.map(e => ({ ...e, url: ... }))`: each record in order, with its `url` field. */
  function WithUrls(rs: seq<Record>): (out: seq<Record>)
    ensures |out| == |rs|
    ensures forall i :: 0 <= i < |rs| ==> out[i].Keys == rs[i].Keys + {"url"}
    ensures forall i, k :: 0 <= i < |rs| && k in rs[i] && k != "url" ==> out[i][k] == rs[i][k]
    ensures forall i :: 0 <= i < |rs| ==> out[i]["url"] == Str(ShortLinkPrefix + VideoIdText(rs[i]))
  {
    if rs == [] then [] else [WithUrl(rs[0])] + WithUrls(rs[1..])
  }

  /** The handler body: the checks in their fixed order, then the scrape. */
  function Handle(url: Option<string>, parse: string -> Option<ParsedUrl>, scrape: string -> ScrapeOutcome)
    : (r: Response)
    ensures r.status == 400 || r.status == 404 || r.status == 500 || r.status == 200
    ensures !Truthy(url) ==> r == Response(400, ErrorMessage(MissingUrlMessage))
    ensures Truthy(url) && parse(url.value).None? ==> r == Response(400, ErrorMessage(InvalidUrlMessage))
    ensures r.status == 200 ==> r.body.Records?
    ensures r.status == 500 ==> r.body.ErrorRaw?
  {
    if !Truthy(url) then
      Response(400, ErrorMessage(MissingUrlMessage))
    else if parse(url.value).None? then
      Response(400, ErrorMessage(InvalidUrlMessage))
    else if !MatchesShape(url.value) then
      Response(400, ErrorMessage(InvalidYoutubeUrlMessage))
    else
      var id := ExtractId(parse(url.value).value);
      if id == "" then
        Response(400, ErrorMessage(InvalidYoutubeUrlMessage))
      else
        match scrape(id)
        case Threw(e) => Response(500, ErrorRaw(e))
        case Nullish => Response(404, ErrorMessage(NotFoundMessage))
        case Videos(rs) => Response(200, Records(WithUrls(rs)))
  }

  /** The request reaches the scraper, with identifier `id`, exactly when every check passed. */
  predicate ReachesScraper(url: Option<string>, parse: string -> Option<ParsedUrl>, id: string) {
    && Truthy(url)
    && parse(url.value).Some?
    && MatchesShape(url.value)
    && id == ExtractId(parse(url.value).value)
    && id != ""
  }

  /** A missing or empty `url` is answered before the parser or the scraper is consulted. */
  lemma MissingUrlFirst(url: Option<string>, p1: string -> Option<ParsedUrl>, p2: string -> Option<ParsedUrl>,
                        s1: string -> ScrapeOutcome, s2: string -> ScrapeOutcome)
    requires !Truthy(url)
    ensures Handle(url, p1, s1) == Handle(url, p2, s2) == Response(400, ErrorMessage(MissingUrlMessage))
  {
  }

  /** Every 400 response is decided without the scraper: any other scraper gives the same response. */
  lemma RejectionIgnoresScraper(url: Option<string>, parse: string -> Option<ParsedUrl>,
                                s1: string -> ScrapeOutcome, s2: string -> ScrapeOutcome)
    requires Handle(url, parse, s1).status == 400
    ensures Handle(url, parse, s2) == Handle(url, parse, s1)
    ensures forall id :: !ReachesScraper(url, parse, id)
  {
  }

  /** A response is 400 exactly when one of the four checks fails, and each check has its message. */
  lemma BadRequestIff(url: Option<string>, parse: string -> Option<ParsedUrl>, scrape: string -> ScrapeOutcome)
    ensures Handle(url, parse, scrape).status == 400 <==> forall id :: !ReachesScraper(url, parse, id)
    ensures Truthy(url) && parse(url.value).Some? && !MatchesShape(url.value) ==>
      Handle(url, parse, scrape) == Response(400, ErrorMessage(InvalidYoutubeUrlMessage))
    ensures Truthy(url) && parse(url.value).Some? && ExtractId(parse(url.value).value) == "" ==>
      Handle(url, parse, scrape) == Response(400, ErrorMessage(InvalidYoutubeUrlMessage))
  {
    if Handle(url, parse, scrape).status != 400 {
      var id := ExtractId(parse(url.value).value);
      assert ReachesScraper(url, parse, id);
    }
  }

  /** Past the checks, the response depends on the scraper only through its answer for `id`. */
  lemma ScraperSeesOnlyId(url: Option<string>, parse: string -> Option<ParsedUrl>, id: string,
                          s1: string -> ScrapeOutcome, s2: string -> ScrapeOutcome)
    requires ReachesScraper(url, parse, id)
    requires s1(id) == s2(id)
    ensures Handle(url, parse, s1) == Handle(url, parse, s2)
  {
  }

  /** The three responses after the scrape, each exactly when the scrape ends that way. */
  lemma ScrapeOutcomes(url: Option<string>, parse: string -> Option<ParsedUrl>, id: string,
                       scrape: string -> ScrapeOutcome)
    requires ReachesScraper(url, parse, id)
    ensures scrape(id).Threw? <==> Handle(url, parse, scrape).status == 500
    ensures scrape(id).Nullish? <==> Handle(url, parse, scrape).status == 404
    ensures scrape(id).Videos? <==> Handle(url, parse, scrape).status == 200
    ensures scrape(id).Threw? ==> Handle(url, parse, scrape).body == ErrorRaw(scrape(id).error)
    ensures scrape(id).Nullish? ==> Handle(url, parse, scrape).body == ErrorMessage(NotFoundMessage)
    ensures scrape(id).Videos? ==> Handle(url, parse, scrape).body == Records(WithUrls(scrape(id).records))
  {
    var r := Handle(url, parse, scrape);
    match scrape(id)
    case Threw(e) => assert r == Response(500, ErrorRaw(e));
    case Nullish => assert r == Response(404, ErrorMessage(NotFoundMessage));
    case Videos(rs) => assert r == Response(200, Records(WithUrls(rs)));
  }

  /** An empty array is truthy: it is answered with 200 and `[]`, not with 404. */
  lemma EmptyListIsFound(url: Option<string>, parse: string -> Option<ParsedUrl>, id: string,
                         scrape: string -> ScrapeOutcome)
    requires ReachesScraper(url, parse, id)
    requires scrape(id) == Videos([])
    ensures Handle(url, parse, scrape) == Response(200, Records([]))
  {
  }

  /**
   * Each record of a 200 response keeps the identifier it came with, so its
   * `url` is the short link of its own `videoId`.
   */
  lemma WithUrlsKeepsVideoIds(rs: seq<Record>)
    ensures |WithUrls(rs)| == |rs|
    ensures forall i :: 0 <= i < |rs| ==> VideoIdText(WithUrls(rs)[i]) == VideoIdText(rs[i])
  {
  }

  /** Adding the `url` field to a record that already has the derived one changes nothing. */
  lemma WithUrlIdempotent(e: Record)
    ensures WithUrl(WithUrl(e)) == WithUrl(e)
  {
    var once := WithUrl(e);
    assert VideoIdText(once) == VideoIdText(e);
    assert WithUrl(once).Keys == once.Keys;
  }

  /** Adding the `url` field twice is the same as adding it once. */
  lemma {:induction false} WithUrlsIdempotent(rs: seq<Record>)
    ensures WithUrls(WithUrls(rs)) == WithUrls(rs)
  {
    if rs != [] {
      var once := WithUrls(rs);
      assert once == [WithUrl(rs[0])] + WithUrls(rs[1..]);
      assert once[1..] == WithUrls(rs[1..]);
      WithUrlIdempotent(rs[0]);
      WithUrlsIdempotent(rs[1..]);
    }
  }
}
