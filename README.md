# related-api: a Dafny model of the related-videos endpoint

The service answers `GET /query?url=<YouTube link>` with the videos that an
external scraper finds related to the linked video. Its own logic is small:

- **URL validator** (`UrlValidator`, `url_validator.dfy`): the YouTube shape
  check `validateYoutubeURL`, a fixed regular expression
  `^(https?\:\/\/)?(www\.youtube\.com|youtu\.?be)\/.+$`, written as a
  hand-coded prefix matcher `MatchesShape` and proved equal to the language the
  expression denotes (`ShapeSpec`); and `getYoutubeIdentifierFromURL` as
  `ExtractId` over a parsed URL (host name, path name, ordered query pairs).
- **Request handler** (`QueryHandler`, `query_handler.dfy`): the `/query`
  route as a pure function `Handle` from the `url` query parameter, the URL
  parser and the scraper to a `(status, body)` response. The checks run in a
  fixed order (missing, not a URL, not YouTube-shaped, empty identifier), then
  the scrape ends in 500 (it threw), 404 (it resolved to null/undefined) or
  200 (it resolved to an array of records, each given a `url` field
  `https://youtu.be/<videoId>`); other resolved values are not modelled (see
  "Left out").
- **Startup configuration** (`Bootstrap`, `bootstrap.dfy`): `Configure` maps
  the environment variables `IP_BLOCKS`, `EXCLUDE_IP_ADDRESSES` and
  `SCRAPER_TIMEOUT` to the optional route-planner options, the scraper timeout
  and the startup log. `Split`/`Join` model `String.prototype.split` and
  `Array.prototype.join` with the `;` separator.
- `Wrappers` (`wrappers.dfy`) holds the `Option` datatype and `Truthy`, JavaScript
  truthiness of an optional string (absent and `""` are falsy).

Foreign collaborators are parameters, not re-implementations: the WHATWG URL
parser is `parse: string -> Option<ParsedUrl>` (`isURL(s)` is
`parse(s).Some?`, and the `ParsedUrl` is what `new URL` and
`URLSearchParams` yield), and the scraper is
`scrape: string -> ScrapeOutcome` (`Threw | Nullish | Videos`). A record is a
map from field names to values; a non-string value whose string conversion
succeeds carries the text the template literal inserts for it, and a missing
`videoId` inserts `undefined`.

Behaviours of the code a reader may not expect:
- The shape check accepts `youtube/<path>` and `youtu.be/<path>` with or
  without a scheme, and rejects the bare `youtube.com/<path>` host
  (`BareYoutubeComRejected`).
- An empty `url` parameter is treated as missing, like an absent one.
- A scrape that returns an empty array is answered with 200 and `[]`, not 404:
  an empty array is truthy (`EmptyListIsFound`).

## Model

| member | source | states |
|---|---|---|
| UrlValidator.MatchesShape | src/index.ts:160-163 | `validateYoutubeURL`: an accepted string is at least 9 characters long (`youtube/` and one path character) and does not end in a line terminator; its full language is stated by `MatchesShapeIffSpec` |
| UrlValidator.MatchesShapeSound | src/index.ts:160-163 | every string the hand-coded matcher accepts is an optional `http://`/`https://`, one of `www.youtube.com`, `youtube`, `youtu.be`, a `/`, and one or more non-line-terminator characters |
| UrlValidator.MatchesShapeComplete | src/index.ts:160-163 | every string of that form is accepted by the matcher |
| UrlValidator.MatchesShapeIffSpec | src/index.ts:160-163 | the matcher and the language of the regular expression agree on every string |
| UrlValidator.SchemeOf | src/index.ts:161 | the optional scheme group: the result is `https://`, `http://` or empty, the input starts with it, and it is empty only when the input starts with neither scheme |
| UrlValidator.HostOf | src/index.ts:161 | a returned host is one of the three alternatives and the input starts with it and `/` |
| UrlValidator.MatchesShapeOfParts | src/index.ts:161 | on a scheme, a host and `/` followed by a path, the matcher accepts exactly when the path is one or more non-line-terminator characters |
| UrlValidator.ShortHostWithoutDotAccepted | src/index.ts:161 | `youtu\.?be` also accepts the scheme-less `youtube/<path>` |
| UrlValidator.BareYoutubeComRejected | src/index.ts:161 | any scheme followed by `youtube.com` is rejected, whatever follows |
| UrlValidator.EmptyOrMultilinePathRejected | src/index.ts:161 | `.+$` rejects an empty path and a path holding a line terminator |
| UrlValidator.ShortLinkExampleAccepted | src/index.ts:160-163 | `https://youtu.be/abc123` is accepted |
| UrlValidator.WatchLinkExampleAccepted | src/index.ts:160-163 | `https://www.youtube.com/watch?v=abc123&t=5` is accepted |
| UrlValidator.BareHostExampleRejected | src/index.ts:160-163 | `https://youtube.com/watch?v=x` is rejected |
| UrlValidator.FirstIndexOf | src/index.ts:154-155 | the returned position holds the first parameter with the key, no earlier one has it, and it is the length when none has it |
| UrlValidator.GetParam | src/index.ts:154-155 | `URLSearchParams.get` is null exactly when no parameter has the key, and otherwise the value of the first parameter with the key |
| UrlValidator.ExtractId | src/index.ts:149-158 | for `youtu.be`, the identifier is no longer than the path name |
| UrlValidator.ShortLinkId | src/index.ts:151-152 | for host `youtu.be` the identifier is the path name without its leading `/` |
| UrlValidator.WatchLinkId | src/index.ts:153-156 | for `www.youtube.com`/`youtube.com` the identifier is empty exactly when there is no `v` parameter or the first one is empty; otherwise it is the value of the first `v` parameter |
| UrlValidator.WatchLinkLeadingV | src/index.ts:153-156 | a leading `v` parameter is the identifier whatever follows it |
| UrlValidator.OtherHostNoId | src/index.ts:157 | any other host name gives the empty identifier |
| UrlValidator.IdExamples | src/index.ts:149-158 | the identifiers of `youtu.be/abc123`, `watch?v=abc123&t=5` and `watch` without `v` are `abc123`, `abc123` and empty |
| QueryHandler.VideoIdText | src/index.ts:105 | the text `${e.videoId}` inserts: a string `videoId` as it is, a non-string one as its string conversion, and `undefined` when the field is missing |
| QueryHandler.WithUrl | src/index.ts:104-106 | the spread record keeps every field but `url` unchanged and gains `url == "https://youtu.be/" + videoId`, overriding any old `url` |
| QueryHandler.WithUrls | src/index.ts:103-107 | the mapped list has the input's length and order, and each element is its input record with the derived `url` |
| QueryHandler.Handle | src/index.ts:83-112 | the status is one of 400, 404, 500, 200; a missing or empty `url` gives 400 "Missing url querystring."; a string that does not parse gives 400 "Invalid URL."; 200 carries records and 500 the raw error |
| QueryHandler.MissingUrlFirst | src/index.ts:84-87 | a missing or empty `url` gives the same 400 whatever the parser and the scraper are |
| QueryHandler.RejectionIgnoresScraper | src/index.ts:85-97 | every 400 response is the same for any scraper, and no identifier reaches the scraper |
| QueryHandler.BadRequestIff | src/index.ts:85-97 | the status is 400 exactly when some check fails; a failed shape check or an empty identifier gives "Invalid Youtube URL." |
| QueryHandler.ScraperSeesOnlyId | src/index.ts:94-99 | once the checks pass, the response depends on the scraper only through its outcome for the extracted identifier |
| QueryHandler.ScrapeOutcomes | src/index.ts:98-111 | a thrown scrape gives 500 with the raw error, a nullish one 404 "Related videos not found.", a list 200 with the mapped records, each exactly when the scrape ends that way |
| QueryHandler.EmptyListIsFound | src/index.ts:100-107 | an empty list is answered with 200 and `[]` |
| QueryHandler.WithUrlsKeepsVideoIds | src/index.ts:103-107 | every output record has the `videoId` text of its input record |
| QueryHandler.WithUrlIdempotent | src/index.ts:105 | spreading a record that already has its derived `url` and setting `url` again changes nothing |
| QueryHandler.WithUrlsIdempotent | src/index.ts:103-107 | adding the `url` field twice is the same as adding it once |
| Bootstrap.Split | src/index.ts:27-29 | `split(";")` gives one piece more than there are separators, and no piece holds a separator |
| Bootstrap.JoinSplit | src/index.ts:27-29 | joining the pieces with the separator gives back the variable's text |
| Bootstrap.SplitJoin | src/index.ts:27-29 | splitting a join of separator-free pieces gives back the pieces |
| Bootstrap.Configure | src/index.ts:24-63 | a route planner exists iff `IP_BLOCKS` is non-empty; its blocks, and its excludes when passed, are separator-free pieces that join back to the variable's text, one more than its `;` count; excludes are passed iff `EXCLUDE_IP_ADDRESSES` is non-empty; the warning is logged iff excludes are set without blocks, and then no planner exists; the enabled line reports the block count; the timeout is 10000 when `SCRAPER_TIMEOUT` is unset or empty, and its info line is logged iff it is set; the log holds exactly those optional lines, one each, in the order planner line, warning, timeout line |
| Bootstrap.SplitIsDetermined | src/index.ts:27-29 | separator-free pieces that join to a text are exactly the split of that text |
| Bootstrap.PlannerListsAreTheSplits | src/index.ts:25-30 | from the contract of `Configure` alone: the blocks are `IP_BLOCKS.split(";")`, and the excludes are `EXCLUDE_IP_ADDRESSES.split(";")` when it is non-empty and absent otherwise |
| Bootstrap.ExcludesAloneAreIgnored | src/index.ts:43-47 | `EXCLUDE_IP_ADDRESSES` without `IP_BLOCKS` warns and builds no planner |

## Left out

- WHATWG URL parsing (`new URL`, `URLSearchParams`): a parameter of `Handle`; the parser is assumed deterministic, so the two `new URL` calls on the same string agree.
- The scraper and the route planner of `@sirubot/yt-related-scraper`: the scrape is a parameter returning an abstract outcome, the planner is only its constructor options.
- `parseInt` of `SCRAPER_TIMEOUT`: kept as the text it is applied to (`ParseIntOf`).
- Fastify server setup, the query-string schema, `listen`, `PORT` and the exit on bind failure: server plumbing.
- The `/health` and `/` routes: constant bodies apart from the process uptime.
- Logging transport, the `debug`/`info` callbacks handed to the scraper and planner, `dotenv`, and async scheduling: I/O.
- QueryHandler.Handle: the scrape is assumed to resolve to null/undefined or to an array of objects, so two paths are not modelled: a `TypeError` thrown inside `result.map` (a truthy non-array result, a null/undefined element, or a `videoId` whose string conversion throws, such as a Symbol or an object without a usable `toString`), which the `try` turns into a 500, and the other falsy results (`false`, `0`, `""`), which `!result` sends to 404; the scraper's own types are not part of this model.
- JSON serialisation of the response, including how a thrown `Error` object serialises: the body is kept as a value.
- UrlValidator.ExtractId: its own contract states only a length bound; the identifier rules are the lemmas ShortLinkId, WatchLinkId and OtherHostNoId.
- UrlValidator.MatchesShape: its own contract states only necessary conditions on an accepted string (length, last character); the exact language is the lemma MatchesShapeIffSpec.
