# finzfinz in Dafny

finzfinz is a small stock dashboard. Its server side is a set of HTTP
endpoints. They proxy Yahoo Finance for quotes, company industries, price
charts and ticker search, and the Frankfurter service for the USD/KRW rate.
One endpoint builds a company profile from three summary bullets. The
bullets come from Anthropic's Messages API when a key is configured, and
from a fixed Korean template otherwise. The client page keeps a watchlist,
split into a USA group and a Korea group, offers search suggestions, and
keeps the current and previous exchange rate.

This project models the logic of those pieces:

- `yahoo.dfy` (module `Yahoo`): the Yahoo session handshake.
  - The cookie is cut from the `set-cookie` header.
  - The crumb is trimmed and validated.
  - The session expires 20 minutes after it is acquired.
  - The session cache is reused only while strictly unexpired, and is
    unchanged when an acquisition fails.
  - Query parameters are assembled and the session crumb overrides any
    `crumb` parameter.
  - The first quote result and the nested industry are picked out, and an
    industry lookup never fails.
- `chart_route.dfy`: the range table of the chart endpoint and its
  zip-and-filter of timestamps with close/open/high/low series.
- `quote_route.dfy`: the 400/404/500 status choice of the quote endpoint and
  its `??` fallback chains.
- `claude.dfy`: `normalizeBullets` (line splitting on `\r?\n`, bullet
  stripping, trimming, de-duplication, the first three with a `• ` prefix).
  Also the text assembly of a model reply and the "fewer than three bullets
  gives null" rule.
- `profile_route.dfy`: the market classification, the company name fallback,
  the template bullets and the choice of bullet source.
- `forex_route.dfy`: the seven-day look-back for the previous rate, with
  `continue` on a non-ok day and `break` on a positive rate.
- `search_route.dfy`: the query guard, the name fallbacks and JavaScript's
  `slice(0, limit)`, including a negative limit.
- `page.dfy`: the client's market label, watchlist add/delete, the
  USA/Korea partition, suggestion de-duplication with JavaScript `Map`
  semantics, the query length guard and the local name table. It also holds
  the exchange-rate state: hydration only fills null rates, and rate
  snapshots are stored only when positive.

Support modules:

- `wrappers.dfy`: `Option`, `Result` and JavaScript's `??`.
- `http.dfy`: an HTTP outcome, which is either "threw" or a response with an
  `ok` flag and a parsed body, plus the `?.[0]` first-result selection.
- `text.dfy`: JavaScript string operations on `seq<char>`.
- `seqs.dfy`: `Array.prototype.filter` and first-occurrence de-duplication,
  with their lemmas.

Every network call is an input value of type `HttpOutcome`. A clock reading
is an `int` parameter. JavaScript's `null` and `undefined` are both
`Option.None`. Prices and rates are `real`, since the code only tests them
for presence and compares them with zero.

Three details of the code that are easy to misread:

- The quote endpoint never reads `regularMarketPreviousClose`. Its price is
  regular, else post-market, else pre-market, else null.
- The profile's `source` is `"claude"` or `"fallback"`.
- The page groups a ticker as Korean by its suffix alone. Its card label
  also accepts a KRW currency or a Korean exchange code. So a ticker without
  `.KS`/`.KQ` whose quote is in KRW sits in the USA group but is labelled
  Korea.

## Model

| member | source | states |
|---|---|---|
| Yahoo.CookieOf | src/lib/yahoo.ts:24-25 | the cookie is the longest `;`-free prefix of the `set-cookie` header, stopping exactly at the first `;`; a missing header gives the empty cookie |
| Yahoo.RequestSession | src/lib/yahoo.ts:18-47 | acquisition succeeds iff the handshake did not throw, the cookie is non-empty, the crumb response is ok and the trimmed crumb is usable; the session then holds that cookie, that crumb and `clock + 1200000`; the missing-cookie error happens exactly when the cookie is empty |
| Yahoo.AcquiredSessionUsable | src/lib/yahoo.ts:24-46 | an acquired session has a non-empty cookie without `;`, a crumb that does not contain "unauthorized" in any case, and an expiry exactly 1200000 ms after the clock |
| Yahoo.AcquiredCrumbTrimmed | src/lib/yahoo.ts:37-40 | an acquired crumb is non-empty and neither starts nor ends with white space |
| Yahoo.ReuseIffUnexpired | src/lib/yahoo.ts:49-52 | the returned session is independent of the acquisition outcome iff a cached session exists with `expiresAt > now`, and the cache is then unchanged |
| Yahoo.ExpiryIsStrict | src/lib/yahoo.ts:50 | at `now == expiresAt` the cached session is not reused and a new acquisition decides the result |
| Yahoo.AcquisitionUpdatesCache | src/lib/yahoo.ts:53-59 | when no session is reusable, a failed acquisition leaves the cache unchanged and a successful one becomes the cached session |
| Yahoo.SessionCache.constructor | src/lib/yahoo.ts:15-16 | the module starts with no cached session and nothing pending |
| Yahoo.SessionCache.GetSession | src/lib/yahoo.ts:49-60 | returns the reused or newly acquired session (or the acquisition error), sets the cache as above, and clears the pending marker on both paths |
| Yahoo.SearchParams | src/lib/yahoo.ts:64-73 | the query holds exactly the parameters with non-empty values, except that a non-empty session crumb is set last under `crumb` and overrides a `crumb` parameter; no value is empty |
| Yahoo.Reply | src/lib/yahoo.ts:70-88 | a session failure is reported as such; otherwise the result succeeds iff the fetch did not throw and was ok, and then it is the parsed body |
| Yahoo.FetchJson | src/lib/yahoo.ts:62-89 | a request is sent iff a session was obtained; its query is as `SearchParams` states and its cookie header is present iff the session cookie is non-empty; the result is `Reply`'s and the cache is updated as by `GetSession` |
| Yahoo.IndustryFromSummary | src/lib/yahoo.ts:119-121 | the industry is present iff the summary has a first result with an asset profile that names one, and then it is that value |
| Yahoo.QuoteOf | src/lib/yahoo.ts:108-109 | an error stays an error; a body yields its first quote result, or null when there is none |
| Yahoo.IndustryOf | src/lib/yahoo.ts:112-125 | any error yields null (never a failure); a body yields its nested industry |
| Yahoo.FetchQuote | src/lib/yahoo.ts:104-110 | a request is sent iff a session was obtained, and its query is exactly `symbols=<symbol>` plus the session crumb, with the session cookie; the result is the first quote result of the reply (null when there is none) or the reply's error; the cache is updated as by `GetSession` |
| Yahoo.FetchIndustry | src/lib/yahoo.ts:112-125 | a request is sent iff a session was obtained, and its query is exactly `modules=assetProfile` plus the session crumb, with the session cookie; the result is the nested industry of an ok reply and null on every error; the cache is updated as by `GetSession` |
| ChartRoute.RangeQuery | src/app/api/chart/route.ts:35-41 | a missing or empty range and `30d` map to `1mo`, `3mo` and `1y` map to themselves, and every other range maps to `1mo` |
| ChartRoute.Drafts | src/app/api/chart/route.ts:58-67 | one draft per timestamp, with `t = timestamp * 1000` and the close, open, high and low at the same index (null past the end of a series) |
| ChartRoute.KeepClosedSpec | src/app/api/chart/route.ts:68 | the kept points are exactly the drafts with a numeric close, converted one for one, in the drafts' order |
| ChartRoute.KeepClosed | src/app/api/chart/route.ts:68 | the filter never yields more points than drafts; `KeepClosedSpec` states which ones |
| ChartRoute.Points | src/app/api/chart/route.ts:58-68 | at most one point per timestamp; `PointsSpec` states exactly which |
| ChartRoute.PointsSpec | src/app/api/chart/route.ts:58-68 | there is one point per index whose close is a number, none for other indices, in timestamp order, and each point's `t`, close, open, high and low come from that index |
| ChartRoute.PointsHaveCloses | src/app/api/chart/route.ts:60-68 | every output point comes from an index with that close and `t = timestamps[i] * 1000` |
| ChartRoute.PointsOf | src/app/api/chart/route.ts:50-68 | a missing first result or missing timestamps give no points; otherwise the points of the first result's timestamps and of its first quote series, with a missing series or array read as empty |
| ChartRoute.ChartUpstream | src/app/api/chart/route.ts:34-44 | no upstream request without a symbol; otherwise the request asks for daily points over the mapped range |
| ChartRoute.ChartGet | src/app/api/chart/route.ts:32-74 | a missing symbol gives 400 before any fetch; a thrown or non-ok fetch gives 500; otherwise the points of the body |
| QuoteRoute.FetchQuote | src/app/api/quote/route.ts:16-27 | succeeds iff the fetch did not throw and was ok, with the first quote result or null |
| QuoteRoute.FetchIndustry | src/app/api/quote/route.ts:29-45 | a thrown or non-ok fetch yields null; an ok one yields the nested industry |
| QuoteRoute.CurrentPrice | src/app/api/quote/route.ts:66-70 | the first present value among regular, post-market and pre-market price, else null |
| QuoteRoute.Shape | src/app/api/quote/route.ts:62-75 | the symbol falls back to the requested one and the short name to the long name; change percent, currency and exchange stay null when absent; the industry is passed through |
| QuoteRoute.QuoteGet | src/app/api/quote/route.ts:47-79 | 400 iff the symbol is missing; 500 iff the quote fetch threw or was not ok; 404 iff it was ok without a first result; otherwise the shaped quote |
| QuoteRoute.PriceIgnoresPreviousClose | src/app/api/quote/route.ts:66-70 | the price is present iff one of the three prices is; a regular price of 0 is kept; the previous close never affects it |
| QuoteRoute.IndustryFailureHarmless | src/app/api/quote/route.ts:29-45 | a failed industry lookup never changes the status, and a successful reply then carries a null industry |
| Claude.DropCr | src/lib/claude.ts:7 | a line ending in `\r` is the result followed by that `\r`; any other line is returned unchanged |
| Claude.StripCrs | src/lib/claude.ts:7 | one line per `\n`-separated piece: every piece but the last loses one trailing `\r`, and the last piece is kept as it is |
| Claude.CrFlags | src/lib/claude.ts:7 | one flag per line break, true exactly when the piece before it ends in `\r` |
| Claude.SplitLines | src/lib/claude.ts:7 | one line per `\n`-separated piece of the text, and no line contains `\n` |
| Claude.SplitLinesPieces | src/lib/claude.ts:7 | each line is its piece of the text, less one trailing `\r` for every piece followed by a `\n`; the last piece is kept whole |
| Claude.LineEndings | src/lib/claude.ts:7 | one removed line ending per break between lines |
| Claude.StripCrsJoin | src/lib/claude.ts:7 | putting each removed `\r` back before its `\n` rebuilds the pieces joined with `\n` |
| Claude.SplitLinesRoundTrip | src/lib/claude.ts:7 | for every text, joining its lines with the removed endings (`\r\n` or `\n`) gives the text back, and a line before a plain `\n` never ends in `\r` |
| Claude.CleanLine | src/lib/claude.ts:8 | the cleaned line is no longer than the line, and when non-empty it starts with neither a bullet character nor white space and does not end with white space |
| Claude.LeadLength | src/lib/claude.ts:8 | the longest run of `-`, `•`, digits, `.` and white space at the start of the line: all of its characters are such, and the next one is not |
| Claude.CleanLineTrim | src/lib/claude.ts:8 | after the leading run, `trim()` only removes trailing white space, and what is left is empty or a clean body |
| Claude.CleanLineIsTrimEnd | src/lib/claude.ts:8 | the cleaned line is what follows the leading run, with its trailing white space removed |
| Claude.CleanLineSpec | src/lib/claude.ts:8 | the cleaned line is the slice of the line that starts right after the leading run, and only white space follows it |
| Claude.CleanedLines | src/lib/claude.ts:6-8 | one cleaned line per line of the text |
| Claude.Bodies | src/lib/claude.ts:6-9 | no more bodies than lines |
| Claude.BodiesMembers | src/lib/claude.ts:6-9 | a string is a body iff it is non-empty and is the cleaning of some line of the text |
| Claude.KeptBodiesClean | src/lib/claude.ts:8-9 | after `filter(Boolean)` every kept cleaned line is a clean, non-empty body |
| Claude.BodiesClean | src/lib/claude.ts:6-9 | every body of a text is non-empty and clean |
| Claude.BulletsSpec | src/lib/claude.ts:11-18 | at most 3 bullets, fewer only when there are no more distinct bodies; each is `• ` plus a body; the bodies are pairwise distinct and in order of first occurrence |
| Claude.NormalizedBullets | src/lib/claude.ts:5-19 | never more than three bullets; `BulletsSpec` and `NormalizedBulletsClean` state which |
| Claude.NormalizedBulletsClean | src/lib/claude.ts:5-19 | every bullet is `• ` followed by one of the text's bodies, which is clean and non-empty, and no two bullets are equal |
| Claude.CollectUnique | src/lib/claude.ts:11-16 | the loop collects the distinct lines in order of first occurrence |
| Claude.NormalizeBullets | src/lib/claude.ts:5-19 | the loop's result equals the normalized bullets of the text: the first three distinct bodies, each after `• `, as `BulletsSpec` and `NormalizedBulletsClean` state |
| Claude.TextsOf | src/lib/claude.ts:69-71 | one text per entry of type `text` with a non-empty text, in order, and each is that entry's text |
| Claude.ContentText | src/lib/claude.ts:69-73 | the reply text is a slice of the texts joined with `\n` that neither starts nor ends with white space, and is empty when there are no texts |
| Claude.ContentTextTrimmed | src/lib/claude.ts:69-73 | only white space precedes and follows the reply text within the joined texts |
| Text.TrimSpec | src/lib/claude.ts:73 | `trim()` returns a slice of the string with only white space before it and after it |
| Claude.Summarize | src/lib/claude.ts:32-85 | fails only when a key is present and the call threw; a non-null result comes from an ok reply with non-empty text and is exactly three normalized bullets; for such a reply the result is null iff there are fewer than three bullets |
| Claude.SummaryBulletsWellFormed | src/lib/claude.ts:79-84 | a non-null summary has three distinct bullets, each starting with `• ` |
| ProfileRoute.MarketFromQuote | src/app/api/profile/route.ts:7-19 | Korea iff the upper-cased ticker ends in `.KS` or `.KQ`, or the upper-cased currency is KRW, or the upper-cased exchange is KSE, KOE, KSC or KOSDAQ; USA otherwise |
| ProfileRoute.MarketIgnoresCase | src/app/api/profile/route.ts:8-15 | upper-casing the inputs first does not change the market |
| ProfileRoute.FallbackBullets | src/app/api/profile/route.ts:21-37 | three bullets, each starting with `• `; the second names the industry or the placeholder "산업 정보 확인 중" |
| ProfileRoute.CompanyName | src/app/api/profile/route.ts:57 | the long name, else the short name, else the symbol |
| ProfileRoute.ProfileGet | src/app/api/profile/route.ts:39-86 | 400 iff the symbol is missing; 404 iff the quote lookup found nothing; 500 iff the quote lookup failed or the summariser threw; otherwise the profile with that symbol, company name, market and industry |
| ProfileRoute.ProfileBullets | src/app/api/profile/route.ts:60-81 | a profile always has three `• ` bullets; the source is `claude` iff the summariser returned bullets, which are then used, and otherwise it is `fallback` and the template is used |
| ForexRoute.LastOkRate | src/app/api/forex/route.ts:18-34 | 0 when no day was ok; the rate of the last day when it is ok |
| ForexRoute.LastOkRateIsLast | src/app/api/forex/route.ts:26-30 | whatever comes before, the rate is that of the ok day after which no day is ok |
| ForexRoute.LastOkRateStep | src/app/api/forex/route.ts:26-30 | reading one more day takes its rate when it is ok and keeps the earlier result otherwise |
| ForexRoute.PreviousRate | src/app/api/forex/route.ts:18-34 | between 1 and 7 requests; none before the last one stops the loop; fewer than 7 only when the last one threw or found a positive rate; the previous rate is the last ok day's rate |
| ForexRoute.LookbackResult | src/app/api/forex/route.ts:29-33 | when the look-back ends without an error, the previous rate is positive iff the last day read had a positive rate |
| ForexRoute.NoPositiveRate | src/app/api/forex/route.ts:18-34 | when no day has a positive rate, the previous rate is at most 0 |
| ForexRoute.ForexGet | src/app/api/forex/route.ts:3-40 | a failed latest-rate fetch gives 500 with zero rates and no look-back; otherwise 1 to 7 look-back requests, none but the last of them threw or had a positive rate, and fewer than 7 only when the last did; a thrown look-back request gives 500 with zero rates; otherwise 200 with the latest rate and the last ok day's rate |
| SearchRoute.ToItem | src/app/api/search/route.ts:20-26 | the short name falls back to the long name, then the plain name; the long name falls back to the short name |
| SearchRoute.SliceTo | src/app/api/search/route.ts:27 | `slice(0, limit)` is a prefix, of length `limit` capped at the input, or all but the last `-limit` items for a negative limit |
| SearchRoute.SearchGet | src/app/api/search/route.ts:3-31 | no query or a failed fetch gives `[]`; otherwise the first `n` mapped quotes, where `n` is the limit (6 when absent) capped at the number of quotes, or all but the last `-n` quotes for a negative limit |
| Page.MarketLabel | src/app/page.tsx:69-80 | the card label agrees with the profile endpoint's market on the same ticker, currency and exchange |
| Page.AddTicker | src/app/page.tsx:505-510 | the upper-cased ticker is in the result; the watchlist is unchanged when it already held it and gains it at the end otherwise |
| Page.AddKeepsDistinct | src/app/page.tsx:505-510 | a duplicate-free watchlist stays duplicate-free and holds the added ticker once |
| Page.DeleteTicker | src/app/page.tsx:512-514 | the ticker no longer occurs and every other ticker keeps its number of occurrences |
| Page.DeleteKeepsOrder | src/app/page.tsx:512-514 | deleting distributes over concatenation, so the remaining tickers keep their order |
| Page.DeleteUndoesAdd | src/app/page.tsx:505-514 | deleting a ticker that was just added restores the watchlist |
| Page.PartitionWatchlist | src/app/page.tsx:524-535 | each ticker lands in exactly one group, Korea iff its upper-cased form ends in `.KS` or `.KQ`, and each group keeps the watchlist order |
| Page.KoreanGroupIsKoreaMarket | src/app/page.tsx:69-80 | a ticker in the Korea group is labelled Korea whatever its quote says |
| Page.SuggestionQuery | src/app/page.tsx:467-472 | no search when the trimmed query is shorter than 2 (including the empty query); otherwise the search uses the trimmed query |
| Page.LocalMatch | src/app/page.tsx:473 | the table is looked up by the query itself first, then by its lower-case form |
| Page.KeysAreLowerCase | src/app/page.tsx:38-61 | every name in the table is its own lower-case form |
| Page.LocalMatchFoldsCase | src/app/page.tsx:473 | every query finds the same ticker as its lower-case spelling |
| Text.ToLowerIdempotent | src/app/page.tsx:473 | lower-casing twice is the same as lower-casing once |
| Page.SuggestionItems | src/app/page.tsx:474-491 | exactly one item from an ok local fetch and all results of an ok search, and nothing from a failed one: the local quote first, then the search results in order |
| Page.DedupSuggestions | src/app/page.tsx:493-500 | one suggestion per distinct non-empty symbol, in order of first appearance, each the last item with that symbol, at most 6 |
| Page.SuggestionsDistinct | src/app/page.tsx:493-500 | suggestions have non-empty, pairwise distinct symbols, ordered by where each symbol first appeared |
| Page.LastWithIsLast | src/app/page.tsx:493-498 | for a symbol, the item `Map.set` keeps is the last item with it |
| Page.StateValue | src/app/page.tsx:129-140 | a stored number is returned only from an ok reply, and then it is that reply's value |
| Page.Snapshots | src/app/page.tsx:397-402 | a rate snapshot is written iff that rate is positive, so no stored snapshot is zero or negative |
| Page.FxState.constructor | src/app/page.tsx:373-380 | the rates start from the given stored values |
| Page.FxState.ApplyForex | src/app/page.tsx:386-409 | an ok reply sets both rates and writes the positive snapshots; a failure keeps both rates and writes nothing |
| Page.FxState.Hydrate | src/app/page.tsx:417-435 | stored values are read only when a rate is null, and each fills only its own null rate; a known rate is never overwritten |

## Left out

- Network I/O, JSON parsing and HTTP headers. Each call is an input `HttpOutcome`, and a parse failure counts as "threw".
- The single-flight sharing of `sessionPromise` between concurrent callers (src/lib/yahoo.ts:53-57). The model is sequential: a call runs its acquisition to completion before the next one starts.
- `fetchYahooChart` (src/lib/yahoo.ts:127 onward): no endpoint calls it.
- `RANGE_DAYS` in the chart endpoint: nothing reads it.
- URL building and percent-encoding of path segments and query values. The model records the parameters, not the URL text.
- Table lookups with keys such as `__proto__` or `constructor`, which reach `Object.prototype` in JavaScript.
- NaN and floating-point behaviour. Values are `real`, so `typeof x === "number"` is modelled as presence.
- The difference between `null` and an omitted `undefined` field in JSON replies.
- Unicode case mapping beyond ASCII in `toUpperCase`/`toLowerCase`, and UTF-16 code units. A string is a sequence of code points.
- Date arithmetic in the forex endpoint (`new Date`, `toISOString`). Day `i` of the look-back is simply the `i`-th outcome, and the endpoint's `date` field is not modelled.
- Yahoo.FetchQuote, Yahoo.FetchIndustry: the request path and host (`/v7/finance/quote`, `/v10/finance/quoteSummary/<symbol>`) are not modelled; only the query and the cookie are.
- The prompt text, the reading of the API key (modelled as a flag) and the model call itself.
- `src/lib/db.ts`, the state and bitcoin endpoints and `layout.tsx` are not part of this model. The state endpoint is seen only through `getStateValue`'s reply.
- The React components, `useLocalStorageState`, `isActive` cancellation, the 350 ms debounce and all SVG and number formatting.
- SearchRoute.SearchGet: the limit is an already-parsed integer (`None` when the parameter is missing or empty). `Number()` yielding NaN or a fraction is not modelled.
- QuoteRoute.FetchQuote: the route declares its own quote type without `regularMarketPreviousClose`. The model reuses the library's quote record, and `PriceIgnoresPreviousClose` shows the extra field has no effect.
- ForexRoute.PreviousRate: the seven outcomes are supplied up front, although only the first `requests` of them are read.
