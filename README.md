# Flight-delay prediction markets: resolver and market lists in Dafny

This project models the decision logic of a flight-delay and cancellation prediction
market (JetLagged/SkyShield), in three parts:

- **Resolver** (`resolver.dfy`, module `Resolver`). This is the `/resolve` endpoint of the resolver service, written as pure functions. It:
  1. checks the five query parameters;
  2. takes the calendar date out of the `date` parameter by string splitting;
  3. asks the flight-history provider for that day;
  4. selects the first reported flight whose scheduled instant is strictly within 5 minutes (300000 ms) of the requested one;
  5. classifies it as 1 on time, 2 delayed ≥ 30 min, 3 delayed ≥ 120 min or 4 cancelled (0 when nothing matched);
  6. chooses the HTTP answer: 400, the provider's own status, 404, 200 or 500.

  The provider call is a function parameter `fetch`, and JavaScript's date parser is a function parameter `parse` (milliseconds, or `None` for an invalid date).
- **Bet desk** (`bet_desk.dfy`, module `BetDesk`). The page state of the bet page is a class `BetPage`: the market list, the form, the outcome selector and the status line.
  - `Submit` models the submit handler: it normalises the flight number (trim, upper case), validates the form, and builds the id `FLIGHT-DATE`. It then either routes to the existing market with that id, leaving the list unchanged, or puts a new market at the front.
  - The sorted view is a pure insertion sort by implied probability, highest first.
  - The input handlers include the coverage clamp.
- **Markets board** (`markets_board.dfy`, module `MarketsBoard`). The markets page filters its fixed list of pools by outcome type (`All`, or one type) and by a case-insensitive substring search over flight number, route and airline. It then computes the totals shown above the list.

`text.dfy` (module `Text`) holds the JavaScript string operations these rely on. `optional.dfy` holds the `Option` type.

Two facts about the resolver shape the model:
- A non-ok provider reply is answered with the provider's own status code (apps/oasis/index.ts:70-79). The Response constructor of the Fetch standard refuses a status outside 200..599, and a null-body status such as 304 with a body. For such a status the handler's catch answers 500, and the model does the same.
- The resolver submits nothing on chain.

## Model

| member | source | states |
|---|---|---|
| `Resolver.MissingParametersRejected` | apps/oasis/index.ts:29-50 | the answer is 400 with the five parameter names exactly when some parameter is absent or empty, and it is then the same whatever the provider would answer (no lookup) |
| `Resolver.DatePart` | apps/oasis/index.ts:53 | the extracted date is a prefix of the parameter holding neither 'T' nor ' ', followed by the end of the text or one of those two characters (the longest such prefix) |
| `Resolver.DatePartOfDateTime` | apps/oasis/index.ts:25-53 | for `YYYY-MM-DDTHH:MM` and `YYYY-MM-DD HH:MM` the extracted date is the first ten characters |
| `Resolver.OnlyOneLookup` | apps/oasis/index.ts:59-68 | for a complete query the answer depends on the provider only through the one request for the departure code, extracted date, airline and flight number |
| `Resolver.ProviderErrorPropagated` | apps/oasis/index.ts:70-79 | a non-ok provider reply gives an error answer carrying the provider's status and status text when a response can carry that status, and the internal-error answer otherwise |
| `Resolver.ProviderErrorIff` | apps/oasis/index.ts:70-79 | the provider-error answer arises exactly from a complete query whose reply is non-ok with a status a response can carry; its status then lies in 300..599 |
| `Resolver.FirstMatch` | apps/oasis/index.ts:89-99 | the result is the index of a record whose instant is strictly within 300000 ms of the requested instant, and no earlier record is; with no result, no record is; an invalid date never matches |
| `Resolver.FiveMinuteBoundary` | apps/oasis/index.ts:94-98 | a record 300000 ms late is passed over and the next one, 299999 ms early, is selected |
| `Resolver.OutcomeCode` | apps/oasis/index.ts:85 | every outcome code lies in 0..4 and only the pending/not-found outcome has code 0 |
| `Resolver.OutcomeCodeInjective` | apps/oasis/index.ts:85 | distinct outcomes have distinct codes |
| `Resolver.Classify` | apps/oasis/index.ts:101-118 | cancelled status gives Cancelled whatever the delay; otherwise delay ≥ 120 gives Delay120Plus, 30 ≤ delay < 120 gives Delay30, delay < 30 gives OnTime (each an iff), a missing delay counts as 0; never Pending |
| `Resolver.NotFoundIff` | apps/oasis/index.ts:84-136 | the no-match answer (status 404, outcome 0) arises exactly when the query is complete, the reply ok and the body not an array, empty, or without a record in tolerance; it then echoes flightId, departureCode, the extracted date, the raw date-time, airlineCode and flightNumber |
| `Resolver.FirstMatchResolved` | apps/oasis/index.ts:87-146 | when the first record within tolerance of an ok array reply is at index k, the answer is 200 with that record and its classification |
| `Resolver.OkMeansMatched` | apps/oasis/index.ts:138-146 | every status-200 answer is a match reporting an outcome code in 1..4, the first matching record of an ok array reply and that record's classification |
| `Resolver.InternalErrorIff` | apps/oasis/index.ts:70-156 | the internal-error answer (status 500) arises exactly when the query is complete and the provider call throws, its ok body is not JSON, or its non-ok status is one a response cannot carry |
| `Text.PrefixBefore` | apps/oasis/index.ts:53 | `split(c)[0]` is a prefix without `c`, ending at the end of the text or at a `c` |
| `Text.ReplaceFirst` | apps/oasis/index.ts:56 | `replace` keeps the length, changes only the first occurrence of the pattern character, and leaves the text alone when it has none |
| `Text.TrimEmptyIff` | apps/web/src/app/bet/page.tsx:109 | trimming yields the empty text exactly when every character is white space |
| `Text.TrimIdempotent` | apps/web/src/app/bet/page.tsx:109 | a trimmed text has no white space at either end, and trimming it again changes nothing |
| `Text.ToUpperAt` | apps/web/src/app/bet/page.tsx:109 | `toUpperCase` maps the text character by character: each position holds the upper case of the input's character |
| `Text.ToLowerAt` | apps/web/src/app/markets/page.tsx:149-152 | `toLowerCase` maps the text character by character: each position holds the lower case of the input's character |
| `Text.ContainsIff` | apps/web/src/app/markets/page.tsx:149-152 | `includes` holds exactly when the needle occurs at some position of the text |
| `BetDesk.NormalizeIdempotent` | apps/web/src/app/bet/page.tsx:109 | the normalised flight number has no white space at its ends and no lower-case ASCII letter, and normalising it again changes nothing |
| `BetDesk.NormalizeEmptyIff` | apps/web/src/app/bet/page.tsx:146-150 | the normalised flight number is empty, so the submit is refused, exactly when the entry is all white space |
| `BetDesk.MarketIdInjective` | apps/web/src/app/bet/page.tsx:160-161 | with dates of equal length, equal ids `FLIGHT-DATE` mean equal flight numbers and equal dates |
| `BetDesk.FindById` | apps/web/src/app/bet/page.tsx:167 | the result is the first index holding the id, and there is one exactly when the id occurs in the list |
| `BetDesk.FindOrPrepend` | apps/web/src/app/bet/page.tsx:166-192 | an existing id leaves the list unchanged; otherwise the new market is at index 0, the old list follows unchanged and the length grows by one |
| `BetDesk.FindOrPrependKeepsIdsUnique` | apps/web/src/app/bet/page.tsx:166-191 | afterwards the ids are the old ids plus the requested one, and unique ids stay unique |
| `BetDesk.FindOrPrependIdempotent` | apps/web/src/app/bet/page.tsx:166-175 | a second request for the same id leaves the list as the first left it |
| `BetDesk.NewMarket` | apps/web/src/app/bet/page.tsx:177-187 | a new market has the requested id, the normalised flight number, the form's date and the selected outcome type; its route is the form's route, or "Route pending" for an empty one; price and probability come from the quote; liquidity is 12000 plus the draw, so in 12000..18000; coverage demand is the coverage plus 5000, so at least 5000 for non-negative coverage |
| `BetDesk.SortByProbability` | apps/web/src/app/bet/page.tsx:126-130 | the sorted view is a permutation of the markets with implied probability non-increasing |
| `BetDesk.ClampCoverage` | apps/web/src/app/bet/page.tsx:289-295 | the coverage stored is never negative: a non-numeric entry gives 0, a negative one 0, a non-negative one itself |
| `BetDesk.BetPage.constructor` | apps/web/src/app/bet/page.tsx:90-99 | the page starts with the seed markets (unique ids), outcome DELAY, the empty form with coverage 250 and no status message |
| `BetDesk.BetPage.SortedMarkets` | apps/web/src/app/bet/page.tsx:126-130 | the table's order is a sorted permutation of the page's markets, computed without changing the state |
| `BetDesk.BetPage.SetFlightNumber` | apps/web/src/app/bet/page.tsx:232-236 | typing stores the upper-cased entry and changes nothing else |
| `BetDesk.BetPage.SetDepartureDate` | apps/web/src/app/bet/page.tsx:251-256 | the date field stores the entry and changes nothing else |
| `BetDesk.BetPage.SetRoute` | apps/web/src/app/bet/page.tsx:267-272 | the route field stores the entry and changes nothing else |
| `BetDesk.BetPage.SetCoverage` | apps/web/src/app/bet/page.tsx:289-296 | the coverage field stores the clamped number, keeps the page invariant and changes nothing else |
| `BetDesk.BetPage.SetOutcomeType` | apps/web/src/app/bet/page.tsx:306-310 | the selector stores the outcome type and changes nothing else |
| `BetDesk.BetPage.RouteRequest` | apps/web/src/app/bet/page.tsx:160-195 | for a valid form: an existing id leaves the list unchanged with the "routed" message; otherwise the new market (normalised flight number, route or "Route pending", coverage + 5000) is prepended with the "created" message; ids stay unique |
| `BetDesk.BetPage.Submit` | apps/web/src/app/bet/page.tsx:143-196 | an empty normalised flight number, or an empty date, leaves the markets unchanged with its info message; otherwise the list is find-or-prepended under id `FLIGHT-DATE` with a success message; form and selector are untouched and ids stay unique |
| `MarketsBoard.OutcomeLabel` | apps/web/src/app/markets/page.tsx:30-35 | every one of the four outcome types has a non-empty label |
| `MarketsBoard.OutcomeLabelInjective` | apps/web/src/app/markets/page.tsx:30-35 | different outcome types have different labels |
| `MarketsBoard.FilterButtonsMatchLabels` | apps/web/src/app/markets/page.tsx:131-137 | each outcome type has exactly one filter button, captioned with its label |
| `MarketsBoard.FilterMarkets` | apps/web/src/app/markets/page.tsx:145-156 | the result is an order-preserving subsequence of the list, every element satisfies both predicates, and every market satisfying both occurs as often as in the list while no other occurs |
| `MarketsBoard.FilterKeepsEveryMatch` | apps/web/src/app/markets/page.tsx:146-155 | every market satisfying both predicates is in the result |
| `MarketsBoard.ShowAllShowsEverything` | apps/web/src/app/markets/page.tsx:147-152 | with every outcome and an empty search the whole list is returned |
| `MarketsBoard.SelectedOutcomeOnly` | apps/web/src/app/markets/page.tsx:147-148 | with one outcome selected, every pool shown has that outcome type |
| `MarketsBoard.ReduceIsSum` | apps/web/src/app/markets/page.tsx:159-166 | the left-fold `reduce` with initial value `acc` equals `acc` plus the sum of the sequence |
| `MarketsBoard.Aggregate` | apps/web/src/app/markets/page.tsx:158-179 | poolsActive is the number of pools shown, and an empty list gives an average of 0 (the denominator is never 0) |
| `MarketsBoard.AggregatesAreSums` | apps/web/src/app/markets/page.tsx:158-171 | total liquidity and total coverage are the sums of those fields over the pools shown, and the average times the count is the sum of probabilities |
| `MarketsBoard.AverageWithinBounds` | apps/web/src/app/markets/page.tsx:167-171 | when every pool's probability lies in lo..hi, so does the average of a non-empty list |

## Left out

- The HTTP server is not modelled: `Bun.serve`, the CORS headers, the OPTIONS preflight, `/health` and the catch-all 404. They hold no decision logic.
- The network call to the flight-history provider, with its URL and key, is not modelled. Its reply is the result of the `fetch` parameter: no answer at all, or a status, status text and body.
- JavaScript `Date` parsing and time zones are not modelled. Instants are integer milliseconds produced by the `parse` parameter. The model keeps two things explicit: the invalid date (NaN) that never matches, and the `replace(" ", "T")` / `replace("t", "T")` normalisation.
- Provider records are reduced to the three fields the resolver reads: `departure.scheduledTime`, `departure.delay` (absent, null and 0 all read as 0) and `status`. Every array element is modelled as a record. A `null` element before the first match makes `flight.departure` throw, which gives 500; this is not modelled. A number, string, boolean or array element has no `departure`, so it reads as an empty time and never matches, as a record without `scheduledTime` does in the model. A `scheduledTime` that is present but not a string (a number or an object) makes `.replace` throw, which gives 500; this is not modelled either, because the record holds the time as an optional string. A non-numeric delay text is not modelled either.
- The resolver's date extraction splits only on upper-case 'T'. A lower-case `...t07:05` parameter therefore sends the whole text as the provider's day. The model reproduces this behaviour; it proves no property about it.
- Text.ToUpper: ASCII letters only. Unicode case mappings, including those that change a string's length, are not modelled.
- Text.ToLower: ASCII letters only, for the same reason.
- The premium quote is not modelled, because it is floating-point arithmetic with `toFixed` rounding. It enters `Submit` as a `Quote` value.
- `Math.random` in a new market's liquidity enters `Submit` as a parameter `draw` in 0..6000.
- BetDesk.BetPage.Submit assumes React runs the `setMarkets` updater at once. Only then are the message and tone it sets already set when the status line is written. A deferred updater would leave an empty message; that timing is not modelled.
- BetDesk.SortByProbability: the model's insertion sort is stable, as `Array.prototype.sort` is, but the contract does not state stability. Implied probabilities are integers, as the page's rounding produces them.
- BetDesk.ClampCoverage: `Number()` of the entry is an `Option<real>`, with `None` for NaN. Infinity is not modelled.
- Currency and percent formatting (`Intl.NumberFormat`) are not modelled; the aggregates are exact integers and an exact real average.
- The wallet, contract dialogs, navigation and layout are not modelled. Neither are the address constants. None of them holds logic of its own, since pricing, shares and settlement belong to the external contract.
- All JSX rendering and styling are not modelled.
