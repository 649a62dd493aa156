# Options tracker server core, modelled in Dafny

The server keeps one option-chain snapshot per index symbol (NIFTY, BANKNIFTY,
FINNIFTY, MIDCPNIFTY and SENSEX) and serves it from `GET /api/options/chain`.
A snapshot has:

- the spot price;
- the day's anchor (opening) price;
- two strikes, one above and one below the reference price (the anchor when
  there is one, else the spot) by a per-symbol offset, each rounded up to a
  multiple of 100;
- for each of up to two expiries, the CE quote at the upper strike and the PE
  quote at the lower one.

An NSE builder produces the NSE symbols' snapshots and a BSE builder produces
SENSEX's. Each builder keeps an in-memory, per-day memo of the anchor price.
The route keeps a per-symbol cache with a five-minute lifetime. It refetches a
stale or force-refreshed entry, serves the old entry flagged stale when a
fetch fails, and answers 503 when there is no entry to fall back on. A
background sweep refreshes every symbol in turn and is guarded against
reentry.

The model, module by module:

- `Common` — optional values for `undefined`/`null`, results for thrown
  errors, and JavaScript truthiness, `||`, `toUpperCase`, `filter` and `find`.
- `Calendar` — day numbers (day 0 is 1970-01-01, weekday 0 is Sunday as in
  `getDay`) on the proleptic Gregorian calendar, with the conversion to
  calendar dates and back. It also holds the reference definitions of the
  expiry searches: the next N days on a weekday, the last weekday of a month,
  and the monthly expiries.
- `Decimal` and `DateFormat` — `String(n)`, the part of `parseFloat` the
  exchanges' strings use, and the `DD<sep>Mon<sep>YYYY` labels together with
  a parser that inverts them.
- `Snapshot` — the snapshot shapes and the ceiling-to-100 strike rule.
- `Anchor` — the anchor memo, as a pure lookup function and as the class
  `AnchorCache` whose `Get` updates the memo in place.
- `Nse` — `server/utils/nseOptionsFetcher.js`: the configuration table, the
  expiry loops (as methods proved against the `Calendar` definitions), the
  payload normalisation, the row filter and the builder.
- `Bse` — `server/utils/bseOptionsFetcher.js`: the Friday loop, the number
  parser, the `C_`-prefix field mapping, the candidate loop and the builder.
- `OptionsRoutes` — `server/routes/optionsRoutes.js`: the `/chain` handler and
  the sweep. Each is a pure state-machine function (`ChainSpec`, `SweepSpec`)
  with the properties proved about it. The class `OptionsService` holds the
  module-level state (`cacheMap`, the cache file, `prefetchRunning`, both
  memos), and its methods are proved to change that state exactly as the
  functions say.

The network, the clock and the file system are parameters:

- the NSE library, the quote service and the BSE endpoints are oracle
  functions or responses;
- `Date.now()` is an instant `now` in epoch milliseconds;
- the cache file is a value of `StoredFile`.

Field names follow the source. The exception is that a snapshot's `label` is
called `displayLabel`, because `label` is a Dafny keyword.

Notes on the code as written, which the model follows:

- The NSE builder never calls its own expiry-date helpers (`getUpcomingWeekdays`,
  `getLastWeekdayOfMonth`, `getUpcomingMonthlyExpiries`). The expiries come from
  the payload's `expiryDates`. The helpers are still modelled and proved.
- The configuration table sets no `monthly` flag, so the NSE `expiryDay` text
  is "Monday" for day 1, "Tuesday" for day 2 and "Thursday" otherwise. That
  includes BANKNIFTY, configured with day 3 (a Wednesday).
- `fetchOptionChain` always yields exactly one intercepted payload, with a
  `null` expiry. So the fallback to the intercepted expiries always gives an
  empty list, and every expiry's rows come from filtering that one payload.
  The model states this case directly.
- When the payload offers target expiries but has no `data` array, the filter
  throws. This happens after the anchor lookup, so the memo may already have
  changed. The NSE spot lookup throws when the first row has no PE leg; this
  happens before the anchor lookup.

## Model

| member | source | states |
|---|---|---|
| Common.Or | server/utils/nseOptionsFetcher.js:153 | `x \|\| y` on numbers: `x` when it is present and non-zero, else `y` |
| Common.OrOrZero | server/utils/nseOptionsFetcher.js:72 | `x \|\| y \|\| 0`: a non-zero result is the first non-zero operand; zero exactly when neither operand is non-zero |
| Common.ToUpper | server/routes/optionsRoutes.js:65 | upper-casing keeps the length and maps each character through ASCII upper-casing |
| Common.ToUpperIdempotent | server/utils/nseOptionsFetcher.js:143 | upper-casing an upper-cased symbol changes nothing, so the builder's second `toUpperCase` is harmless |
| Common.Filter | server/utils/nseOptionsFetcher.js:172-181 | the result only holds elements of the input that satisfy the predicate, holds every such element, and is no longer than the input |
| Common.FilterAppend | server/utils/nseOptionsFetcher.js:172-181 | filtering a concatenation is the concatenation of the filtered parts, so the kept elements stay in input order |
| Common.FindFirst | server/utils/nseOptionsFetcher.js:187-188 | `find` gives nothing exactly when no element matches; otherwise an element that matches with no matching element before it |
| Calendar.DayOf | server/utils/nseOptionsFetcher.js:118 | the day containing an instant: `d*86400000 <= ms < (d+1)*86400000` |
| Calendar.ToCivil | server/utils/nseOptionsFetcher.js:62-63 | every day number has a valid calendar date that maps back to it |
| Calendar.ToCivilDayNumber | server/utils/nseOptionsFetcher.js:62-63 | converting a valid calendar date to a day number and back gives the same date |
| Calendar.FirstOnOrAfter | server/utils/nseOptionsFetcher.js:22-27 | the first day on or after today on the weekday: within a week, on the weekday, and no earlier day from today is |
| Calendar.NextWeekdaysProperties | server/utils/nseOptionsFetcher.js:18-29 | the N days: exactly N, each on or after today and on the weekday, strictly ascending, 7 days apart, today first when it matches, and no matching day in the range is skipped |
| Calendar.LastOnOrBefore | server/utils/nseOptionsFetcher.js:36-38 | the step-back target: fewer than 7 days back and on the weekday |
| Calendar.LastOnOrBeforeIsLatest | server/utils/nseOptionsFetcher.js:36-38 | no later day, up to the day the step-back starts from, is on the weekday |
| Calendar.LastWeekdayOfMonthProperties | server/utils/nseOptionsFetcher.js:34-40 | the result is in the given month and year, on the weekday, at most 6 days before the month's end, and no later day of the month is on the weekday |
| Calendar.FirstExpiryMonth | server/utils/nseOptionsFetcher.js:46-53 | monthly expiries start in the current month exactly when its last weekday has not passed, otherwise in the next month |
| Calendar.ExpiryMonthNotPast | server/utils/nseOptionsFetcher.js:49-56 | every month from the first expiry month on has its last weekday on or after today |
| Calendar.MonthsAfterShift | server/utils/nseOptionsFetcher.js:55-56 | counting months from the next month is counting one month further, across December too |
| Calendar.ExpiryAtFacts | server/utils/nseOptionsFetcher.js:46-56 | the i-th expiry is in the i-th month after the first expiry month, not before today, on the weekday and its month's last such day |
| Calendar.ExpiryAtOrder | server/utils/nseOptionsFetcher.js:46-56 | a later expiry index is a later day |
| Calendar.ExpiryAtNextMonth | server/utils/nseOptionsFetcher.js:55-56 | successive expiries are in successive months, December followed by January of the next year |
| Calendar.MonthlyExpiriesAt | server/utils/nseOptionsFetcher.js:42-58 | element i of the list is the i-th expiry, whatever the count asked for |
| Calendar.MonthlyExpiriesSnoc | server/utils/nseOptionsFetcher.js:50-53 | asking for one more expiry appends the next one and keeps the rest |
| Calendar.MonthlyExpiriesDays | server/utils/nseOptionsFetcher.js:42-58 | N dates, each on or after today, on the weekday and the last such day of its own month |
| Calendar.MonthlyExpiriesAscending | server/utils/nseOptionsFetcher.js:42-58 | the dates are strictly ascending |
| Calendar.MonthlyExpiriesNextMonth | server/utils/nseOptionsFetcher.js:55-56 | date i is in the month after date i-1's |
| Calendar.MonthlyExpiriesConsecutive | server/utils/nseOptionsFetcher.js:42-58 | the dates are in consecutive months, December followed by January of the next year |
| Calendar.MonthlyExpiriesStart | server/utils/nseOptionsFetcher.js:46-53 | the first date is in the current month exactly when the current month's last weekday has not passed, otherwise in the next month |
| Decimal.NatToStringValue | server/utils/nseOptionsFetcher.js:62-63 | the decimal digits of a number read back as that number |
| Decimal.ParseIntToString | server/utils/nseOptionsFetcher.js:63 | reading `String(year)` back gives the year |
| Decimal.ParseFloatInteger | server/utils/bseOptionsFetcher.js:30 | `parseFloat` reads a digit string followed by non-numeric text as the digits' value |
| Decimal.ParseFloatFraction | server/utils/bseOptionsFetcher.js:30 | `parseFloat` reads `ip.frac` followed by non-numeric text as its decimal value |
| Decimal.ParseFloatMinus | server/utils/bseOptionsFetcher.js:30 | `parseFloat` of `-` then text is the negation of that text's number, and no number when the text has none |
| DateFormat.Pad2 | server/utils/nseOptionsFetcher.js:62 | `padStart(2, '0')` below 100: two digits whose value is the number |
| DateFormat.MonthNumber | server/utils/nseOptionsFetcher.js:61 | a recognised month name is at its index in the 12-name table |
| DateFormat.ParseFormatDate | server/utils/nseOptionsFetcher.js:60-64 | a label parses back to its day's calendar date (day, month, full year) |
| DateFormat.FormatDateInjective | server/utils/nseOptionsFetcher.js:60-64 | distinct days get distinct labels |
| DateFormat.FormatDateShape | server/utils/bseOptionsFetcher.js:22-26 | a label is two zero-padded day digits, the separator, the month's table name, the separator, then the year |
| Snapshot.CeilToHundred | server/utils/nseOptionsFetcher.js:155-156 | `Math.ceil(x/100)*100` is a multiple of 100 in `[x, x+100)` |
| Snapshot.CeilToHundredUnique | server/utils/nseOptionsFetcher.js:155-156 | it is the only such multiple, so the rule is stated independently of the computation |
| Snapshot.CeilToHundredShift | server/utils/nseOptionsFetcher.js:155-156 | shifting the price by 100k shifts the strike by 100k |
| Snapshot.StrikesForProperties | server/utils/nseOptionsFetcher.js:155-156 | both strikes are multiples of 100, each rounds its side up, and with an offset that is a multiple of 100 the CE strike is exactly twice the offset above the PE strike |
| Snapshot.StrikesForExamples | server/utils/bseOptionsFetcher.js:126-127 | 24567 with offset 1000 gives 25600/23600; 24000 gives 25000/23000 |
| Snapshot.ReferencePrice | server/utils/nseOptionsFetcher.js:153 | the anchor when it is non-zero, else the spot |
| Anchor.AnchorLookup | server/utils/nseOptionsFetcher.js:115-140 | the quote service is asked exactly on a miss, and the memo gains at most the symbol's key |
| Anchor.AnchorHit | server/utils/nseOptionsFetcher.js:121-123 | a same-day entry is returned as stored, with no query and no change |
| Anchor.AnchorMissStores | server/utils/nseOptionsFetcher.js:128-132 | a miss with a non-zero open stores (today, open) under the symbol and returns the open |
| Anchor.AnchorMissFails | server/utils/nseOptionsFetcher.js:133-139 | a miss whose request fails or whose open is missing or zero returns `null` and leaves the memo unchanged |
| Anchor.AnchorLookupTruthy | server/utils/nseOptionsFetcher.js:129-132 | stored prices stay non-zero, so the returned anchor is `null` or non-zero |
| Anchor.AnchorLookupFrame | server/utils/nseOptionsFetcher.js:131 | a lookup leaves other symbols' entries alone |
| Anchor.AnchorLookupSameDay | server/utils/nseOptionsFetcher.js:120-132 | after a lookup that found a price, a same-day lookup hits and returns that price, whatever the service would answer |
| Anchor.AnchorCache.Get | server/utils/bseOptionsFetcher.js:93-116 | the in-place memo returns and stores exactly what `AnchorLookup` says |
| Nse.Config | server/utils/nseOptionsFetcher.js:9-15 | a configuration exists exactly for the five table symbols |
| Nse.ConfigOrNifty | server/utils/nseOptionsFetcher.js:144 | an unknown symbol falls back to NIFTY's configuration |
| Nse.ConfigWellFormed | server/utils/nseOptionsFetcher.js:9-15 | every offset is positive and a multiple of 100, and every expiry day is Monday to Friday |
| Nse.ApiSymbol | server/utils/nseOptionsFetcher.js:87 | the API is asked for the configured API name when set, else the symbol |
| Nse.ExpiryDayLabel | server/utils/nseOptionsFetcher.js:206 | "Monday" exactly for day 1, "Tuesday" exactly for day 2, "Thursday" exactly otherwise |
| Nse.ExpiryDayLabels | server/utils/nseOptionsFetcher.js:206 | the label each configured symbol gets |
| Nse.GetUpcomingWeekdays | server/utils/nseOptionsFetcher.js:18-29 | the day-by-day loop returns exactly `NextWeekdays(today, w, n)` |
| Nse.GetLastWeekdayOfMonth | server/utils/nseOptionsFetcher.js:34-40 | the step-back loop returns exactly `LastWeekdayOfMonth(y, m, w)` |
| Nse.GetUpcomingMonthlyExpiries | server/utils/nseOptionsFetcher.js:42-58 | the month loop with its December wrap returns exactly `MonthlyExpiries(today, w, n)` |
| Nse.MonthlyScanStep | server/utils/nseOptionsFetcher.js:50-53 | a scanned month's date is kept exactly when not before today; a kept date is the next expiry; only the first month can be passed over |
| Nse.ScanMonthIsExpiry | server/utils/nseOptionsFetcher.js:50-53 | once in step, the scanned month's last weekday is the next expiry and is not before today |
| Nse.FirstMonthPassed | server/utils/nseOptionsFetcher.js:50-53 | when the expiries start next month, the current month's last weekday is before today |
| Nse.FormatNseDateProperties | server/utils/nseOptionsFetcher.js:60-64 | the NSE label is dash-separated, shows the month's table name and parses back to its day |
| Nse.ExtractOptionFields | server/utils/nseOptionsFetcher.js:66-67 | a missing leg gives `null`, and only a missing leg; the strike is the argument |
| Nse.ExtractOptionFieldsProperties | server/utils/nseOptionsFetcher.js:68-81 | pChange is `pchange \|\| pChange \|\| 0` and bid/ask/bidQty/askQty `first \|\| second \|\| 0` of their two spellings (as `OrOrZero` characterises it); ltp, change, oi, oiChange, volume, iv are passed through |
| Nse.FetchOptionChain | server/utils/nseOptionsFetcher.js:93-107 | a payload with records is kept with its expiry list (or `[]`); a thrown error or a payload without records becomes the prefixed error |
| Nse.GetTargetExpiries | server/utils/nseOptionsFetcher.js:110-113 | `[]` for a missing list, otherwise a prefix of the list of length min(2, len) |
| Nse.FilterRows | server/utils/nseOptionsFetcher.js:172-181 | the rows kept are rows of the payload that belong to the expiry (own date, string or array list, or a leg's date), and every such row is kept |
| Nse.FilterRowsStep | server/utils/nseOptionsFetcher.js:172-181 | the filter keeps a matching row in place and drops any other, so the result is the matching rows in payload order |
| Nse.FindRowByStrike | server/utils/nseOptionsFetcher.js:187-188 | nothing exactly when no row is at the strike; otherwise a row at the strike with none before it |
| Nse.FirstAtStrikeUnique | server/utils/nseOptionsFetcher.js:187-188 | only one row can be the first at a strike |
| Nse.CeQuoteFirst | server/utils/nseOptionsFetcher.js:187-193 | a CE quote exists exactly when the strike is a number and the first row at it has a CE leg, and it is that leg's |
| Nse.PeQuoteFirst | server/utils/nseOptionsFetcher.js:187-193 | a PE quote exists exactly when the strike is a number and the first row at it has a PE leg, and it is that leg's |
| Nse.NseSlot | server/utils/nseOptionsFetcher.js:164-195 | the slot is labelled with its own expiry |
| Nse.NseSlotQuotes | server/utils/nseOptionsFetcher.js:187-193 | a slot has a CE (PE) quote exactly when the strike is a number and the first row of that expiry at the strike has a CE (PE) leg; the quote is that leg's, at that strike |
| Nse.NseSpot | server/utils/nseOptionsFetcher.js:150 | the payload's non-zero underlying value when there is one; otherwise the first row's PE underlying value (possibly missing) when that leg exists, 0 when there are no rows, and a throw exactly when the first row has no PE leg |
| Nse.NseStrikes | server/utils/nseOptionsFetcher.js:155-156 | both strikes are `NaN` (missing) exactly when the reference price is missing |
| Nse.NseBuildSnapshot | server/utils/nseOptionsFetcher.js:142-209 | a snapshot names the upper-cased symbol, its label, offset and expiry-day text; it carries the spot and the anchor the lookup returned; its strikes are multiples of 100 twice the offset apart and round the reference up; it has one slot per target expiry, in order, at most two, each the `NseSlot` of that expiry at the two strikes |
| Nse.NseBuildMemo | server/utils/nseOptionsFetcher.js:145-152 | a failed fetch or spot lookup throws with the memo unchanged; otherwise the memo changes as one anchor lookup |
| Nse.GetOptionsTrackerData | server/utils/nseOptionsFetcher.js:142-209 | the builder method returns, and leaves in the memo, exactly what `NseBuild` says |
| Bse.GetUpcomingFridays | server/utils/bseOptionsFetcher.js:11-20 | the day-by-day loop returns exactly `NextWeekdays(today, 5, n)` |
| Bse.FormatBseDateProperties | server/utils/bseOptionsFetcher.js:22-26 | the BSE label is space-separated, shows the month's table name and parses back to its day |
| Bse.StripCommas | server/utils/bseOptionsFetcher.js:30 | the result has no commas and is no longer than the input |
| Bse.StripCommasAppend | server/utils/bseOptionsFetcher.js:30 | stripping distributes over concatenation |
| Bse.StripCommasIdentity | server/utils/bseOptionsFetcher.js:30 | text without commas is unchanged, so stripping is idempotent |
| Bse.ParseBseNumber | server/utils/bseOptionsFetcher.js:28-31 | missing, `""` and `-` give `null`; anything else is `parseFloat` of the comma-stripped text |
| Bse.ParseBseNumberIgnoresCommas | server/utils/bseOptionsFetcher.js:28-31 | a comma anywhere reads as if it were absent |
| Bse.ParseBseNumberExamples | server/utils/bseOptionsFetcher.js:28-31 | `"1,234.50"` gives 1234.5; `"-"`, `""` and a missing value give `null` |
| Bse.StripCommasExample | server/utils/bseOptionsFetcher.js:30 | `"1,234.50"` loses its comma and nothing else |
| Bse.ParseFloatExample | server/utils/bseOptionsFetcher.js:30 | `parseFloat("1234.50")` is 1234.5 |
| Bse.ParseFloatPlaceholders | server/utils/bseOptionsFetcher.js:28-30 | `parseFloat` of `""` and of `-` is `NaN` (missing) |
| Bse.ExtractBseOptionFields | server/utils/bseOptionsFetcher.js:33-49 | a missing row gives `null`, and only a missing row; the strike is the argument, pChange is 0 and iv is `null` |
| Bse.ExtractBseOptionFieldsProperties | server/utils/bseOptionsFetcher.js:33-49 | each of the nine quote fields is `parseBseNumber` of its own row field, `C_`-prefixed for CE and unprefixed for PE; pChange is 0 and iv `null` |
| Bse.ExtractBseExample | server/utils/bseOptionsFetcher.js:37-39 | a CE `C_Last_Trd_Price` of `"1,234.50"` gives ltp 1234.5 and pChange 0 |
| Bse.ExtractBseReadsOwnSide | server/utils/bseOptionsFetcher.js:37-47 | a side's quote depends only on that side's fields (`C_`-prefixed for CE, unprefixed for PE) |
| Bse.ExtractBseSidesMirror | server/utils/bseOptionsFetcher.js:37-47 | the CE quote of a row whose `C_` fields equal another row's plain fields is that row's PE quote |
| Bse.SideFieldsDisjoint | server/utils/bseOptionsFetcher.js:37-47 | a CE field name never equals an unprefixed PE field name |
| Bse.TableOf | server/utils/bseOptionsFetcher.js:81-84 | a table is taken exactly when the reply has a non-empty `Table` |
| Bse.SuccessesProperties | server/utils/bseOptionsFetcher.js:70-88 | the collected expiries are exactly the succeeding candidates in candidate order, each with the non-empty table its request gave |
| Bse.Take | server/utils/bseOptionsFetcher.js:71 | at most n leading elements: a prefix of length min(n, len) |
| Bse.CollectExpiries | server/utils/bseOptionsFetcher.js:67-90 | the loop collects the first two successes; it requests candidates in order, stops once two are collected, and skips failures |
| Bse.BseSpot | server/utils/bseOptionsFetcher.js:53-65 | the spot is the parsed LTP when it is non-zero; it is 0 exactly when the request fails or the LTP parses to nothing or zero |
| Bse.Candidates | server/utils/bseOptionsFetcher.js:67 | four candidate labels |
| Bse.SuccessFromCandidate | server/utils/bseOptionsFetcher.js:70-88 | each collected table is non-empty and belongs to one of the candidates |
| Bse.CollectedFromCandidates | server/utils/bseOptionsFetcher.js:70-88 | for any candidate list the kept tables are at most two, non-empty, and each belongs to a candidate |
| Bse.CandidateFriday | server/utils/bseOptionsFetcher.js:67 | each candidate label is a Friday from today on, within four weeks |
| Bse.CandidateIsFridayLabel | server/utils/bseOptionsFetcher.js:67 | any name in the candidate list is such a Friday's label |
| Bse.CollectedFridays | server/utils/bseOptionsFetcher.js:67-90 | the kept tables are at most two, non-empty, and labelled with Fridays from today within four weeks |
| Bse.FetchSensexChainExpiries | server/utils/bseOptionsFetcher.js:67-90 | at most two expiries, each with a non-empty table and labelled with a Friday from today within four weeks |
| Bse.FetchSensexOptionChain | server/utils/bseOptionsFetcher.js:51-91 | the fetch method returns exactly `FetchSensexChain` |
| Bse.BseSlot | server/utils/bseOptionsFetcher.js:129-138 | each side is read from the first row whose parsed `Strike_Price` equals that side's strike (no earlier row is at it), mapped for that side; absent exactly when no row is at the strike |
| Bse.SensexBuildOutcome | server/utils/bseOptionsFetcher.js:118-124 | the builder throws exactly when the spot is 0 or nothing was collected, leaving the memo alone; otherwise the memo changes as one SENSEX anchor lookup |
| Bse.SensexBuildSnapshot | server/utils/bseOptionsFetcher.js:118-152 | a SENSEX snapshot has a non-zero spot, the anchor the lookup returned, strikes that are multiples of 100 exactly 7000 apart and round the reference plus 3500 up, one or two slots in collection order, each the `BseSlot` of its table at the two strikes, and the Friday label |
| Bse.GetSensexOptionsTrackerData | server/utils/bseOptionsFetcher.js:118-152 | the builder method returns, and leaves in the memo, exactly what `SensexBuild` says |
| OptionsRoutes.LoadCacheMap | server/routes/optionsRoutes.js:11-20 | the stored map when there is one, else an empty map |
| OptionsRoutes.RequestSymbol | server/routes/optionsRoutes.js:65 | a missing or empty parameter means NIFTY; any other is upper-cased |
| OptionsRoutes.ValidSymbolsUpper | server/routes/optionsRoutes.js:33 | the served symbols are upper case, so an upper-cased request can match them |
| OptionsRoutes.FetchSpec | server/routes/optionsRoutes.js:84-89 | SENSEX uses only the BSE memo, every other symbol only the NSE memo |
| OptionsRoutes.ChainRejectsUnknown | server/routes/optionsRoutes.js:68-70 | an unknown symbol gets 400 with the supported list, with no read, fetch or change |
| OptionsRoutes.ChainServesFresh | server/routes/optionsRoutes.js:72-79 | an unforced entry younger than five minutes is served flagged cached, with nothing changed |
| OptionsRoutes.ChainStoresSuccess | server/routes/optionsRoutes.js:81-94 | a successful fetch replaces only the symbol's entry with (data, request time), saves, and replies flagged not cached |
| OptionsRoutes.ChainServesStale | server/routes/optionsRoutes.js:95-103 | a failed fetch with an entry serves it flagged cached and stale with the prefixed error; cache and file untouched |
| OptionsRoutes.ChainUnavailable | server/routes/optionsRoutes.js:104-105 | a failed fetch without an entry answers 503 with the prefixed error; cache and file untouched |
| OptionsRoutes.ChainForcedRefreshFetches | server/routes/optionsRoutes.js:73-76 | a forced refresh is never served as a fresh hit |
| OptionsRoutes.ChainSecondRequestHits | server/routes/optionsRoutes.js:72-94 | a snapshot stored at `now` is served unchanged by every unforced request before `now + 300000` |
| OptionsRoutes.ChainKeepsCacheConsistent | server/routes/optionsRoutes.js:91 | requests keep every cache key a served symbol holding that symbol's snapshot |
| OptionsRoutes.FetchSpecSymbol | server/routes/optionsRoutes.js:84-89 | a fetched snapshot is of the symbol fetched |
| OptionsRoutes.SweepGuarded | server/routes/optionsRoutes.js:38 | a sweep started while one runs changes nothing |
| OptionsRoutes.SweepOrder | server/routes/optionsRoutes.js:39-52 | the flag is raised, the five symbols are visited in `VALID_SYMBOLS` order, and the flag is lowered |
| OptionsRoutes.SweepLowersFlag | server/routes/optionsRoutes.js:52 | the flag is down after a sweep |
| OptionsRoutes.SweepOneEffect | server/routes/optionsRoutes.js:41-50 | a failed visit leaves cache and file alone; a successful one replaces only its symbol's entry |
| OptionsRoutes.SweepFromFrame | server/routes/optionsRoutes.js:40-51 | a sweep keeps every entry, touches no unvisited symbol, and every changed entry was stored by its own visit at that visit's time |
| OptionsRoutes.SweepOneKeepsCacheConsistent | server/routes/optionsRoutes.js:41-46 | one visit of a served symbol keeps every cache key holding its own symbol's snapshot |
| OptionsRoutes.SweepKeepsCacheConsistent | server/routes/optionsRoutes.js:37-53 | sweeps keep the cache consistent |
| OptionsRoutes.OptionsService.constructor | server/routes/optionsRoutes.js:31-34 | the cache is loaded from the file, the flag is down, the memos are empty and distinct |
| OptionsRoutes.OptionsService.Fetch | server/routes/optionsRoutes.js:84-89 | the dispatch method returns and updates the memos exactly as `FetchSpec` says |
| OptionsRoutes.OptionsService.Store | server/routes/optionsRoutes.js:91-92 | the symbol's entry is replaced and the file saved when writing succeeds |
| OptionsRoutes.OptionsService.Prefetch | server/routes/optionsRoutes.js:40-50 | one visit of the sweep changes the state exactly as `SweepOne` says |
| OptionsRoutes.OptionsService.Chain | server/routes/optionsRoutes.js:63-107 | the handler's reply and new state are exactly `ChainSpec` of the old state |
| OptionsRoutes.OptionsService.PrefetchAll | server/routes/optionsRoutes.js:37-53 | the sweep's new state is exactly `SweepSpec` of the old state |

## Left out

- Network, clock and file system: the NSE library, the quote service and the BSE endpoints are oracles, `Date.now()` is a parameter, and the cache file is a `StoredFile` value. Request headers, URLs and `encodeURIComponent` are not modelled.
- One instant per operation: a request uses one `now` for its cache timestamp, the builder's `new Date()` stamps and the anchor day. A sweep uses one instant per symbol, taken as `clock(symbol)`.
- Timezone: the server's local midnight is taken to be the UTC day boundary. So `setHours(0,0,0,0)`, `getDay()` and the `toISOString()` day all use `DayOf(now)`. A snapshot's `timestamp` is kept as epoch milliseconds, not as ISO text.
- Concurrency: the handler and the sweep are atomic steps, so their interleaving at `await` points is not modelled. In particular the handler's catch block re-reads a cache that a concurrent sweep might have changed.
- `setTimeout`/`setInterval` scheduling of the sweep, and all `console`/`log` output.
- Nse.NseSpot: a JSON `null` underlying value in the first row's PE leg is treated like a missing one, so the strikes are `NaN`. In the source, `null + offset` would instead give strikes computed from 0.
- Nse.NseBuild: the JSON `null` and the `undefined` cases of `records.data` give the same TypeError message here, the `undefined` one.
- Floating point: prices are exact reals and `NaN` is `None`. NaN behaves like `null` under `||`, `===` and `JSON.stringify`, so this changes no reply. `parseFloat` is modelled on `[+-]? digits ('.' digits)?` prefixes only: leading whitespace, exponents and `Infinity` are not covered.
- Common.ToUpper: upper-cases ASCII letters only; `toUpperCase` of non-ASCII characters is not modelled.
- JSON shapes outside the documented ones: a non-string BSE field, a non-array `expiryDates` or `Table`, a non-object row, and a request `symbol` parameter that is an array (whose `toUpperCase` would throw inside the catch block).
- OptionsRoutes.LoadCacheMap: the contents of a parsed file are taken as a cache map; JSON that parses to another shape is not modelled.
- The NSE `VALID_SYMBOLS` constant (unused) and the unused `getUpcomingTuesdays`/`getUpcomingThursdays` wrappers. The wrappers are `GetUpcomingWeekdays` with day 2 or 4.
- The standalone test block at the end of `nseOptionsFetcher.js`.
- Nse.GetUpcomingWeekdays, Nse.GetLastWeekdayOfMonth, Nse.GetUpcomingMonthlyExpiries: these require a weekday from 0 to 6. For any other value the source's `while` loops (`nseOptionsFetcher.js:18-58`) never end. No caller in the repository passes such a value: the wrappers pass 2 and 4, and the configured expiry days are 1 to 5.
