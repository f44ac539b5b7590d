# Rebalancing orders and the file handshake, in Dafny

This project models the order-generation core of a qlib-based daily
rebalancing system and the file handshake between its generator and an
iQuant trading venue.

- **Generator side.** It reads the venue's positions and live quotes, picks a
  top-k portfolio, turns target weights into orders and caps the buys to the
  cash budget. It keeps a holding-period ledger and talks to the venue
  through a shared state file.
- **Venue side.** The iQuant scripts answer the phases of the state file,
  export holdings and quotes, and place each order of the orders file at
  most once.
- **qlib side.** The live exchange's quote-first pricing, the live top-k
  strategy with its two-round small-account allocation, the weight-based
  order generators, and the backtest's trade calendar.

One Dafny module models each component:

- `Common`: Option and Outcome (a value or a raised exception), the Python
  float with NaN as `Option<real>`, and Python's `int()`, `round()` and
  lot flooring.
- `Text`: the ASCII string operations the parsers use.
- `Codes`: the stock-symbol normalisers of generator and venue, in the
  prefixed ("SH600000") and suffixed ("600000.SH") spellings, and how
  they convert into each other.
- `Sorting`: `sort_values(ascending=False)` as a stable insertion sort
  with NaN keys last, plus filtering and heads of lists.
- `LiveExchange`: quote-first deal prices (ask1/bid1, else last, bounded
  by the price limits, else the parent exchange).
- `Pricing`: the daily predictor's price waterfall, its live twin, and
  the quote-first batch price fetch.
- `Weights`: equal or score-proportional target weights.
- `Selection`: the greedy affordability selection, the dropout
  keep/replace rule and the unfiltered top-k sent out for quotes.
- `Orders`: the order table, the in-place budget capper on an array, the
  target share counts and the buy/sell views.
- `LiveOrders`: the live order path, which records the buys in the ledger
  before they are capped.
- `Ledger`: the holding-period ledger (a class whose `file` field is the
  JSON file): hold days, recording buys, cleanup.
- `Holdings`: loading current holdings, and repairing position prices.
- `LiveFiles`: the positions and quotes CSV readers.
- `StateFile`: the state file both sides read and write.
- `Handshake`: the generator's phase sequence and its wait loop.
- `VenueOrders`: the order helpers both venue scripts share: sign,
  100-share rounding, the order-API verdict and loading the orders CSV.
- `QlibVenue`: the handshake venue script (class `Session`) with its
  fired latch and done-id set.
- `LiziVenue`: the run-once batch venue script (class `Runner`).
- `ExportData`: the history-export script: stock-list parsing, the close
  value parser over a tagged payload type, the per-day cache, and the
  per-bar collection.
- `LiveStrategy`: `LiveTopkStrategy.generate_trade_decision`.
- `OrderGenerator`: the target-amount computation of both weight-based
  order generators.
- `BacktestUtils`: `TradeCalendarManager` and the infrastructure
  containers.

Script globals and objects whose fields change become classes with
`modifies` clauses:

- `Session`, `Runner`, `ExportSession`
- `HoldingsLedger`, `TradeCalendarManager`, `Infrastructure`

Everything outside the core becomes a function-valued parameter:

- the exchange, the position and the calendar library
- the order and export API calls
- the file system and Python's float parser

Time in the handshake is a sequence of observed polls of the state file.

## Model

| member | source | states |
|---|---|---|
| Common.LotSize | examples/daily_predict.py:809 | the trading lot is at least one share and equals `min_shares` whenever that is at least one |
| Common.Trunc | examples/daily_predict.py:1174 | Python's `int()` on a float truncates toward zero: the floor for non-negative input, the integer in `[x, x + 1)` for negative input |
| Common.RoundHalfEven | examples/daily_predict.py:1176 | Python's `round()`: the nearest integer (strictly within one half off a tie), and the even neighbour on a tie |
| Common.PythonRoundingExamples | examples/daily_predict.py:1174-1176 | `int(-2.7) == -2`, `int(2.7) == 2`, `round(2.5) == 2`, `round(3.5) == 4`, `round(-0.5) == 0`, `round(2.6) == 3` |
| Common.LotFloorSpec | examples/daily_predict.py:1174 | `floor(x / lot) * lot` is a multiple of the lot, not above `x`, and less than one lot below it |
| LiveExchange.Usable | qlib/backtest/live_exchange.py:41 | the final filter returns NaN or a strictly positive price |
| LiveExchange.PriceFromQuotes | qlib/backtest/live_exchange.py:22-41 | the quote price is NaN or strictly positive; a buy with a usable up-limit is priced and never above it; a sell with a usable down-limit is priced and never below it |
| LiveExchange.AbsentIsNaN | qlib/backtest/live_exchange.py:24-41 | an instrument with no quote has a NaN quote price on either side |
| LiveExchange.BuyWaterfall | qlib/backtest/live_exchange.py:31-34 | buy priority: ask1 when usable, else last, each lowered to a usable up-limit; with neither usable the up-limit itself, else NaN |
| LiveExchange.SellWaterfall | qlib/backtest/live_exchange.py:36-39 | sell priority: bid1 when usable, else last, each raised to a usable down-limit; with neither usable the down-limit itself, else NaN |
| LiveExchange.GetDealPrice | qlib/backtest/live_exchange.py:43-53 | a usable quote price is returned as is; otherwise the parent exchange's result (value or exception) is returned; the side is buy exactly for direction BUY |
| LiveExchange.BuyWithUpLimitNeverDelegates | qlib/backtest/live_exchange.py:31-51 | a buy of a quoted instrument with a usable up-limit never falls back to the parent and is priced at most at the limit |
| Weights.ComputeWeights | examples/daily_predict.py:743-758 | one weight per score; score divided by the score sum under the "score" method with a positive sum; otherwise (equal, unknown method, non-positive sum) 1/n each; empty scores give no weights |
| Weights.WeightsSumToOne | examples/daily_predict.py:743-758 | non-empty weights add up to exactly one, under every method |
| Weights.EqualWeightsPositive | examples/daily_predict.py:747-757 | the equal-weight fallback hands out only positive weights |
| Pricing.FirstRowPrice | examples/daily_predict.py:1236-1238 | the price of the first table row of the instrument, and none exactly when the table has no row for it |
| Pricing.FirstValid | examples/daily_predict.py:1230-1244 | the reference waterfall: NaN or a usable price drawn from the candidates, and usable whenever some candidate is |
| Pricing.ResolvePrice | examples/daily_predict.py:1212-1244 | the resolved price is NaN or strictly positive, and is the deal price whenever that is usable (an exception reads as NaN) |
| Pricing.ResolvePriceIsFirstValid | examples/daily_predict.py:1220-1244 | the resolver picks the first usable of deal price, close price and the first table row's price, in that order |
| Pricing.QuotePrice | examples/live_daily_predict.py:575-593 | the live predictor's quote price is NaN or strictly positive |
| Pricing.QuotePriceAgrees | examples/live_daily_predict.py:575-593 | the live predictor's quote price equals the live exchange's quote price for every quote table, code and side |
| Pricing.LiveResolvePrice | examples/live_daily_predict.py:614-621 | the live override picks the first usable of quote price on the order's side, deal price, close price and table price |
| Pricing.QuotedRowsUsable | examples/live_daily_predict.py:597-603 | every quote-priced row is a requested instrument with its usable buy-side quote price; every instrument left missing has no usable quote price |
| Pricing.QuotedUnquotedPartition | examples/live_daily_predict.py:597-603 | every requested instrument lands in exactly one of the priced rows and the missing list |
| Pricing.SplitByQuote | examples/live_daily_predict.py:597-603 | the loop builds exactly the quote-priced rows and the missing instruments, in request order |
| Pricing.FetchPrices | examples/live_daily_predict.py:595-612 | all quoted: the quoted rows; some missing: quoted rows followed by the fallback's rows, or the fallback itself when both are empty; nothing quoted and nothing missing: the parent's lookup |
| Pricing.Merge | examples/live_daily_predict.py:607-610 | the merged table starts with the quote-priced rows and holds every fallback row after them |
| Holdings.LoadCurrentHoldings | examples/daily_predict.py:45-77 | no source, or a source of blanks only, gives no holdings |
| Holdings.LoadFailures | examples/daily_predict.py:53-72 | an unreadable file, text that is not JSON and JSON that is not an object each raise; a JSON object goes to the conversion loop |
| Holdings.HoldingsOfSpec | examples/daily_predict.py:71-77 | the conversion loop succeeds exactly when every member converts to a float, and then holds one entry per member name with that member's amount |
| Holdings.FetchedPrice | examples/daily_predict.py:1068-1075 | a fetched price, when there is one, is strictly positive |
| Holdings.EnsurePositionPrices | examples/daily_predict.py:1034-1088 | the repaired position has exactly the codes of the original one |
| Holdings.ReferencePricePositive | examples/daily_predict.py:1058-1066 | a reference-table price, when there is one, is strictly positive |
| Holdings.RepairSpec | examples/daily_predict.py:1040-1088 | once some holding lacks a price: cash entries become plain amounts, priced holdings keep their record, and each unpriced holding gets the table price, else the fetched price, else 0 |
| Holdings.NothingMissingUnchanged | examples/daily_predict.py:1051-1056 | with no holding missing a price, the position is left exactly as it was |
| Holdings.RepairedAllPriced | examples/daily_predict.py:1077-1088 | after a repair every non-cash holding is a record carrying a price and every cash entry is a plain amount |
| Ledger.Restrict | examples/live_daily_predict.py:150-154 | the cleaned ledger has exactly the held symbols it already knew, each with its old entry |
| Ledger.HoldDays | examples/live_daily_predict.py:163-176 | holding days are given for exactly the held symbols |
| Ledger.BoughtTodayIsYoung | examples/live_daily_predict.py:165-169 | a symbol first bought today has held for zero days, below any positive threshold |
| Ledger.UnledgeredIsOld | examples/live_daily_predict.py:170-173 | a held symbol the ledger does not know always clears the threshold |
| Ledger.ApplyBuysEffect | examples/live_daily_predict.py:196-220 | recording buys adds exactly the positively bought symbols, keeps every existing buy date, and dates new symbols today |
| Ledger.NonPositiveOrdersIgnored | examples/live_daily_predict.py:207-209 | orders with no positive share count leave the ledger as it is |
| Ledger.HoldingsLedger.constructor | examples/live_daily_predict.py:115-120 | the ledger starts as the loaded file's contents |
| Ledger.HoldingsLedger.CalculateHoldDays | examples/live_daily_predict.py:130-194 | the file keeps only held symbols, the removed set is every ledger symbol no longer held, and the result is the holding days of every held symbol |
| Ledger.HoldingsLedger.UpdateAfterBuy | examples/live_daily_predict.py:196-222 | the saved file is the ledger with every positive buy recorded in order (first buy dated today, later buys refresh only the amount) |
| Ledger.HoldingsLedger.Cleanup | examples/live_daily_predict.py:225-241 | the file keeps only held symbols and the removed set is every ledger symbol no longer held |
| StateFile.WrittenStateReadsBack | examples/live_daily_predict.py:494-502 | a written state reads back with its phase, version and timestamp unless extra fields override them, plus every extra field, and no other key |
| StateFile.WrittenStateReached | examples/iquant_qlib.py:102-113 | a state written without overriding extras has reached its own phase and version and no other pair |
| StateFile.NothingReachedWithoutDocument | examples/live_daily_predict.py:484-491 | a missing or unreadable file, or a document without a phase, never reaches any phase |
| Handshake.WaitForPhase | examples/live_daily_predict.py:505-525 | the polling loop ends exactly as the reference wait over the observations does: ready, timed out, crashed on a non-dict, or still pending |
| Handshake.ReadyExactly | examples/live_daily_predict.py:505-521 | the wait returns after pass n exactly when pass n sees the expected phase and version and every earlier pass read a dict short of the pair before the timeout |
| Handshake.TimedOutExactly | examples/live_daily_predict.py:519-524 | the wait raises TimeoutError after pass n exactly when pass n reads a dict short of the pair past the timeout and every earlier pass kept waiting |
| Handshake.NeverReadyWithoutPair | examples/live_daily_predict.py:484-521 | observations that never show the expected pair (missing file, other phase, other version) never let the wait return |
| Handshake.SortStrings | examples/live_daily_predict.py:1401 | `sorted` of a set of strings: every member exactly once, strictly ascending in Python's string order |
| Handshake.Placeholders | examples/live_daily_predict.py:1404-1413 | one placeholder row per extra symbol, with NaN score and NaN weight |
| Handshake.BuildSymbolsRequest | examples/live_daily_predict.py:1394-1415 | the request is the candidate rows unchanged, followed by one NaN placeholder per held symbol no candidate names, ascending, and no other row |
| Handshake.RequestNamesHeldOnce | examples/live_daily_predict.py:1397-1415 | no symbol gets two placeholder rows |
| Handshake.ProperStep | examples/live_daily_predict.py:1251-1451 | a trace stays proper when an event that fits it is appended, and its written phases grow by the event's phase |
| Handshake.ProperPrefix | examples/live_daily_predict.py:1251-1451 | every prefix of a proper trace is proper |
| Handshake.ProperMeans | examples/live_daily_predict.py:1251-1451 | in a proper trace every state and every wait carries the run's version, and each symbols_ready (orders_ready) state directly follows its file, which directly follows a successful wait for positions_ready (quotes_ready) |
| Handshake.Announce | examples/live_daily_predict.py:494-502 | writing a state appends exactly that state under the run's version, keeps the trace proper and adds the phase to the written phases |
| Handshake.RequestPositions | examples/live_daily_predict.py:1238-1255 | the old state file is removed exactly when there was one; positions_needed is written under the run version, then positions_ready is awaited under it |
| Handshake.RequestQuotes | examples/live_daily_predict.py:1394-1428 | the symbols request is written, then symbols_ready, then quotes_ready is awaited, all under the run version, after what came before |
| Handshake.SubmitOrders | examples/live_daily_predict.py:1441-1451 | the orders file is written, then orders_ready naming it, completing the phase sequence |
| Handshake.FinishOrders | examples/live_daily_predict.py:1430-1451 | a quotes read failure aborts with nothing more written; otherwise the orders rendered from those quotes are written, then orders_ready, and the run finishes |
| Handshake.AfterPositions | examples/live_daily_predict.py:1259-1457 | after positions_ready: a positions read failure, a bare positions result, or a quotes wait that times out (TimeoutError) or reads a non-dict (AttributeError), aborts; a finished run has written all three phases, with the symbols request for the holdings and the orders from the holdings, the cash and the quotes |
| Handshake.RunHandshake | examples/live_daily_predict.py:1229-1457 | `main`'s handshake: every state and wait carries one version, the written phases are always a prefix of positions_needed, symbols_ready, orders_ready, the run finishes exactly when all three were written, and a finished run wrote the symbols request and the orders file from what the venue exported |
| Codes.NormalizePosCode | examples/live_daily_predict.py:394-416 | the positions normaliser never fails; a missing cell or a blank code gives "" |
| Codes.PosCodeBare | examples/live_daily_predict.py:410-415 | a six-digit code gets "SH" for a leading 6, 5 or 9, "SZ" for a leading 0 or 3, and is otherwise unchanged |
| Codes.PosCodeShort | examples/live_daily_predict.py:405-414 | a numeric code shorter than six digits is zero-padded to six and lands on Shenzhen |
| Codes.PosCodeDecimal | examples/live_daily_predict.py:400-404 | "digits.0", "digits.digits" and "digits." normalise exactly as their integer part does |
| Codes.PosCodeSteps | examples/live_daily_predict.py:397-416 | on a non-blank stripped upper-case code the normaliser is its four steps in order: drop ".0", collapse a numeric decimal, pad, qualify |
| Codes.QualifyBare | examples/live_daily_predict.py:411-416 | the qualifying step on a six-digit code picks the market by the leading digit |
| Codes.PosCodeCashDotZero | examples/live_daily_predict.py:397-426 | "cash.0" is not "CASH" after strip and upper-case, so it is not the cash row, yet it normalises to "CASH" and becomes a holding |
| Codes.PosCodeSuffixKept | examples/live_daily_predict.py:407-408 | a canonical code qualified by a ".SH"/".SZ" suffix is returned unchanged |
| Codes.PosCodePrefixKept | examples/live_daily_predict.py:409-410 | a canonical code qualified by an "SH"/"SZ" prefix (and not ending ".0") is returned unchanged |
| Codes.NormalizeQuoteCode | examples/live_daily_predict.py:452-466 | the quotes normaliser never fails; a missing cell or a blank code gives "" |
| Codes.QuoteSuffixToPrefix | examples/live_daily_predict.py:458-461 | "######.SH" and "######.SZ" become "SH######" and "SZ######" |
| Codes.QuoteNoDotKept | examples/live_daily_predict.py:462-466 | a canonical code without a dot (prefixed, bare or anything else) is returned unchanged |
| Codes.QuoteCanonNoDot | examples/live_daily_predict.py:455-466 | a code whose stripped upper-case form is non-empty and has no dot normalises to that form |
| Codes.QuotePrefixedKept | examples/live_daily_predict.py:462-465 | prefixed codes and bare six-digit codes are fixed points |
| Codes.QuoteViaCanon | examples/live_daily_predict.py:455 | the quotes normaliser depends only on the stripped upper-case form of its input |
| Codes.QuoteCanonFixed | examples/live_daily_predict.py:452-466 | on a stripped upper-case code the quotes normaliser reaches a fixed point in one step |
| Codes.QuoteIdempotent | examples/live_daily_predict.py:452-466 | normalising an already normalised quote code changes nothing |
| Codes.NormalizeVenueCode | examples/iquant_qlib.py:37-49 | the venue normaliser never fails and maps NaN to "" |
| Codes.VenuePrefixToSuffix | examples/iquant_lizi.py:30-33 | "SH######" and "SZ######" become "######.SH" and "######.SZ" |
| Codes.VenueSuffixKept | examples/iquant_lizi.py:28-36 | suffixed codes and bare six-digit codes are returned unchanged |
| Codes.VenueThenQuoteRoundTrip | examples/iquant_qlib.py:40-45 | the quotes normaliser after the venue normaliser gives back the prefixed code |
| Codes.QuoteThenVenueRoundTrip | examples/live_daily_predict.py:458-461 | the venue normaliser after the quotes normaliser gives back the suffixed code |
| Codes.VenuePositionsStaySuffixed | examples/live_daily_predict.py:407-408 | a venue-suffixed code stays suffixed through the positions normaliser but becomes prefixed through the quotes normaliser, and the two spellings differ |
| Text.Canon | examples/live_daily_predict.py:397 | `str(code).strip().upper()`: the result has no surrounding whitespace and is its own upper-case form |
| Text.ZFill | examples/live_daily_predict.py:405-406 | `zfill(width)`: the string left-padded with '0' to the width, ending with the original |
| Text.ZFillDigits | examples/live_daily_predict.py:405-406 | zero-padding a digit string leaves a digit string |
| LiveFiles.CollectSucceeds | examples/live_daily_predict.py:420-434 | a row-by-row load fails exactly when some row fails to convert |
| LiveFiles.CollectLastWins | examples/live_daily_predict.py:420-434 | a successful load holds exactly the keys the rows put, each with the value of the last row that put it |
| LiveFiles.CollectStep | examples/live_daily_predict.py:420-434 | one more row of a load: a keyed row sets its key, a skipped row changes nothing |
| LiveFiles.ReadPositions | examples/live_daily_predict.py:380-437 | the reading loop returns exactly the positions result: the bare empty dict for no path, FileNotFoundError, a missing-column ValueError, a conversion error, or the holdings and the cash of the rows |
| LiveFiles.ScanDone | examples/live_daily_predict.py:420-437 | at the end of the loop the holdings and the cash are those of the whole file |
| LiveFiles.ParsePositionsSpec | examples/live_daily_predict.py:387-434 | with the columns present, reading fails exactly when an amount does not convert; on success every holding key is non-empty and carries the amount of its last row |
| LiveFiles.HoldingRowsAreNotCash | examples/live_daily_predict.py:423-434 | a holding is put only by a row whose stripped upper-case code is not "CASH", under its normalised code, with its converted amount |
| LiveFiles.ParseCashSpec | examples/live_daily_predict.py:423-428 | the cash is that of the last CASH row, and there is none exactly when no row is a CASH row |
| LiveFiles.CashEntryPut | examples/live_daily_predict.py:425-427 | only a CASH row sets the cash, to its converted amount |
| LiveFiles.CashLoadSucceeds | examples/live_daily_predict.py:420-434 | when the holdings load succeeds, so does the cash load |
| LiveFiles.CashRowPuts | examples/live_daily_predict.py:425-427 | a CASH row in a successful read always yields a cash amount |
| LiveFiles.CashDotZeroIsHolding | examples/live_daily_predict.py:423-434 | a row whose code is "cash.0" is not the cash row but is read as a holding of "CASH" |
| LiveFiles.HoldingEntryAt | examples/live_daily_predict.py:420-434 | the i-th holdings entry is the entry of the i-th row |
| LiveFiles.CashEntryAt | examples/live_daily_predict.py:420-428 | the i-th cash entry is the entry of the i-th row |
| LiveFiles.QuoteEntryAt | examples/live_daily_predict.py:468-478 | the i-th quote entry is the entry of the i-th row |
| LiveFiles.ReadQuotes | examples/live_daily_predict.py:440-481 | the reading loop returns exactly the quotes result: {} for no path, FileNotFoundError, a missing code or last column, a conversion error, or the rows' quotes |
| LiveFiles.ParseQuotesSpec | examples/live_daily_predict.py:468-478 | a successful read holds one quote per non-empty normalised code, from the code's last row, with NaN for every optional column the file lacks |
| LiveFiles.NaNCodeKeptAsNAN | examples/live_daily_predict.py:468-471 | a row with a NaN code is not dropped: it is stored under the key "NAN" |
| VenueOrders.SignByAction | examples/iquant_qlib.py:116-120 | the magnitude of the quantity is kept; it is negative exactly for a non-zero sale ("SELL" in any case, or the character for sell) and positive exactly for a non-zero other action |
| VenueOrders.Lots | examples/iquant_qlib.py:127-130 | the magnitude floored to whole lots of 100: a multiple of 100, at most the magnitude and less than 100 below it |
| VenueOrders.RoundShares | examples/iquant_qlib.py:123-132 | 0 stays 0, the sign is kept, the magnitude never grows; a side whose flag is off is unchanged, a side whose flag is on is floored to a multiple of 100 |
| VenueOrders.FinalQuantity | examples/iquant_qlib.py:186-188 | the quantity a row is placed with never exceeds its share count in magnitude and is negative only for a sale, positive only for a purchase |
| VenueOrders.ShippedQuantities | examples/iquant_lizi.py:77-93 | with the flags the scripts ship with, a sale keeps its full size and a purchase is floored to whole lots of 100 |
| VenueOrders.KeepOrders | examples/iquant_qlib.py:84 | the kept rows are exactly the rows with a code and a non-zero share count |
| VenueOrders.OrdersOf | examples/iquant_qlib.py:78-82 | every row of the file is converted, one order per row |
| VenueOrders.ParseOrders | examples/iquant_qlib.py:63-86 | loading succeeds exactly when the file exists and has the required columns; a missing file raises FileNotFoundError and a missing column ValueError; the result holds only rows with a code and non-zero shares, and every such row of the file |
| VenueOrders.LayoutsAgreeOnStockFiles | examples/iquant_lizi.py:57-62 | on a file with a "stock" column and no "code" column the two scripts load the same rows |
| VenueOrders.CodeColumnOnlyQlib | examples/iquant_qlib.py:72-77 | a file with a "code" column and no "stock" column loads in the handshake script and raises in the batch script |
| VenueOrders.FirstErrorCode | examples/iquant_qlib.py:138-142 | the first of the error-code attributes whose value is not None or 0, and none exactly when there is no such attribute |
| VenueOrders.OrderErrorOf | examples/iquant_lizi.py:96-113 | None, False, non-positive numbers and sequences with a non-positive first status are errors; True and positive numbers are not; an object is an error exactly when it carries an error code |
| VenueOrders.ExtractOrderError | examples/iquant_qlib.py:135-151 | the attribute loop followed by the type tests gives exactly the error the reference function assigns |
| VenueOrders.VerdictOf | examples/iquant_qlib.py:203-208 | a return of None or 0 counts as submitted; an exception fails unless its message is empty; a failure always carries a reason |
| VenueOrders.Submit | examples/iquant_qlib.py:203-213 | the verdict the placement loop draws from one call is the reference verdict |
| VenueOrders.FalseCountsAsSubmitted | examples/iquant_qlib.py:208 | `_extract_order_error` reports False as a failure, yet the placement loop counts a False return as submitted, because False equals 0 |
| QlibVenue.RowCall | examples/iquant_qlib.py:181-213 | one row sends at most one call, only for an id not yet done, and never for zero shares |
| QlibVenue.AttemptsFresh | examples/iquant_qlib.py:181-214 | no call is made for an id already done before the pass, every call carries the id of some row, and none is for zero shares |
| QlibVenue.AttemptsDistinct | examples/iquant_qlib.py:181-214 | within one pass each order id is sent at most once, even when the file repeats it |
| QlibVenue.DryRunSendsNothing | examples/iquant_qlib.py:197-200 | a dry run calls the order API for no row |
| QlibVenue.FirstOfIdSent | examples/iquant_qlib.py:181-213 | the first row of an id not yet done, with a non-zero final quantity, is sent with that quantity unless the run is dry |
| QlibVenue.AttemptsStep | examples/iquant_qlib.py:181-214 | one step of the pass: the row's call, then the rest with the row's id done |
| QlibVenue.QlibRowCall | examples/iquant_qlib.py:182-213 | under the script's rules a row sends its final quantity with the verdict on the call, unless its id is done, the quantity is zero or the run is dry |
| QlibVenue.Echo | examples/iquant_qlib.py:457-471 | replies carry the target version when one is set, else the version read, else "" |
| QlibVenue.ReplyAnswersGenerator | examples/iquant_qlib.py:455-471 | without a target version the venue's reply to a state the generator wrote reaches exactly the reply phase under the generator's version |
| QlibVenue.PinnedVersionStalls | examples/iquant_qlib.py:457-471 | with a target version different from the generator's, the reply is written under the target, so the generator never sees the pair it waits for |
| QlibVenue.Session.constructor | examples/iquant_qlib.py:432-440 | the script as loaded: no cached orders, no done ids, not fired, no error reported, nothing sent |
| QlibVenue.Session.LoadOrders | examples/iquant_qlib.py:63-86 | the cached frame when there is one; otherwise the file's rows, which a successful load caches and a failed load does not |
| QlibVenue.Session.Init | examples/iquant_qlib.py:432-440 | `init` stores the loaded frame on the context, or none when the load raised |
| QlibVenue.Session.PlaceOrders | examples/iquant_qlib.py:179-214 | the pass adds every row's id to the done set and makes exactly the reference pass's calls, in row order |
| QlibVenue.Session.Execute | examples/iquant_qlib.py:485-498 | a successful load places the rows, sets the fired latch and writes exec_done; a failed load sends nothing, leaves the latch, sets the error-reported flag and writes exec_failed with the error |
| QlibVenue.Session.Handlebar | examples/iquant_qlib.py:443-498 | a non-last bar, or a phase the venue does not handle, changes nothing; positions_needed and symbols_ready are answered with positions_ready and quotes_ready under the echoed version when the export succeeds; orders are placed only on orders_ready, with a matching target version and the latch not yet set, and only once; a non-dict state crashes with AttributeError |
| LiziVenue.RowPlacement | examples/iquant_lizi.py:143-168 | one row sends at most one call, never for zero shares |
| LiziVenue.PlacementsBounded | examples/iquant_lizi.py:142-168 | a pass makes at most one call per row, none for zero shares, and none at all on a dry run |
| LiziVenue.PlacementsStep | examples/iquant_lizi.py:142-168 | one step of the pass: the row's call, then the rest |
| LiziVenue.DistinctIdsPlaceAlike | examples/iquant_lizi.py:142-168 | on rows with distinct ids not yet done, the batch script makes exactly the calls the handshake script's de-duplicating pass makes |
| LiziVenue.RepeatedRowPlacedTwice | examples/iquant_lizi.py:142-168 | a row listed twice is placed twice by the batch script and once by the handshake script |
| LiziVenue.Runner.constructor | examples/iquant_lizi.py:173-178 | the script as loaded: no cache, no error reported, not run, nothing sent |
| LiziVenue.Runner.LoadDf | examples/iquant_lizi.py:45-74 | the cached frame when there is one; otherwise the file's rows, which a successful load caches |
| LiziVenue.Runner.Init | examples/iquant_lizi.py:173-184 | `init` clears the run flag and stores the loaded frame on the context, or none when the load raised |
| LiziVenue.Runner.PlaceOrdersByShares | examples/iquant_lizi.py:142-168 | the pass makes exactly the reference pass's calls, in row order, repeated ids included |
| LiziVenue.Runner.Handlebar | examples/iquant_lizi.py:187-227 | a non-last bar or a finished run changes nothing; otherwise a successful load places every row once and sets the run flag, and a failed load sets the error-reported flag and leaves the run pending |
| Orders.RoundToLotSpec | examples/daily_predict.py:1169-1178 | the share count of an order is a multiple of the lot: the largest not above the raw amount for a lot above 1, the nearest integer for a lot of 1 |
| Orders.OrdersToFrame | examples/daily_predict.py:1157-1210 | the rows are the order table built order by order, and the two totals are the buy and sell sums of those rows |
| Orders.FrameRowsGood | examples/daily_predict.py:1171-1203 | every table row holds at least one whole lot, carries the id `stock_BUY/SELL_date`, and has amount shares * price, or 0 with a NaN price |
| Orders.FrameRowsCount | examples/daily_predict.py:1171-1178 | an order yields a row exactly when its share count reaches one lot |
| Orders.FrameRowsPriced | examples/daily_predict.py:1179-1181 | every priced row has amount shares * price, whatever price the resolver gives |
| Orders.SideTotalsSplit | examples/daily_predict.py:1183-1187 | the buy total and the sell total together sum every row's amount |
| Orders.SideTotalNonnegative | examples/daily_predict.py:1166-1187 | on well-formed rows neither total is negative |
| Orders.ZeroBuys | examples/daily_predict.py:1122-1125 | the `budget <= 0` branch: every buy row zeroed, every other row unchanged, the length kept |
| Orders.ZeroBuyRows | examples/daily_predict.py:1122-1125 | the in-place zeroing of the buy rows leaves exactly ZeroBuys of the old table |
| Orders.CapOne | examples/daily_predict.py:1130-1152 | one iteration of the capping loop changes only row i, to the capped row, and returns the budget left |
| Orders.CapBuyOrdersToBudget | examples/daily_predict.py:1120-1155 | the array ends as the capped table and the result is its buy total |
| Orders.CapFromOutcome | examples/daily_predict.py:1130-1152 | the capping pass changes each row only as one loop iteration may: sells untouched, unpriced or sub-lot buys zeroed, other buys kept, zeroed or cut |
| Orders.CappedOutcome | examples/daily_predict.py:1120-1155 | the capped table keeps every sell row and never gives a buy more shares, nor a positive count that is not a whole number of lots |
| Orders.CappedWithinBudget | examples/daily_predict.py:1120-1155 | after capping, the buy total is within a positive budget, and 0 when the budget is not positive |
| Orders.SettleOrders | examples/daily_predict.py:999-1011 | the buys are capped only when their total exceeds a positive budget of cash * risk degree + sells, the capped total then stays within it, and the net amount is max(buys - sells, 0) |
| Orders.AddHoldingAmounts | examples/daily_predict.py:1107-1108 | the loop adds every held amount to its code's converted amount |
| Orders.RoundAmounts | examples/daily_predict.py:1110-1117 | the loop keeps exactly the codes whose amount rounds to a positive count, with that count |
| Orders.CalculateTargetShares | examples/daily_predict.py:1089-1118 | the result is the rounded target of every converted (or, on a raised conversion, weighted) or held code |
| Orders.TargetSharesSpec | examples/daily_predict.py:1096-1118 | a code has a target exactly when it is converted or held and its summed amount rounds to a positive count; every target is a positive whole number of lots |
| Orders.BuySellPartition | examples/daily_predict.py:195-202 | the buy view and the sell view split the order table: every row lands in exactly one, on its own side |
| Selection.Scores | examples/daily_predict.py:824 | the score list has one entry per row, the row's score |
| Selection.AffordableIsOneLot | examples/daily_predict.py:833-842 | the lot test passes exactly when the stock's weight of the available cash pays for one lot |
| Selection.CheckAffordable | examples/daily_predict.py:827-846 | the inner loop accepts exactly when every tentative stock affords one lot under its recomputed weight |
| Selection.GreedyBuyable | examples/daily_predict.py:810-848 | the greedy loop returns exactly the greedy picks over the sorted candidates |
| Selection.GreedyStep | examples/daily_predict.py:816-848 | one candidate of the greedy loop advances the picks by exactly one greedy step |
| Selection.GreedyFull | examples/daily_predict.py:814-815 | once `top_k` stocks are picked, later candidates change nothing, which is the loop's break |
| Selection.GreedyPicks | examples/daily_predict.py:813-848 | the picks number at most `top_k`, come from the candidates, are tradable and validly priced, and together pass the lot test |
| Selection.GreedySorted | examples/daily_predict.py:810-848 | the picks keep the candidates' score order |
| Selection.ClampRate | examples/daily_predict.py:858-859 | the dropout rate lies in [0, 1], and a rate already in it is kept |
| Selection.MaxPositions | examples/daily_predict.py:857 | the position count is at most the row count, and at most `top_k` when that is positive |
| Selection.KeepSlots | examples/daily_predict.py:861-865 | the kept slots plus the drop count `min(round(max_positions * rate), max_positions)` make up the positions: all slots dropped for a rate of 1 or more, none for a rate of 0, and for a rate in [0, 1] the nearest whole number to `max_positions * (1 - rate)` kept |
| Selection.KeepAndFill | examples/daily_predict.py:867-881 | the dropout branch yields at most `max_positions` rows |
| Selection.FillFrom | examples/daily_predict.py:873-875 | the kept rows plus the refill number at most `max_positions` |
| Selection.Dropout | examples/daily_predict.py:857-888 | the dropout step yields at most `max_positions` rows |
| Selection.DropoutFromFiltered | examples/daily_predict.py:857-888 | the dropout step returns only rows it was given |
| Selection.KeptAreBestHeld | examples/daily_predict.py:867-870 | the kept holdings number at most `keep_slots`, are held rows of the list, and outscore every held row not kept |
| Selection.KeptCodesAreKept | examples/daily_predict.py:871-874 | with no instrument twice, the rows whose instrument is among the kept ones are exactly the kept rows |
| Selection.DropoutKeepsAll | examples/daily_predict.py:855-888 | when the picks already fit `top_k` and no instrument repeats, dropout only reorders them |
| Selection.AffordablePermutation | examples/daily_predict.py:824-846 | whether a set of picks passes the lot test does not depend on their order |
| Selection.ReweightedAffordable | examples/daily_predict.py:891 | re-weighting an affordable set keeps it affordable |
| Selection.FinalRowsGood | examples/daily_predict.py:855-893 | steps 3 and 4 on a valid greedy set give a selection that meets every promise of the method |
| Selection.FinalRowsFromPred | examples/daily_predict.py:855-891 | the final rows are tradable, priced, within the cap and, apart from their weight, rows of the input |
| Selection.FinalRowsAffordable | examples/daily_predict.py:855-891 | with no instrument twice in the input, the final rows still afford one lot each |
| Selection.SelectBuyableTopk | examples/daily_predict.py:772-893 | the input comes back for `top_k <= 0` or an empty input, nothing without cash, and otherwise at most `top_k` tradable, priced, capped input rows with recomputed weights, which each afford a lot when no instrument occurs twice in the input |
| Selection.TopkCandidatesForQuotes | examples/live_daily_predict.py:559-573 | the input comes back for `top_k <= 0` or an empty input, otherwise min(top_k, n) rows |
| Selection.TopkCandidatesAreBest | examples/live_daily_predict.py:563-573 | the quote candidates are score-sorted, outrank every row left out, and carry weights that sum to one |
| Sorting.SortDesc | examples/daily_predict.py:810 | the descending score sort is a reordering of its input |
| Sorting.SortDescSorted | examples/daily_predict.py:810 | the sort's result is in descending key order, NaN last |
| Sorting.SortDescOfSorted | examples/daily_predict.py:855 | sorting a list that is already sorted leaves it as it is |
| Sorting.Head | examples/daily_predict.py:870 | `head(n)` is the prefix of length min(n, length) for n >= 0, the only counts it is given |
| Sorting.HeadIsTop | examples/daily_predict.py:869-870 | the head of a sorted list ranks at least as high as every element left out |
| LiveStrategy.SliceBound | qlib/contrib/strategy/live_strategy.py:143-147 | the slice bound Python uses stays within the list, and a bound already within it is kept |
| LiveStrategy.FirstTradable | qlib/contrib/strategy/live_strategy.py:116-127 | the `only_tradable` first-n scan takes at most max(n, 1) items, each tradable and from the list |
| LiveStrategy.LastTradable | qlib/contrib/strategy/live_strategy.py:129-130 | the backward scan takes at most max(n, 1) items, each tradable and from the list |
| LiveStrategy.GetFirstN | qlib/contrib/strategy/live_strategy.py:116-127 | the scan loop with its early break returns exactly the first-n result |
| LiveStrategy.GetLastN | qlib/contrib/strategy/live_strategy.py:116-130 | the reversed scan loop, its result put back in order, returns exactly the last-n result |
| LiveStrategy.FirstTradableSpec | qlib/contrib/strategy/live_strategy.py:116-127 | under `only_tradable`, the first n are the first max(n, 1) tradable items, in list order |
| LiveStrategy.LastTradableSpec | qlib/contrib/strategy/live_strategy.py:116-130 | under `only_tradable`, the last n are the last max(n, 1) tradable items, in list order |
| LiveStrategy.TakeLastZero | qlib/contrib/strategy/live_strategy.py:146-147 | without `only_tradable`, asking for the last 0 items yields the whole list |
| LiveStrategy.PickToday | qlib/contrib/strategy/live_strategy.py:164-168 | the candidate loop yields exactly the `today` list of the "top" buy method |
| LiveStrategy.PickSell | qlib/contrib/strategy/live_strategy.py:184-185 | the sell loop yields exactly the held stocks among the last `n_drop` of `comb` |
| LiveStrategy.Select | qlib/contrib/strategy/live_strategy.py:153-196 | the selection step yields the plan of the "top"/"bottom" methods, or raises for another method name |
| LiveStrategy.FirstNSpec | qlib/contrib/strategy/live_strategy.py:114-147 | `get_first_n` draws from its list; under `only_tradable` it takes at most max(n, 1) tradable items, otherwise at most n for n >= 0 |
| LiveStrategy.CandidatesUnheld | qlib/contrib/strategy/live_strategy.py:166 | no new candidate is already held |
| LiveStrategy.TodaySpec | qlib/contrib/strategy/live_strategy.py:161-196 | the new candidates are not held, the buy list is drawn from them, and their number is bounded by `n_drop + topk - len(last)` |
| LiveStrategy.BottomIsLowest | qlib/contrib/strategy/live_strategy.py:129-130 | on a list sorted best first, no tradable item outside the bottom ranks below an item inside it |
| LiveStrategy.SellIsBottom | qlib/contrib/strategy/live_strategy.py:181-185 | only held stocks are sold, and under `only_tradable` every tradable stock of `comb` outside its bottom `n_drop` scores at least as high as every stock sold |
| LiveStrategy.SellLoop | qlib/contrib/strategy/live_strategy.py:199-224 | the sell loop yields exactly the sell pass's orders and the cash after them |
| LiveStrategy.SellPassSpec | qlib/contrib/strategy/live_strategy.py:199-224 | every sell order is for the full amount of a held stock that is tradable, in the sell set, held at least `hold_thresh` and accepted by the check, and every such stock gets one |
| LiveStrategy.CheckAffordable | qlib/contrib/strategy/live_strategy.py:244-286 | the Round-1 test keeps a stock exactly when it is tradable, priced, and the split buys at least the minimum shares |
| LiveStrategy.FilterAffordable | qlib/contrib/strategy/live_strategy.py:243-286 | Round 1 keeps exactly the buy candidates that pass the test, in order |
| LiveStrategy.PlaceBuys | qlib/contrib/strategy/live_strategy.py:310-338 | the Round-2 loop yields exactly the buy orders of the re-split budget |
| LiveStrategy.BuyOrdersSpec | qlib/contrib/strategy/live_strategy.py:310-338 | every Round-2 order buys a survivor for the re-split budget over its price, rounded to the trade unit, and the orders' stocks are exactly the survivors tradable for buying, in list order |
| LiveStrategy.SurvivorsAllBought | qlib/contrib/strategy/live_strategy.py:310-338 | when every survivor is priced and tradable for buying, Round 2 orders each of them once, in list order |
| LiveStrategy.Round2BudgetNotSmaller | qlib/contrib/strategy/live_strategy.py:233-300 | Round 2's per-stock budget is at least Round 1's when the investable cash is not negative |
| LiveStrategy.AllocateOrders | qlib/contrib/strategy/live_strategy.py:199-340 | the sell pass and the two buy rounds yield exactly the plan's allocation |
| LiveStrategy.GenerateTradeDecision | qlib/contrib/strategy/live_strategy.py:72-340 | the method returns exactly the modelled decision |
| LiveStrategy.AllocateSpec | qlib/contrib/strategy/live_strategy.py:199-340 | the decision holds the sells first, then only buys, whose stocks are exactly the buy-list stocks that passed Round 1, in list order; with no candidate or no survivor, only the sells |
| LiveStrategy.AllocateBuysAffordable | qlib/contrib/strategy/live_strategy.py:290-338 | after the sells come only buys, each of a buy-list stock that passed Round 1 |
| LiveStrategy.AllocateBuysSurvivors | qlib/contrib/strategy/live_strategy.py:290-338 | the buys after the sells are for exactly the Round-1 survivors, one each, in buy-list order |
| LiveStrategy.DecisionShortcuts | qlib/contrib/strategy/live_strategy.py:87-111 | with the filter off the parent decides; with no signal the decision is empty; an unknown buy method raises |
| OrderGenerator.PerSpec | qlib/contrib/strategy/order_generator.py:234-249 | the per-price amount exists exactly for a present, non-zero price, and then multiplies back to the value |
| OrderGenerator.TargetOfPrice | qlib/contrib/strategy/order_generator.py:226-249 | a stock tradable in both windows is estimated at its prediction-day close, any other at its recorded price |
| OrderGenerator.TargetsOverStep | qlib/contrib/strategy/order_generator.py:213-254 | visiting one more stock adds its target when it is tradable in both windows or held, and changes nothing else |
| OrderGenerator.BuildTargetAmounts | qlib/contrib/strategy/order_generator.py:200-254 | the loop builds exactly the target amount dictionary over all weighted stocks |
| OrderGenerator.TargetAmountsSpec | qlib/contrib/strategy/order_generator.py:200-254 | a stock has a target exactly when it is weighted and tradable in both windows or held; its target times its estimate price is its weight's share of risk degree * position value; it is NaN exactly when that price is NaN or zero |
| OrderGenerator.DropTradable | qlib/contrib/strategy/order_generator.py:117-120 | the copy of the current amounts ends with exactly the holdings not tradable on the trade day |
| OrderGenerator.InteractTargetsSpec | qlib/contrib/strategy/order_generator.py:94-132 | with the reserve unmet, the targets are exactly the untradable holdings; otherwise the cash handed to the conversion is the available value net of the larger cost rate, never negative and never above what is available |
| OrderGenerator.FullRiskNoReserve | qlib/contrib/strategy/order_generator.py:111-114 | at risk degree 1 nothing is reserved, so the sell-everything branch is never taken |
| OrderGenerator.GenerateOrderList | qlib/contrib/strategy/order_generator.py:14-274 | the generator returns exactly the modelled order list |
| OrderGenerator.OrderListSpec | qlib/contrib/strategy/order_generator.py:47-274 | the base class raises; either subclass returns no orders for a missing weight dictionary and otherwise the exchange's diff from its target amounts to the current ones |
| BacktestUtils.PyIndex | qlib/backtest/utils.py:119 | numpy indexing: a non-negative index in range picks that entry, a negative one counts from the end, any other raises |
| BacktestUtils.SearchSortedRight | qlib/backtest/utils.py:174-175 | the right-side search never passes the calendar's end |
| BacktestUtils.SearchSortedRightSplits | qlib/backtest/utils.py:174-175 | on a sorted calendar the search splits it into the entries at or before the time and those after |
| BacktestUtils.SearchSortedRightMonotone | qlib/backtest/utils.py:174-175 | a later time is found at no earlier position |
| BacktestUtils.TradeCalendarManager.constructor | qlib/backtest/utils.py:28-46 | construction resets: the given range, `trade_len = end - start + 1`, `trade_step = 0` |
| BacktestUtils.TradeCalendarManager.Reset | qlib/backtest/utils.py:48-71 | the new range with `trade_len = end - start + 1` and `trade_step = 0`; the calendar is unfinished exactly when the range is not empty |
| BacktestUtils.TradeCalendarManager.Step | qlib/backtest/utils.py:73-84 | a finished calendar raises and keeps its step; otherwise the step grows by exactly one and nothing else changes |
| BacktestUtils.TradeCalendarManager.GetStepTime | qlib/backtest/utils.py:96-119 | the window is the calendar entry at `start_index + step - shift` (the current step when none is given) and the epsilon change of the next entry; an index numpy rejects raises |
| BacktestUtils.TradeCalendarManager.GetRangeIdx | qlib/backtest/utils.py:160-182 | both indices lie in [0, trade_len - 1], and an earlier start gives no later left index |
| BacktestUtils.GetDataCalRange | qlib/backtest/utils.py:121-153 | "full" and "step" give the located range relative to the day's first index; any other type raises |
| BacktestUtils.GetStartEndIdx | qlib/backtest/utils.py:259-278 | the outer decision's limit, or (0, trade_len - 1) when it does not implement one; any other error propagates |
| BacktestUtils.Infrastructure.constructor | qlib/backtest/utils.py:193-194 | a new infrastructure holds exactly the supported part of its keyword arguments |
| BacktestUtils.Infrastructure.ResetInfra | qlib/backtest/utils.py:200-206 | supported names are set, overwriting; the others are reported as ignored and leave no trace |
| BacktestUtils.Infrastructure.Get | qlib/backtest/utils.py:208-212 | `get` finds a component exactly when it is set, and returns that component |
| BacktestUtils.Infrastructure.Update | qlib/backtest/utils.py:217-220 | every supported component of the other infrastructure is copied over; nothing unsupported is stored |
| BacktestUtils.Supported | qlib/backtest/utils.py:201-204 | the supported part of the keyword set is its keys that are also supported names, with their values |
| BacktestUtils.ResetInfraHas | qlib/backtest/utils.py:200-206 | after a reset a name is present exactly when it was before, or was passed and is supported |
| BacktestUtils.HasIsPresence | qlib/backtest/utils.py:214-215 | in a valid infrastructure, `has` is plain presence |
| ExportData.SplitJoin | examples/export_iquant_data.py:43-46 | joining the pieces of `str.split` with the separator gives back the text |
| ExportData.JoinSplitChar | examples/export_iquant_data.py:46 | splitting on a character the pieces do not hold gives the pieces back |
| ExportData.SplitWithoutSep | examples/export_iquant_data.py:43 | a text without the separator splits into itself alone |
| ExportData.SplitLeadingSep | examples/export_iquant_data.py:43 | a text starting with the separator splits into an empty piece and the pieces of the rest |
| ExportData.DateRangeOf | examples/export_iquant_data.py:42-49 | a line names dates only when it holds the label |
| ExportData.DatesOfJoined | examples/export_iquant_data.py:45-49 | two trimmed dates joined by the word between them are read back as those dates |
| ExportData.LabelledLine | examples/export_iquant_data.py:42-45 | a line of the label and a text without it names exactly the dates of that text |
| ExportData.DateRangeLine | examples/export_iquant_data.py:42-49 | the label followed by two trimmed dates joined by the word between them names those two dates |
| ExportData.ListedLines | examples/export_iquant_data.py:52-56 | the stock list holds exactly the stripped lines that are neither blank nor comments |
| ExportData.LastSomeIsLast | examples/export_iquant_data.py:37-49 | the dates kept are those of the last line that names a range, and none are kept only when no line names one |
| ExportData.ParseStep | examples/export_iquant_data.py:38-56 | one more line appends its stripped text, its stock entry if any, and its range if any |
| ExportData.ParseStockList | examples/export_iquant_data.py:26-58 | a missing file gives no stocks and no dates; otherwise the stock lines in file order and the dates of the last range line, both dates or neither |
| ExportData.KeyIndex | examples/export_iquant_data.py:266-282 | the index found holds the key, and no index is found only when no entry has the key |
| ExportData.ExtractClose | examples/export_iquant_data.py:255-307 | None and an empty list give nothing; a dict with "close" gives exactly that entry's conversion |
| ExportData.FromKeysUnfold | examples/export_iquant_data.py:273-278 | a nested key that gives a close decides, otherwise the later keys do |
| ExportData.FromKeysFirstMatch | examples/export_iquant_data.py:273-278 | the keys are tried in the order data, values, items, records: the first that gives a close decides, and none gives nothing |
| ExportData.DictUnfold | examples/export_iquant_data.py:265-287 | a dict without "close" gives the nested keys' close, else a one-entry dict's value close, else nothing |
| ExportData.DictPriority | examples/export_iquant_data.py:265-287 | without "close", the first nested key that gives a close decides the dict; with none, only a one-entry dict can still give one |
| ExportData.FromItemsUnfold | examples/export_iquant_data.py:293-303 | a list entry is either passed over or decides the result: a dict's close, or the conversion of a pair's non-None second element |
| ExportData.FromItemsFirstMatch | examples/export_iquant_data.py:293-304 | entries are tried in order: the first one not passed over decides, even when its conversion fails, and a list passed over entirely gives nothing |
| ExportData.FirstDecides | examples/export_iquant_data.py:293-304 | a scan that moves past marked entries ends with the first unmarked entry's value, or nothing |
| ExportData.ListPriority | examples/export_iquant_data.py:289-305 | a list's close is decided by its first entry not passed over, and is nothing when every entry is passed over |
| ExportData.ExtractSound | examples/export_iquant_data.py:255-307 | every close the parser returns was found where it looks for one: a frame's last close, a "close" entry, or a pair's second element, at any depth |
| ExportData.FromKeysSound | examples/export_iquant_data.py:273-278 | a close found under a nested key was found where the parser looks for one |
| ExportData.FromItemsSound | examples/export_iquant_data.py:293-305 | a close found in a list entry was found where the parser looks for one |
| ExportData.SingleEntryTransparent | examples/export_iquant_data.py:281-285 | a dict with a single entry other than "close" gives exactly the close of its value |
| ExportData.BarRecords | examples/export_iquant_data.py:465-493 | a bar's rows are at most one per listed stock, each dated with the bar and for a stock the reply holds |
| ExportData.ExportSession.constructor | examples/export_iquant_data.py:367-414 | `init` keeps the list's stocks or the five fallback codes, the dates of the last range line, and preloads only when both dates are present and the context can download |
| ExportData.ExportSession.EnsureHistory | examples/export_iquant_data.py:222-252 | nothing is downloaded once history is preloaded or the day is cached; otherwise the day is downloaded and cached only if that went through |
| ExportData.ExportSession.CollectBar | examples/export_iquant_data.py:468-493 | the loop appends exactly the bar's rows to the collection |
| ExportData.ExportSession.Handlebar | examples/export_iquant_data.py:417-541 | every bar is counted; with stocks and a date the bar's rows are collected from a dict reply; the collection is saved on the last bar or once 40 rows are in |
| Text.Strip | examples/live_daily_predict.py:397 | `strip()` leaves no surrounding whitespace, never lengthens the text, and empties exactly an all-space text |
| Text.Upper | examples/live_daily_predict.py:397 | `upper()` keeps the length and upper-cases every character in place |
| Text.UpperIdempotent | examples/live_daily_predict.py:455 | upper-casing twice is upper-casing once |
| Orders.CapAndNet | examples/daily_predict.py:1005-1011 | the buys of a framed table are capped only when their total exceeds a positive budget of cash * risk degree + sells, the capped total then stays within it, and the net amount is max(buys - sells, 0) |
| LiveOrders.FrameRowsReachLot | examples/daily_predict.py:1157-1210 | every row of the order table holds at least one lot of shares |
| LiveOrders.FrameRowsResolvedGood | examples/daily_predict.py:1157-1244 | framing with the daily `_resolve_price` gives rows of whole lots with their ids and their amounts at the resolved price |
| LiveOrders.FrameRowsLiveResolvedGood | examples/live_daily_predict.py:614-621 | the same holds with the live quote-first resolver |
| LiveOrders.RecordedCodes | examples/live_daily_predict.py:196-222 | when every row holds shares, the symbols the ledger counts as bought are exactly the stocks of the buy rows |
| LiveOrders.BuysRecordedBeforeCap | examples/live_daily_predict.py:916-924 | recording the framed buy rows adds exactly their stocks to the ledger, keeps every earlier buy date and dates new stocks today, independently of the capping that follows |
| LiveOrders.FramedBuyRecorded | examples/live_daily_predict.py:916-933 | every framed buy row's stock ends up in the ledger, dated today if new, even when the later budget cap zeroes that row |
| LiveOrders.GenerateLiveOrders | examples/live_daily_predict.py:906-937 | the ledger afterwards is the old ledger with the uncapped buy rows recorded; the buys are capped only when their total exceeds a positive budget, the capped total then stays within it, and the net amount is max(buys - sells, 0) |

## Left out

- I/O: reading and writing files, the JSON parser, Python's `float()` on text and the iQuant API calls (`passorder`, `get_history_data`, the holdings and quote exports) are function parameters or given values; their own behaviour is not modelled.
- StateFile: the JSON round trip and the atomic rename are taken as given (a write is what the next read returns); a failing unlink on reset and a non-string version in the file are not modelled.
- Handshake.WaitForPhase: time is a finite sequence of polls with elapsed seconds; the sleeping and the wall clock are not modelled.
- The prediction pipeline (qlib initialisation, data download, model training and inference, feature handling) is not part of this model; `Handshake.RunHandshake` takes its candidate rows and order file as parameters.
- The construction of the trading configuration in `main`, default file names and paths, and the orders-path options are left out.
- Logging, printed messages, `_print_overview` and the text of error messages are left out; a raised error carries a reason, not Python's message.
- Any other exception a library call could raise (pandas, numpy, OS errors) is left out.
- Floating point: prices, amounts and weights are exact reals, so rounding error and overflow of IEEE doubles are not modelled.
- OrderGenerator.Per: a zero price gives NaN here, where numpy's division gives infinity.
- Sorting.SortDesc: ties keep their input order (a stable sort), which need not be the order pandas' default sort gives them.
- Text: only ASCII letters and white space are handled; Python's Unicode case mapping and white space are not modelled.
- ExportData.DateRangeLine: proved only for dates without the separator word or spaces inside them.
- ExportData: a bar's timestamp is given as its formatted date text; the `timetag_to_datetime` conversion is not modelled.
- ExportData: `_export_data` and `_preload_history_data` are parameters (their success and the rows saved); the pandas CSV writer is not modelled.
- LiveFiles: a table is given with its column names already lower-cased as pandas reads them; pandas' own CSV parsing is not modelled.
- VenueOrders: in the batch script, a file with both a "stock" and a "code" column ends up with two "code" columns after pandas' rename; the model reads the "stock" column. Other pandas column coercions are not modelled.
- VenueOrders: the account id and price-type arguments of the order call are constants of the call and are not modelled.
- LiveStrategy.GenerateTradeDecision: the "random" buy and sell methods of the parent strategy are excluded by `Deterministic(cfg)`, since their draw is not modelled.
- Selection.SelectBuyableTopk: affordability of the selected rows is proved only when no instrument occurs twice in the input; with a repeated instrument the `isin` re-selection can take in both rows, and the recomputed weights then need not afford a lot.
- Sorting.Head: a negative count gives the empty prefix, where pandas' `head(-k)` drops the last k rows; no caller passes one, since the slot counts are clamped at zero and `top_k` is checked positive first.
- Handshake.RunHandshake: a wait whose polls run out before it ends is reported as "still waiting"; the source would go on polling.
- Holdings.ReferencePrice: a reference table that lists an instrument twice makes pandas' `get` return a Series, and the truth test at examples/daily_predict.py:1064-1065 then raises; the model takes the first such row whose price is not NaN instead.
- BacktestUtils.Infrastructure.Get: finds only the components set on the object; Python's `hasattr` would also return any other attribute of that name, such as a bound method (`get("update")`).
- BacktestUtils: `reset_cal` and `set_sub_level_infra` (qlib/backtest/utils.py:240-256) are not modelled, nor are the warnings `get` logs for a missing name.
- LiveOrders.GenerateLiveOrders: covers the live order path from the framed table on; the target-share printout is left out, as are the steps before it, which are the same as the daily predictor's.
