# wrappy venue clients in Dafny

This project models the core of `wrappy`, a small Python library of trading-bot
clients for three crypto exchanges: GMO Coin, bitFlyer and bitbank. The model
covers these parts:

- how each client builds its order requests;
- how each client reads the exchange's answers: which status codes and bodies
  are accepted, and which exception is raised otherwise;
- how each client derives a position and the open order ids from those answers;
- the shutdown protocol: cancel all orders twice, fetch the position, flatten it
  with market orders, and write one order-history record per flatten;
- the bitFlyer API-call counters;
- the bot's stop flag and its start sequence;
- the CSV order-history file: its header, its rows and its writer state;
- the array helpers `np_shift` and `np_stack`.

The HTTP gateway is abstract. Each operation takes the gateway's answers as
parameters: a response is a status code, a decoded body and its raw text. Each
client class records a `trace` of what it did: gateway calls, sleeps and
order-history writes. Every shutdown is specified by a function that gives the
actions taken and the outcome, `Run(actions, outcome)`. Each client method is
proved to append exactly those actions to its trace and to return exactly that
outcome. The lemmas then state the protocol's properties about that function.
Examples: the two cancels come before the fetch, an entry is flattened exactly
when its size reaches the minimum order quantity, and each record follows its
order.

Sizes are exact `real` values, as the source's `Decimal`s are. Python's textual
status tests, such as `str(status).startswith('2')`, are modelled as written in
module `Text`. Lemmas relate them to the usual numeric ranges on three-digit
status codes.

Modules and files:

| file | module | models |
|---|---|---|
| wrappers.dfy | Wrappers | `Option`, `Result`, `Outcome` |
| text.dfy | Text | `str(int)`, `startswith`, `str.replace` |
| http.dfy | Http | JSON values, exceptions, responses, status tests |
| liquidation.dfy | Liquidation | trace actions, runs, the shutdown record, the flatten side |
| logfile.dfy | Logfile | `LogBase`, `OrderHistory`, the CSV file as a sequence of rows |
| base.dfy | Base | `BotBase` |
| gmo.dfy | Gmo | the GMO Coin client |
| bitflyer.dfy | Bitflyer | the bitFlyer client |
| bitbank.dfy | Bitbank | the bitbank client |
| util.dfy | Util | `np_shift`, `np_stack` |

## Model

| member | source | states |
|---|---|---|
| Http.SuccessStatusRange | wrappy/gmo.py:31 | On three-digit status codes, `str(status).startswith('2')` holds exactly for 200..299 and `startswith('4')` exactly for 400..499 |
| Text.ThreeDigitPrefix | wrappy/bitbank.py:227 | For two three-digit numbers, `str(n).startswith(str(m))` holds exactly when n == m |
| Text.LeadingDigit | wrappy/bitbank.py:19-20 | For a three-digit status, starting with one digit d holds exactly when the hundreds digit is d |
| Text.RemoveJpySuffix | wrappy/bitbank.py:160 | `symbol.replace("_jpy", "")` turns a pair such as "btc_jpy" back into its base asset name |
| Text.RemoveAll | wrappy/bitbank.py:160 | `replace(pattern, "")` never lengthens the string and leaves a string shorter than the pattern unchanged |
| Text.StartsWith | wrappy/bitbank.py:19 | A string that starts with a prefix is at least as long as it, and every string starts with itself |
| Text.StartsWithSplits | wrappy/bitbank.py:19 | `p + t` starts with `p`, and a string that starts with `p` is `p` followed by the rest |
| Text.NatToString | wrappy/bitbank.py:19 | `str(n)` of a natural number is non-empty and all decimal digits |
| Text.IntToString | wrappy/bitbank.py:19 | `str(i)` is non-empty, starts with '-' exactly for a negative number, and is digits after the first character |
| Liquidation.Opposite | wrappy/gmo.py:72-75 | The closing side is "SELL" exactly for "BUY" and "BUY" for anything else |
| Liquidation.StopRecord | wrappy/gmo.py:80-88 | The shutdown record has exactly the seven order-history keys, with order kind "Bot Stop Liquidation", price 0, and the given order id, size and current position |
| Logfile.Headers | wrappy/logfile.py:112-117 | The headers are the column keys, one per column, in column order |
| Logfile.HeaderRow | wrappy/logfile.py:76-83 | The header row holds each column key in column order |
| Logfile.RowFromDict | wrappy/logfile.py:94-103 | The row a dict writes has one cell per column: the dict's value for that column's header when the dict has the key, else the empty string |
| Logfile.RowIgnoresExtraKeys | wrappy/logfile.py:102 | Keys of the dict that are not columns do not change the row |
| Logfile.RowFromDictRoundTrip | wrappy/logfile.py:102 | For distinct headers and a dict with exactly those keys, reading the row back by header gives the dict |
| Logfile.NewRecord | wrappy/logfile.py:133-139 | A new record has exactly the column keys, each mapped to its default when one is set, else None |
| Logfile.NewRecordFillsEveryColumn | wrappy/logfile.py:133-139 | Writing a new record fills every column with its default or None, never with the empty-string filler |
| Logfile.DictFromRow | wrappy/logfile.py:102 | Reading a row by distinct headers gives a dict with exactly the header keys |
| Logfile.LogBase.constructor | wrappy/logfile.py:10-30 | Stores the path and options; columns and defaults start empty; no file and no writer |
| Logfile.LogBase.OrderHistory | wrappy/logfile.py:142-149 | An order history appends (`as_new` False), writes a header, uses shift_jis, "," and "\n", and takes the given columns |
| Logfile.LogBase.GetHeaders | wrappy/logfile.py:112-117 | The column keys in insertion order |
| Logfile.LogBase.GetColumnsNum | wrappy/logfile.py:126-131 | The number of columns, equal to the number of headers |
| Logfile.LogBase.GetNewRecord | wrappy/logfile.py:133-139 | Exactly the column keys, each with its default or None |
| Logfile.LogBase.AppendRow | wrappy/logfile.py:92 | A row is appended to the file when its writer is open; writing to a closed file raises ValueError and changes nothing |
| Logfile.LogBase.WriteHeader | wrappy/logfile.py:76-83 | Raises "Writer is not initialized." without a writer, else appends the header row |
| Logfile.LogBase.WriteRow | wrappy/logfile.py:85-92 | Raises "writer is not initialized." without a writer, else appends the row |
| Logfile.LogBase.WriteRowByDict | wrappy/logfile.py:94-103 | Raises without a writer, else appends one cell per column: the dict value or '' |
| Logfile.LogBase.Initialize | wrappy/logfile.py:62-74 | With `as_new` an existing file is removed; a new file gets a writer, and a header row when `with_header` is set; an existing file keeps its rows and no writer is created for it |
| Logfile.LogBase.Enter | wrappy/logfile.py:32-38 | Entering only initializes, so on an existing file no writer is created |
| Logfile.LogBase.Open | wrappy/logfile.py:48-53 | Opening initializes and then always sets a writer on the open file |
| Logfile.LogBase.Close | wrappy/logfile.py:55-60 | Closes the file only if one was opened; nothing else changes |
| Logfile.EnterExistingThenWrite | wrappy/logfile.py:37 | Entering on an existing file and then writing raises "writer is not initialized." and leaves the file as it was |
| Logfile.OpenThenWrite | wrappy/logfile.py:52-53 | Opening and then writing appends the row |
| Base.RunLogic | wrappy/base.py:30-34 | The base `_run_logic` raises NotImplementedError |
| Base.BotBase.constructor | wrappy/base.py:4-14 | Stop flag False, columns empty, history directory from `log_dir` or "log", CSV name `<exchange>_<bot>_order_history.csv` |
| Base.BotBase.Stop | wrappy/base.py:23-28 | Raises the stop flag and logs "Logic has been stopped." |
| Base.BotBase.Start | wrappy/base.py:16-21 | Returns the logic's outcome and logs "Bot started." only when the logic returned normally |
| Base.StartBaseBot | wrappy/base.py:20-21 | A bot on the base logic fails with NotImplementedError and logs nothing |
| Base.StopTwice | wrappy/base.py:27 | Stopping twice leaves the flag raised |
| Gmo.ClassifyResponse | wrappy/gmo.py:28-42 | Accepted exactly for a 2xx status with body status 0; non-2xx raises "[status] server error"; a refusal raises with the first message's code and text, or IndexError when there is no message; an accepted reply is `data` when present, else the whole body |
| Gmo.ClassifyOnHttpStatuses | wrappy/gmo.py:31-37 | On three-digit statuses, accepted exactly for 200..299 with body status 0; every failure is a RequestException, except a refusal without messages, which raises IndexError |
| Gmo.FetchMyPosition | wrappy/gmo.py:373-378 | Errors propagate; nothing (`{}`) exactly for an empty list, otherwise the first entry's side and size |
| Gmo.FetchAllOrderId | wrappy/gmo.py:222-238 | Order ids in list order; `[]` on RequestException or timeout; a falsy payload is returned as it is; any other error propagates |
| Gmo.FlattenOrder | wrappy/gmo.py:72-78 | The flatten of an entry is a MARKET order sent to /private/v1/closeBulkOrder, on the opposite side, of the entry's size |
| Gmo.PlanMembers | wrappy/gmo.py:77 | An order is planned exactly when an entry with size at or above moq calls for it |
| Gmo.Plan | wrappy/gmo.py:70-78 | At most one order per summary entry, every one a MARKET order to /private/v1/closeBulkOrder |
| Gmo.Flatten | wrappy/gmo.py:69-89 | A flatten loop that fails ends right after the refused order |
| Gmo.FlattenShape | wrappy/gmo.py:70-89 | The flatten loop only places orders and writes records; each record directly follows its order and carries that order's size |
| Gmo.FlattenFollowsPlan | wrappy/gmo.py:70-89 | The loop's orders are a prefix of the plan, and all of it when the loop completes; one record per order placed |
| Gmo.FlattenCompletes | wrappy/gmo.py:70-89 | The loop completes when every order from the current one on goes through |
| Gmo.FlattenRecords | wrappy/gmo.py:77-89 | The n-th record of the loop holds the id returned for the n-th order placed, the clock read for it, that order's size, an empty order_no and current position 0 |
| Gmo.CancelAndLiquidateRun | wrappy/gmo.py:59-90 | A shutdown completes only when both cancels and the position summary went through |
| Gmo.StopRun | wrappy/gmo.py:44-52 | A stop has its liquidation's outcome and, when that completed, ends by closing the history files |
| Gmo.CancelsPrecedeFetch | wrappy/gmo.py:63-68 | Every shutdown opens with wait 1 s and cancel; the second wait and cancel follow only if the first cancel went through; the fetch happens exactly when both went through, and after it come only orders and records |
| Gmo.FlattenDecisions | wrappy/gmo.py:69-89 | After two cancels and a fetch, the orders placed follow the plan for the summary and moq (all of it when the run completes, which it does when every order goes through), with one record per order, and every order placed is a MARKET request to /private/v1/closeBulkOrder |
| Gmo.AuditsFollowTheirOrders | wrappy/gmo.py:78-89 | Every record of a shutdown directly follows its order and carries its size, order kind "Bot Stop Liquidation", price 0 and current position 0; the n-th record holds the id returned for the n-th order and the clock read for it |
| Gmo.AuditsInPlace | wrappy/gmo.py:78-89 | Every record of a shutdown directly follows its order with that order's size, order kind "Bot Stop Liquidation", price 0 and current position 0; there is at most one more order than records, and exactly as many when the run passes |
| Gmo.AuditsNameTheirOrders | wrappy/gmo.py:78-89 | The n-th record of a shutdown holds the id returned for its n-th order, the clock read for it and that order's size |
| Gmo.NoAudits | wrappy/gmo.py:63-68 | The calls before the loop contain no orders and no records |
| Gmo.AuditsAfterPrefix | wrappy/gmo.py:63-89 | A prefix without orders or records keeps the records of the loop in place |
| Gmo.NothingToFlatten | wrappy/gmo.py:69-77 | An empty summary, or one with every entry below moq, places no order and writes no record |
| Gmo.SkipAllBelow | wrappy/gmo.py:77 | Entries all below moq are skipped without calls |
| Gmo.FetchedPositionIsFlattenedFirst | wrappy/gmo.py:373-378 | The position `fetch_my_position` reports is the one the shutdown flattens first, on the opposite side |
| Gmo.StopClosesAfterLiquidation | wrappy/gmo.py:44-52 | A stop closes the history files exactly when liquidation completed, and as its last action |
| Gmo.LongIsSold | wrappy/gmo.py:70-89 | A long of 0.5 with moq 0.01 is closed by one market SELL of 0.5 and one record |
| Gmo.GmoClient.constructor | wrappy/gmo.py:10-26 | Installs the seven order-history columns; the trace starts empty |
| Gmo.GmoClient.ReplaceOrder | wrappy/gmo.py:380-409 | "create" posts to /private/v1/order with a size; "liquidate" posts to /private/v1/closeOrder with `settlePosition`; anything else posts to /private/v1/closeBulkOrder with a size; `price` is present exactly for LIMIT and STOP |
| Gmo.GmoClient.MarketOrder | wrappy/gmo.py:411-426 | A new MARKET order to /private/v1/order without a price, carrying the client's symbol, the side, the size, the time in force and cancelBefore as given |
| Gmo.GmoClient.LimitOrder | wrappy/gmo.py:428-445 | A new LIMIT order to /private/v1/order at the price, carrying the client's symbol, the side, the size, the time in force and cancelBefore as given |
| Gmo.GmoClient.SettleMarket | wrappy/gmo.py:447-463 | A MARKET close of one position to /private/v1/closeOrder, with `settlePosition` and no size or price, carrying the client's symbol, the side, the time in force and cancelBefore as given |
| Gmo.GmoClient.SettleLimit | wrappy/gmo.py:465-482 | A LIMIT close of one position to /private/v1/closeOrder at the price, carrying the client's symbol, the side, the time in force and cancelBefore as given |
| Gmo.GmoClient.LiquidateOrderMarket | wrappy/gmo.py:484-499 | A MARKET bulk close to /private/v1/closeBulkOrder without a price, carrying the client's symbol, the side, the size, the time in force and cancelBefore as given |
| Gmo.GmoClient.LiquidateOrderLimit | wrappy/gmo.py:501-517 | A LIMIT bulk close to /private/v1/closeBulkOrder at the price, carrying the client's symbol, the side, the size, the time in force and cancelBefore as given |
| Gmo.GmoClient.CancelAll | wrappy/gmo.py:556-566 | One cancel-all call, whose classified reply is returned |
| Gmo.GmoClient.PositionSummary | wrappy/gmo.py:68 | One position fetch, whose classified reply is returned |
| Gmo.GmoClient.FlattenEntry | wrappy/gmo.py:72-89 | One flatten: the request `liquidate_order_market` builds (a MARKET bulk close on the opposite side, for the entry's size, whose path the trace records), then its record with the returned id and clock reading; or the order's error and no record |
| Gmo.GmoClient.FlattenAll | wrappy/gmo.py:69-89 | The flatten loop appends exactly the actions of the flatten run over the summary and returns its outcome |
| Gmo.GmoClient.CancelTwice | wrappy/gmo.py:63-67 | Pauses one second and cancels everything; if that fails it stops with the error, otherwise pauses five seconds, cancels again and returns the second reply |
| Gmo.GmoClient.CancelAndLiquidate | wrappy/gmo.py:55-90 | Appends exactly the actions of the shutdown run and returns its outcome |
| Gmo.GmoClient.Stop | wrappy/gmo.py:44-52 | Raises the stop flag, then appends the stop run's actions and returns its outcome |
| Bitflyer.CheckResponse | wrappy/bitflyer.py:102-106 | Accepted exactly on a 2xx status; a 4xx raises "{status} Error {text}"; any other status raises "{status} Internal Server Error" |
| Bitflyer.CheckOnHttpStatuses | wrappy/bitflyer.py:102-106 | The same on three-digit statuses, stated as the ranges 200..299 and 400..499 |
| Bitflyer.SumSizesAppend | wrappy/bitflyer.py:181 | The summed size is additive over concatenation |
| Bitflyer.SumSizesBounds | wrappy/bitflyer.py:181 | Non-negative sizes sum to at least each of them |
| Bitflyer.SumSizes | wrappy/bitflyer.py:181 | Non-negative sizes have a non-negative sum |
| Bitflyer.FetchMyPosition | wrappy/bitflyer.py:172-183 | Nothing (`{}`) exactly for an empty list, otherwise the first entry's side and the sum of all sizes |
| Bitflyer.FetchMyPositionGrows | wrappy/bitflyer.py:177-183 | One entry is reported as it is, and a further entry adds its size and keeps the side |
| Bitflyer.Abs | wrappy/bitflyer.py:58 | Python's `abs`: non-negative and equal to x or -x |
| Bitflyer.ChildOrder | wrappy/bitflyer.py:85-95 | The child-order body has product, type, side, size, expiry and time in force, and `price` exactly for LIMIT |
| Bitflyer.CallsAppend | wrappy/bitflyer.py:15-16 | Both call counts are additive over concatenation |
| Bitflyer.PrivateCalls | wrappy/bitflyer.py:15-16 | At most one private call per action |
| Bitflyer.OrderCalls | wrappy/bitflyer.py:15-16 | Every call counted against the order limit is also counted against the private limit |
| Bitflyer.FlattenPosition | wrappy/bitflyer.py:58-74 | Flattening only places orders and writes records |
| Bitflyer.FlatStopNeverCloses | wrappy/bitflyer.py:33-58 | As written (with `fetch_my_position` returning `{}` at lines 178-179), a stop with an empty position list fails with KeyError('size') and never closes the history files; the corrected stop closes them |
| Bitflyer.CancelAndLiquidateRunAsWritten | wrappy/bitflyer.py:44-75 | As written, an accepted empty position list ends the shutdown right after the fetch with KeyError('size') |
| Bitflyer.CancelAndLiquidateRun | wrappy/bitflyer.py:44-75 | Corrected, an accepted empty position list ends the shutdown right after the fetch, completed, with no order |
| Bitflyer.StopRunAsWritten | wrappy/bitflyer.py:33-41 | A stop as written has its liquidation's outcome and, when that completed, ends by closing the history files |
| Bitflyer.StopRun | wrappy/bitflyer.py:33-41 | The corrected stop has its liquidation's outcome and, when that completed, ends by closing the history files |
| Bitflyer.StopClosesAfterLiquidation | wrappy/bitflyer.py:33-75 | Both liquidations open with cancel, wait, cancel, wait, fetch and never close the history files; a stop closes them exactly when its liquidation completed, as its last step |
| Bitflyer.ShutdownTail | wrappy/bitflyer.py:44-75 | After the fetch, a shutdown only places an order and writes its record |
| Bitflyer.CorrectionOnlyForFlat | wrappy/bitflyer.py:57-58 | The corrected liquidation differs from the one as written only when the position list is empty |
| Bitflyer.FlattenDecision | wrappy/bitflyer.py:52-74 | Every shutdown opens with cancel, wait 5 s, cancel, wait 5 s, fetch; it flattens exactly when the absolute size reaches moq, with one market order on the opposite side, and writes a record exactly when that order is accepted; the record holds the accepted order's id, the clock reading, the side under "size" and the size under "current_position" |
| Bitflyer.FlattenPositionEffects | wrappy/bitflyer.py:58-74 | A position at least moq in absolute size gets exactly one closing order, first, on the opposite side for its size, and a record only when the order is accepted, naming the accepted id; a failure means the order was refused |
| Bitflyer.ShutdownCallBudget | wrappy/bitflyer.py:44-75 | Counting as lines 15-16, 99-100, 157-158 and 163 do, a shutdown spends three private calls and two order calls plus one of each per order placed |
| Bitflyer.PrefixCalls | wrappy/bitflyer.py:52-57 | The two cancels and the fetch cost three private calls, two of them order calls, and place no order |
| Bitflyer.OrderOrRecordCalls | wrappy/bitflyer.py:99-100 | In a run of orders and records, each order counts once against both limits |
| Bitflyer.BitflyerClient.constructor | wrappy/bitflyer.py:10-30 | Both counters start at 0, the trace is empty, and the seven order-history columns are installed |
| Bitflyer.BitflyerClient.Record | wrappy/bitflyer.py:15-16 | Recording an action keeps the counters equal to the calls in the trace |
| Bitflyer.BitflyerClient.ReplaceOrder | wrappy/bitflyer.py:83-107 | Sends the child order, adds 1 to both counters before the status check, then checks the status |
| Bitflyer.BitflyerClient.MarketOrder | wrappy/bitflyer.py:110-116 | A MARKET child order with expiry 43200 and "GTC", without a price |
| Bitflyer.BitflyerClient.LimitOrder | wrappy/bitflyer.py:119-129 | A LIMIT child order with the price |
| Bitflyer.BitflyerClient.CancelOrderById | wrappy/bitflyer.py:132-144 | One cancel request, counted against the private limit only; the answer is not inspected |
| Bitflyer.BitflyerClient.CancelAll | wrappy/bitflyer.py:147-158 | One cancel-all request, counted against both limits; the answer is not inspected |
| Bitflyer.BitflyerClient.FetchPositions | wrappy/bitflyer.py:161-169 | One private call counted whatever the answer, then the status check |
| Bitflyer.BitflyerClient.CancelTwiceAndFetch | wrappy/bitflyer.py:52-57 | Cancel, wait 5 s, cancel, wait 5 s, fetch, with the counters in step; the fetch's checked reply is returned |
| Bitflyer.BitflyerClient.Liquidate | wrappy/bitflyer.py:58-74 | The flatten of a fetched position appends exactly the actions of its flatten run, with the counters in step |
| Bitflyer.BitflyerClient.CancelAndLiquidate | wrappy/bitflyer.py:44-75 | Appends exactly the corrected shutdown run's actions and returns its outcome, with the counters in step |
| Bitflyer.BitflyerClient.Stop | wrappy/bitflyer.py:33-41 | Raises the stop flag, then appends the corrected stop run's actions and returns its outcome |
| Bitbank.Classify | wrappy/bitbank.py:16-30 | Accepted exactly on a 2xx status with `success` 1, giving `data`; non-2xx raises APIException with the status; `success` 0 raises RequestException "<code> error" |
| Bitbank.TooManyRequestsStillRaises | wrappy/bitbank.py:19-24 | Only a 429 pauses, for 1 s, and it still raises, with no retry |
| Bitbank.CallActions | wrappy/bitbank.py:16-24 | A request is the call first, then at most a 1 s pause |
| Bitbank.OpenOrderIdsAppend | wrappy/bitbank.py:104-107 | The open-order selection keeps list order |
| Bitbank.OpenOrderIdsMembers | wrappy/bitbank.py:104-107 | An id is selected exactly when some UNFILLED or PARTIALLY_FILLED order carries it |
| Bitbank.OpenOrderIds | wrappy/bitbank.py:103-106 | At most one id per order |
| Bitbank.SellRemainingAppend | wrappy/bitbank.py:168-170 | The sell remainder is additive over concatenation, and buy orders add nothing |
| Bitbank.SellRemaining | wrappy/bitbank.py:168-170 | Non-negative remaining amounts give a non-negative sell remainder |
| Bitbank.AssetIndexFrom | wrappy/bitbank.py:163-166 | A found index is in range and its asset name starts with the prefix |
| Bitbank.AssetIndex | wrappy/bitbank.py:163 | The scan starts at index 1, skipping the first asset |
| Bitbank.AssetIndexFromIsFirst | wrappy/bitbank.py:163-166 | The scan from i finds the first match at or after i, and nothing only when no asset from i on matches |
| Bitbank.AssetIndexIsFirstMatch | wrappy/bitbank.py:163-166 | The asset scan finds the first matching asset at index 1 or later, and none only when none matches |
| Bitbank.ScanAssets | wrappy/bitbank.py:163-166 | The index loop with `break` finds exactly the index `AssetIndex` describes |
| Bitbank.PositionAsWritten | wrappy/bitbank.py:161-172 | As written, the position is computed exactly when an asset matches; otherwise TypeError |
| Bitbank.PositionOf | wrappy/bitbank.py:161-172 | With non-negative free amounts, the position is at least the open sell remainder, and exactly that when no asset matches |
| Bitbank.PositionWithoutAssetRaises | wrappy/bitbank.py:161-172 | As written and corrected agree when an asset matches; for every balance with no matching asset (only "jpy" held, say), the code as written raises TypeError and the corrected position is the sell remainder |
| Bitbank.CancelOrderResult | wrappy/bitbank.py:206-218 | An APIException with status 404 becomes None; every other error propagates |
| Bitbank.CancelAnyOrdersResult | wrappy/bitbank.py:220-234 | An APIException whose status starts "404" becomes None; every other error propagates |
| Bitbank.NotFoundTestsAgree | wrappy/bitbank.py:212-228 | On three-digit statuses the equality test and the prefix test give the same result |
| Bitbank.CancelAllResult | wrappy/bitbank.py:236-254 | `cancel_all_orders` never raises, and returns a value exactly when the cancel went through with one |
| Bitbank.CancelAllPause | wrappy/bitbank.py:245-253 | A pause of 0.2 s exactly after an error other than a refusal |
| Bitbank.FetchOpenOrdersActions | wrappy/bitbank.py:96-114 | The fetch of active orders first, then only pauses |
| Bitbank.OpenOrdersResult | wrappy/bitbank.py:96-114 | Exactly when the fetch is accepted, the ids of the fetched list's UNFILLED and PARTIALLY_FILLED orders, in list order; else None |
| Bitbank.CancelAllActions | wrappy/bitbank.py:236-254 | Opens with the fetch of active orders; its other actions are the cancel of exactly the fetched ids and pauses |
| Bitbank.CancelAllCancelsOpenOrders | wrappy/bitbank.py:241-244 | `cancel_all_orders` cancels exactly the ids found open, and returns a value only when the cancel was accepted |
| Bitbank.BitbankClient.constructor | wrappy/bitbank.py:10-14 | The trace starts empty |
| Bitbank.BitbankClient.Call | wrappy/bitbank.py:16-30 | One call and its 429 pause, classified |
| Bitbank.BitbankClient.ReplaceOrder | wrappy/bitbank.py:32-44 | Sends pair, amount, side, type and post_only, and `price` exactly for "limit" |
| Bitbank.BitbankClient.MarketOrder | wrappy/bitbank.py:57-68 | A "market" order without a price and not post-only, whose body carries the client's pair, the amount and the side |
| Bitbank.BitbankClient.LimitOrder | wrappy/bitbank.py:70-83 | A "limit" order at the price with the given post-only flag, whose body carries the client's pair, the amount and the side |
| Bitbank.BitbankClient.FetchOpenOrders | wrappy/bitbank.py:96-114 | The open order ids, or None after a 0.2 s pause when the request fails |
| Bitbank.BitbankClient.CancelAnyOrders | wrappy/bitbank.py:220-234 | One cancel-orders call, with the 404 mapping |
| Bitbank.BitbankClient.CancelOrderById | wrappy/bitbank.py:206-218 | One cancel call, with the 404 mapping |
| Bitbank.BitbankClient.CancelAllOrders | wrappy/bitbank.py:236-254 | Fetches the open ids, cancels them, never raises, and pauses 0.2 s only after an error other than a refusal |
| Bitbank.BitbankClient.FetchBalanceCall | wrappy/bitbank.py:46-55 | One balance call, classified; errors propagate |
| Bitbank.BitbankClient.FetchMyPosition | wrappy/bitbank.py:151-180 | The first matching asset's free amount (0 when none matches) plus the open sell remainder; a refusal gives None after a 0.2 s pause; other errors propagate |
| Bitbank.BitbankClient.CancelAndFetchPosition | wrappy/bitbank.py:182-204 | Cancels all orders, then gives the first matching asset's free amount from index 1 on, or None; a refused balance gives None after a 0.2 s pause |
| Bitbank.BitbankClient.FetchFreeAmount | wrappy/bitbank.py:191-204 | One balance call, then the free amount of the first asset from index 1 on whose name starts with the base symbol, or None; a refused balance gives None after a 0.2 s pause, and any other error propagates |
| Util.ShiftZero | wrappy/util.py:106-107 | A shift by 0 gives the input element by element |
| Util.ShiftPositive | wrappy/util.py:100-102 | For num > 0: fill below num, `arr[i-num]` from num on |
| Util.ShiftNegative | wrappy/util.py:103-105 | For num < 0: `arr[i-num]` below len+num, fill in the last -num places |
| Util.ShiftsAdd | wrappy/util.py:98-108 | Two shifts in the same direction add up |
| Util.ShiftBack | wrappy/util.py:98-108 | Shifting back undoes a shift on the places that were kept |
| Util.Shift | wrappy/util.py:98-108 | The shifted array has the input's length |
| Util.NpShift | wrappy/util.py:98-108 | A fresh array of the same length holding the shifted input; the input is unchanged |
| Util.KeepComplete | wrappy/util.py:111-113 | The mask filter gives two columns of equal length, no longer than the input |
| Util.Gather | wrappy/util.py:111-113 | Gathering by indices gives one cell per index |
| Util.CompleteRowsExact | wrappy/util.py:111-113 | The kept rows are exactly those without NaN, once each, in increasing order |
| Util.KeepCompleteGathers | wrappy/util.py:111-113 | The mask filter picks each column's cells at the complete rows |
| Util.NpStack | wrappy/util.py:110-113 | Fails exactly for columns of different lengths; otherwise two equal-length columns without NaN |
| Util.NpStackKeepsCompleteRows | wrappy/util.py:110-113 | Row k of the result is the k-th input row without NaN, in original order, and a row is kept exactly when neither cell is NaN |

## Left out

- HTTP transport, authentication and JSON decoding: the gateway is a parameter that hands over decoded bodies and status codes.
- Malformed bodies: the bodies are typed, so the KeyErrors that missing JSON members would raise are not modelled.
- Real time and concurrency: `asyncio.sleep` is a `Sleep` action in the trace, and the `asyncio.wait_for` timeout of `fetch_all_order_id` is a `TimeoutError` reply.
- Logging calls (`log_info`, `log_debug`, `log_error`) are not modelled. The exception is the two INFO messages of `BotBase`, which the model keeps.
- `write_order_history` and `close_order_history_files` are not defined in the files modelled. They are abstract trace actions here.
- exceptions.py is not part of this model. `APIException` and `RequestException` are taken to be distinct kinds, and `APIException` carries the status.
- notify.py is not modelled: it only delivers notifications over the network. Its `statusNotify` is never awaited in bitbank's `_requests` anyway.
- log.py is not modelled: it sets up logging and loads the JSON configuration. The exchange name, bot name and `log_dir` are constructor inputs.
- time_util.py is not modelled: the clock is an input, and timestamps in records are opaque numbers.
- coincheck.py is not modelled: a thin ticker fetch whose error handling repeats bitbank's.
- The plotting and time-series helpers of util.py are not modelled: they are matplotlib/pandas code over floating point.
- Float conversions (`float(size)`) and rounding are not modelled: sizes stay exact.
- GMO's shutdown record writes the summary's `sumPositionQuantity` string under "size" (wrappy/gmo.py:85). The model writes the same quantity as a number.
- `fetch_all_order_id` catches `TimeoutError` (wrappy/gmo.py:236). The model maps the `asyncio.wait_for` timeout to `[]`, which holds on Python 3.11 and later, where `asyncio.TimeoutError` is `TimeoutError`.
- `Util.Float` has no separate infinities: an infinite cell is an ordinary `Num`, which `np.isnan` keeps as well.
- Util.NpShift: `np_shift`'s defaults (`num=1`, `fill_value=np.nan`) are not modelled; callers pass both explicitly.
- numpy dtypes are not modelled: `Util.NpShift` works on any element type, and `Util.NpStack` on cells that are a number or NaN.
- The shift_jis encoding of the order-history file and its encoding errors are not modelled: rows hold JSON values.
- GMO's `self.position` (wrappy/gmo.py:26) is never updated by the source, so it is not modelled.
- GMO endpoints other than the order builders, cancel-all, the position summary and the active orders are not modelled.
- bitFlyer's `retry_count` (wrappy/bitflyer.py:20) is never read, so it is not modelled.
- bitbank's re-raise after more than `retry_count` failures is unreachable: the per-call failure counter is at most 1. The model has no re-raise branch.
- In bitbank's `cancel_all_orders`, the "40014" test returns None, as does every other refusal. Both branches are modelled and give the same result.

## Findings

| source | as written | input that shows it | evidently intended | confidence | as-written member | corrected member |
|---|---|---|---|---|---|---|
| wrappy/bitflyer.py:58 | `fetch_my_position` returns `{}` for an empty position list (lines 178-179), and `_cancel_and_liquidate` then reads `position["size"]`, raising KeyError; `stop` therefore never reaches `close_order_history_files` (lines 39-40) | `getpositions` answers status 200 with an empty list | with no position, skip flattening and still close the history files | not executed | Bitflyer.FlatStopNeverCloses | Bitflyer.CancelAndLiquidateRun |
| wrappy/bitbank.py:161-172 | `position` starts as the string "0" and is only replaced when an asset matches; `position + remaining_amount` then adds a string to a number, raising TypeError | a balance whose only asset is "jpy" | with no matching asset, the held amount is 0 and the position is the open sell remainder | not executed | Bitbank.PositionWithoutAssetRaises | Bitbank.PositionOf |

Notes on the model of the code as written:

- The bitFlyer shutdown record puts the position side under "size" and the size under "current_position" (wrappy/bitflyer.py:65-74). The model keeps this as written.
- For the first finding, `Bitflyer.CancelAndLiquidateRunAsWritten` and `Bitflyer.StopRunAsWritten` model the code as written. `Bitflyer.BitflyerClient` uses the corrected run.
- For the second finding, `Bitbank.PositionAsWritten` models the code as written. `Bitbank.BitbankClient.FetchMyPosition` uses `Bitbank.PositionOf`.
