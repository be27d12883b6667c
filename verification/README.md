# A verified model of the trading engine of `trading_bot_lib.py`

The engine runs bots on Binance USDC-margined futures. Each bot holds up to
`max_coins` symbols. For each symbol it keeps a position record: side, quantity,
entry price, averaging-down count, ROI high-water mark and the timers between
actions.

The entry signal combines a 14-period RSI with the direction of the last closed
candle's price and volume. Trades go in the direction whose open positions earn
more across the account. Positions close on take-profit, stop-loss or a
"smart exit" (ROI above a trigger together with an exit signal). Averaging down
follows a Fibonacci loss schedule.

A process-wide `CoinManager` records the symbols the bots hold, and the coin search skips them.

Every exchange call becomes an input to the model:
- the `exchangeInfo` reply;
- klines, positions, price and balance;
- the reply to an order: refused, or filled with an executed quantity and an average price;
- for the HTTP layer, the outcome each attempt meets.

Modules, one per component:

- `Common` (common.dfy): `Option`, the order side, absolute value, ASCII upper-casing and duplicate-free lists.
- `Html` (html.dfy): `escape_html`.
- `ApiRequest` (api_request.dfy): the retry loop of `binance_api_request`.
- `ExchangeInfo` (exchange_info.dfy): the USDC filter of `get_all_usdc_pairs`, `get_max_leverage` and `get_step_size`.
- `Registry` (registry.dfy): the `CoinManager` class.
- `Signal` (signal.dfy): `calculate_rsi`, the classification of `get_rsi_signal`, and the entry (20 %) and exit (40 %) signals.
- `CoinFinder` (coin_finder.dfy): `has_existing_position` and `find_best_coin`.
- `Position` (position.dfy): the per-symbol record and the pure transition each `BaseBot` record operation performs. It also holds the `WellFormed` invariant every transition keeps.
- `Bot` (bot.dfy): the `BaseBot` class. Its fields are the symbol list, the record map and the account statistics. Each method:
  - updates the fields step by step, as the source does;
  - is proved to produce exactly the state the matching `Position` function describes;
  - preserves the invariant: a bounded, duplicate-free symbol list, with exactly one well-formed record per symbol.

Prices, amounts and PnL are `real`. The Python floats are not modelled.

Where the code and its accompanying description disagree, the model follows the code:

- `get_next_side_based_on_comprehensive_analysis` picks the side with the HIGHER
  total unrealized PnL, not the lower.
- The signal table of `get_rsi_signal` is an `if/elif` chain. With RSI above 80, a flat
  price and falling volume, it gives no signal (`Classify`, `Overbought`).

## Model

| member | source | states |
|---|---|---|
| Common.Upper | trading_bot_lib.py:440 | upper-casing keeps the length and maps each character on its own |
| Common.UpperIdempotent | trading_bot_lib.py:644 | the upper-cased name is upper case, so registering it again changes nothing |
| Common.RemoveFirst | trading_bot_lib.py:1775-1776 | `list.remove` drops one occurrence of a present element, keeps every other element, leaves a list without it unchanged and keeps a duplicate-free list duplicate-free |
| Html.ReplaceAll | trading_bot_lib.py:92-96 | after replacing every `c` by a text without `c`, no `c` is left; a text without `c` is unchanged |
| Html.Escaped | trading_bot_lib.py:90-97 | the per-character escaping contains no `<`, `>` or `"` and is never shorter |
| Html.ReplaceAllAppend | trading_bot_lib.py:92-96 | one replacement pass distributes over concatenation |
| Html.ChainAppend | trading_bot_lib.py:92-96 | the four chained replacements distribute over concatenation |
| Html.ChainChar | trading_bot_lib.py:92-96 | on one character the chain gives that character's entity (`&` first, so no entity is escaped twice) |
| Html.EscapeHtmlIsPerCharacter | trading_bot_lib.py:90-97 | `escape_html` equals escaping each character on its own |
| Html.EscapeHtml | trading_bot_lib.py:90-97 | `escape_html`: `&` first, then `<`, `>` and `"`; see `EscapeHtmlIsPerCharacter`, `EscapeHtmlSafe` and `UnescapeEscaped` for what it guarantees |
| Html.UnescapeEscaped | trading_bot_lib.py:90-97 | decoding the four entities gives back the original text |
| Html.EscapeHtmlSafe | trading_bot_lib.py:90-97 | the escaped text contains no `<`, `>` or `"`, and loses no information |
| ApiRequest.Run | trading_bot_lib.py:305-373 | the request makes between 1 and 3 attempts and sleeps at most once per attempt, always 1, 2 or 4 s |
| ApiRequest.StepOf | trading_bot_lib.py:326-370 | one attempt of `binance_api_request`: return the body of a 200, `None` on a 401 or a 451, otherwise retry after the source's pause; see `RunUnfold`, `FailFast`, `RateLimitPause` and `TransientFailures` |
| ApiRequest.BinanceApiRequest | trading_bot_lib.py:305-373 | the `for attempt` loop returns exactly the result and the sleeps of `Run` |
| ApiRequest.RunUnfold | trading_bot_lib.py:306-370 | one attempt either ends the request with its result or sleeps its pause and goes on to the next attempt |
| ApiRequest.OnlyThreeAttemptsMatter | trading_bot_lib.py:305-306 | outcomes after the third attempt never matter |
| ApiRequest.FirstDecisiveWins | trading_bot_lib.py:330-359 | the first attempt that returns (a 200 with a body, a 401 or a 451) decides the result, and no attempt follows it |
| ApiRequest.NoDecisiveNoResult | trading_bot_lib.py:372-373 | with no decisive attempt among the three, the result is `None` after exactly 3 attempts |
| ApiRequest.FailFast | trading_bot_lib.py:337-338 | a first 401 (response or `HTTPError`) or `HTTPError` 451 gives `None` after one attempt, with no sleep |
| ApiRequest.FirstOkReturned | trading_bot_lib.py:330-333 | a first 200 with a parsed body returns that body at once |
| ApiRequest.RateLimitBackoff | trading_bot_lib.py:339-342 | three 429s sleep 1, 2 and 4 s and give `None` |
| ApiRequest.RateLimitPause | trading_bot_lib.py:339-363 | a 429 (response or `HTTPError`) at any of the three attempts sleeps `2 ** attempt` s, which is 1, 2 or 4, doubling from one attempt to the next, and the request goes on to the next attempt with the same result |
| ApiRequest.TransientFailures | trading_bot_lib.py:343-370 | a 5xx and a connection error sleep 1 s each, another HTTP error retries without sleeping |
| ExchangeInfo.TradingUsdc | trading_bot_lib.py:384-391 | the collected names are exactly those ending in `USDC` whose status is `TRADING`, never more than the entries; their order is `TradingUsdcKeepsOrder` |
| ExchangeInfo.TradingUsdcKeepsOrder | trading_bot_lib.py:384-388 | any two collected names are listed in that order by the exchange |
| ExchangeInfo.UsdcPairs | trading_bot_lib.py:375-395 | no data gives `[]`; otherwise a prefix of the trading USDC names of length exactly `min(count, limit)`, so the first `limit` of them, and all of them when `limit` is 0 or not reached |
| ExchangeInfo.FindSymbol | trading_bot_lib.py:439-440 | the first entry with exactly that name, or none when no entry has it |
| ExchangeInfo.LeverageOf | trading_bot_lib.py:441-446 | the cap of a LEVERAGE filter carrying one with no such filter before it, or none when no filter does |
| ExchangeInfo.LotStep | trading_bot_lib.py:466-470 | the step of a LOT_SIZE filter with no LOT_SIZE filter before it, or none when there is none |
| ExchangeInfo.StepFrom | trading_bot_lib.py:464-470 | the step of an entry of that name with a LOT_SIZE filter, no earlier entry of that name having one; none exactly when no entry of that name has one |
| ExchangeInfo.MaxLeverageDefault | trading_bot_lib.py:430-451 | the leverage cap is 100 or a cap listed in an entry of the upper-cased name; with no such entry it is 100 |
| ExchangeInfo.StepSizeDefault | trading_bot_lib.py:453-473 | the step size is 0.001 or a LOT_SIZE step listed in an entry of the upper-cased name |
| ExchangeInfo.LookupsIgnoreCase | trading_bot_lib.py:440 | both lookups give the same answer for a name and its upper-cased form |
| ExchangeInfo.GetMaxLeverage | trading_bot_lib.py:430-451 | `get_max_leverage`: the cap of the first entry of the upper-cased name, else 100; see `MaxLeverageDefault` and `LookupsIgnoreCase` |
| ExchangeInfo.GetStepSize | trading_bot_lib.py:453-474 | `get_step_size`: 0.001 for an empty name or no data, else the step of `StepFrom` for the upper-cased name or 0.001; see `StepSizeDefault` and `LookupsIgnoreCase` |
| Registry.ClaimedIgnoresCase | trading_bot_lib.py:655-661 | `is_coin_active` gives the same answer for a name and its upper-cased form |
| Registry.RegisterUnregister | trading_bot_lib.py:641-661 | after `register_coin` a name is active under any spelling of its case; after `unregister_coin`, under none; other claims are untouched |
| Registry.CoinManager.constructor | trading_bot_lib.py:636-639 | a manager starts with no claimed coin |
| Registry.CoinManager.RegisterCoin | trading_bot_lib.py:641-646 | adds the upper-cased name; an empty name changes nothing; names stay upper case |
| Registry.CoinManager.UnregisterCoin | trading_bot_lib.py:648-653 | discards the upper-cased name, absent or not; an empty name changes nothing |
| Registry.CoinManager.IsCoinActive | trading_bot_lib.py:655-661 | true exactly when the name is non-empty and its upper-cased form is claimed |
| Registry.CoinManager.GetActiveCoins | trading_bot_lib.py:663-667 | the list holds exactly the claimed names, each once |
| Signal.Gain | trading_bot_lib.py:690-691 | the positive part of a price change: positive exactly when the price rose |
| Signal.Loss | trading_bot_lib.py:690-692 | the negative part of a price change: positive exactly when the price fell; gain minus loss is the change |
| Signal.SumGains | trading_bot_lib.py:694 | the sum of the first `n` gains is 0 exactly when the price never rose in them |
| Signal.SumLosses | trading_bot_lib.py:695 | the sum of the first `n` losses is 0 exactly when the price never fell in them |
| Signal.Rsi | trading_bot_lib.py:682-709 | 50 with fewer than 15 prices; always between 0 and 100 |
| Signal.RsiIsGainShare | trading_bot_lib.py:697-705 | when some loss exists, `100 - 100/(1 + avgGain/avgLoss)` is the gains' share of all moves, in [0, 100) |
| Signal.RsiOfRisingPrices | trading_bot_lib.py:697-699 | with no loss in the first 14 changes the RSI is 100 |
| Signal.RsiOfFallingPrices | trading_bot_lib.py:697-705 | with no gain and some loss in the first 14 changes the RSI is 0 |
| Signal.RsiReadsFirstFifteen | trading_bot_lib.py:694-695 | the RSI depends on the first 15 prices only |
| Signal.Closes | trading_bot_lib.py:730 | the close prices of the klines, in order |
| Signal.RsiSignal | trading_bot_lib.py:711-783 | no klines or fewer than 15 give no signal; a signal always comes from a volume move between the last two closed candles |
| Signal.Classify | trading_bot_lib.py:741-779 | the band rules of `get_rsi_signal` on the last two closed candles; see `Overbought`, `Oversold`, `MidBand`, `SignalNeedsVolumeMove` and `DirectionsExclusive` |
| Signal.EntrySignal | trading_bot_lib.py:785-790 | `get_entry_signal`: `RsiSignal` with the 20 % volume threshold; see `RsiSignal` and `ChosenCoinQualifies` |
| Signal.ExitSignal | trading_bot_lib.py:792-797 | `get_exit_signal`: `RsiSignal` with the 40 % volume threshold; see `ExitMoveIsEntryMove` |
| Signal.DirectionsExclusive | trading_bot_lib.py:741-747 | price up and down never both hold, nor volume up and down |
| Signal.Overbought | trading_bot_lib.py:753-759 | above 80: SELL exactly on price up with volume up, BUY exactly on price up with volume down, nothing without a price rise |
| Signal.Oversold | trading_bot_lib.py:761-767 | below 20: SELL exactly on price down with volume down, BUY exactly on price down with volume up, nothing without a price fall |
| Signal.MidBand | trading_bot_lib.py:769-779 | from 20 to 80: BUY exactly when RSI > 20, price not down and volume down; SELL exactly when not that, RSI < 80, price not up and volume up |
| Signal.SignalNeedsVolumeMove | trading_bot_lib.py:741-779 | every signal needs the volume to move past the threshold |
| Signal.ExitMoveIsEntryMove | trading_bot_lib.py:785-797 | a volume move past the 40 % exit threshold is also past the 20 % entry threshold |
| CoinFinder.HasExistingPosition | trading_bot_lib.py:799-814 | true exactly when the exchange reports a non-zero amount for the symbol |
| CoinFinder.Candidates | trading_bot_lib.py:825-850 | a symbol is among the eligible ones exactly when it is scanned, not excluded, has no position, takes the leverage and signals the target side; there are never more of them than symbols scanned |
| CoinFinder.CandidatesKeepOrder | trading_bot_lib.py:827-847 | any two eligible symbols appear in the order they were scanned |
| CoinFinder.ScanCandidates | trading_bot_lib.py:825-850 | the scan loop collects exactly the eligible symbols (`Candidates`), in scan order |
| CoinFinder.FindBestCoin | trading_bot_lib.py:816-871 | the chosen coin is a candidate with no position at the re-check; no candidate gives no coin; no coin otherwise means the random pick held a position |
| CoinFinder.ChosenCoinQualifies | trading_bot_lib.py:820-850 | every candidate is a USDC pair, not excluded, with enough leverage and the wanted entry signal |
| Position.Reset | trading_bot_lib.py:1375-1389 | the position fields, averaging count, high-water mark, latch and close attempt are zeroed; the trade, close and averaging timers are kept |
| Position.NewRecordWellFormed | trading_bot_lib.py:1281-1298 | the zeroed record of `_add_symbol` satisfies the record invariant |
| Position.Roi | trading_bot_lib.py:1593-1602 | an ROI exists exactly when the invested amount `entry * abs(qty) / lev` is positive |
| Position.RoiIsLeveragedMove | trading_bot_lib.py:1593-1602 | the ROI is the relative price move in the position's favour, times the leverage, in percent |
| Position.FirstFor | trading_bot_lib.py:1333-1335 | a reported position of that symbol with none of that symbol before it, or none when none is reported |
| Position.Sync | trading_bot_lib.py:1323-1373 | the record is open exactly when the exchange reports a non-zero amount, then with that amount, side and entry price, with the averaging count, base entry, averaging time, high-water mark and close attempt kept, and with the smart exit armed exactly when it was armed or the price is known and the ROI at it reaches the trigger; otherwise the record is reset; the trade and close timers are kept |
| Position.Close | trading_bot_lib.py:1517-1579 | `_close_symbol_position`; see `CloseOutcome`, `CloseThrottled`, `CloseClearsAttempt`, `CloseKeepsTracking`, `CloseOrder`, `CloseSendsOrder` and `CloseWellFormed` |
| Position.CloseClearsAttempt | trading_bot_lib.py:1517-1579 | a close never leaves `close_attempted` set that was not set before |
| Position.CloseThrottled | trading_bot_lib.py:1527-1531 | an attempt within 30 s of an earlier one still flagged returns False and changes nothing beyond the re-sync |
| Position.CloseOutcome | trading_bot_lib.py:1533-1574 | a filled close records the close time and resets the record; a refused one keeps the position open and clears the attempt |
| Position.CloseOrder | trading_bot_lib.py:1536-1544 | the closing order is on the side opposite the re-synced position's, is positive and is as large as the position, so that a fill leaves nothing open |
| Position.CloseSendsOrder | trading_bot_lib.py:1519-1574 | the exchange's reply matters only when the closing order is sent; then the close succeeds exactly when it is filled |
| Position.TpSlDecision | trading_bot_lib.py:1617-1626 | take-profit fires exactly when ROI ≥ tp; stop-loss exactly when take-profit does not, sl > 0 and ROI ≤ -sl |
| Position.TpSlCheck | trading_bot_lib.py:1581-1628 | `_check_symbol_tp_sl`; see `TpSlDecision`, `TrackRoi`, `TpSlMonotone` and `TpSlWellFormed` |
| Position.TrackRoi | trading_bot_lib.py:1605-1615 | the high-water mark becomes the larger of itself and the ROI; the latch is set exactly when it was set or the mark reaches the trigger; nothing else changes |
| Position.TpSlMonotone | trading_bot_lib.py:1581-1628 | the TP/SL check never lowers the high-water mark of a record that stays open, never clears the latch, and closes only on a TP/SL decision |
| Position.CloseKeepsTracking | trading_bot_lib.py:1517-1579 | a close that leaves the position open keeps its high-water mark and latch |
| Position.SmartExitOnlyWhenArmed | trading_bot_lib.py:1171-1216 | the smart exit fires exactly when the position is open, the latch is set, the ROI reaches the trigger and there is an exit signal; otherwise the record is unchanged |
| Position.SmartExit | trading_bot_lib.py:1171-1216 | `_check_smart_exit_condition`; see `SmartExitOnlyWhenArmed` and `SmartExitWellFormed` |
| Position.FloorToStep | trading_bot_lib.py:1438-1439 | the floored quantity is a whole number of steps, at most the raw quantity and less than one step below it |
| Position.LotQuantity | trading_bot_lib.py:1435-1439 | the order size is `balance * percent/100 * lev / price`, floored to the lot step when the step is positive |
| Position.FloorToStepIdempotent | trading_bot_lib.py:1438-1439 | flooring a floored quantity changes nothing |
| Position.AverageDownOrder | trading_bot_lib.py:1700-1716 | the averaging order is on the position's own side, at least one lot step, and at most `percent * (count + 1)` percent of the balance, leveraged, in coins at the current price |
| Position.ExecuteAverageDown | trading_bot_lib.py:1687-1745 | `_execute_symbol_average_down`; see `AverageDownOrder`, `AverageDownSendsOrder`, `AverageDownFill` and `AverageDownExample` |
| Position.AverageDownSendsOrder | trading_bot_lib.py:1687-1727 | without an order the averaging fails and changes nothing; a successful averaging sent its order, and adds the executed amount to the signed size in the order's direction |
| Position.AverageDownFill | trading_bot_lib.py:1719-1727 | a successful averaging grows the size by the executed quantity on the position's side, moves the entry to the volume-weighted mean (between the old entry and the fill price) and changes nothing else |
| Position.AverageDownExample | trading_bot_lib.py:1700-1727 | 10 held at 100 plus a fill of 5 at 90 gives 15 at 290/3 |
| Position.AverageDownOnlyWhen | trading_bot_lib.py:1630-1685 | averaging fires exactly on an open record with a base entry, fewer than 7 averagings, 60 s since the last, a loss against the base entry at least the Fibonacci level, and a successful order; then the count rises by one and the timer is stamped; otherwise nothing changes |
| Position.AverageDownCheck | trading_bot_lib.py:1630-1685 | `_check_symbol_averaging_down`; see `AverageDownOnlyWhen`, `FibIncreasing` and `AverageDownWellFormed` |
| Position.FibIncreasing | trading_bot_lib.py:1667-1673 | each averaging level needs a deeper loss than the one before |
| Position.OpenPositionOutcome | trading_bot_lib.py:1391-1515 | a position is opened only when no position is held, the re-synced record is closed, the leverage cap suffices and is set, balance and price are positive, the order size reaches the lot step and the exchange confirms a non-negative fill; it is then open on the chosen side, entered at the fill price with the same averaging reference, sized by the fill, with no averaging or ROI history; a held position always drops the symbol; keeping the symbol without opening leaves the re-synced record |
| Position.OpenPosition | trading_bot_lib.py:1391-1430 | the checks of `_open_symbol_position` before the order; see `OpenPositionOutcome`, `OpeningOrder`, `OpeningSendsOrder` and `OpenWellFormed` |
| Position.PlaceOpening | trading_bot_lib.py:1432-1510 | the order part of `_open_symbol_position`; see `OpenPositionOutcome`, `OpeningLot` and `OpeningSendsOrder` |
| Position.OpeningOrder | trading_bot_lib.py:1391-1454 | an opening order is sent only when no position is held, the re-synced record is closed, the leverage is set, balance and price are positive; it is on the wanted side, positive, at least one lot step and at most `percent` percent of the balance, leveraged, in coins |
| Position.OpeningLot | trading_bot_lib.py:1435-1454 | the sized order is on the wanted side, positive, at least one lot step and at most `percent` percent of the balance, leveraged, in coins; none below one step |
| Position.OpeningSendsOrder | trading_bot_lib.py:1391-1510 | the exchange's reply matters only when the opening order is sent; an opened position holds the executed amount in the order's direction |
| Position.OpenWellFormed | trading_bot_lib.py:1391-1515 | opening keeps the record invariant |
| Position.NoReentryWithinHour | trading_bot_lib.py:1144-1145 | after a filled close, no entry is allowed for an hour |
| Position.EntryAllowed | trading_bot_lib.py:1144-1145 | the entry gate of `_process_single_symbol`: more than 60 s since the last trade and 3600 s since the last close; see `NoReentryWithinHour` and `EntryGateExamples` |
| Position.EntryGateExamples | trading_bot_lib.py:1144-1145 | 1800 s after a close the gate is shut, 3601 s after it is open |
| Position.SyncWellFormed | trading_bot_lib.py:1323-1373 | syncing with the exchange keeps the record invariant |
| Position.ResetWellFormed | trading_bot_lib.py:1375-1389 | a reset keeps the record invariant |
| Position.CloseWellFormed | trading_bot_lib.py:1517-1579 | a close keeps the record invariant |
| Position.TpSlWellFormed | trading_bot_lib.py:1581-1628 | the TP/SL check keeps the record invariant |
| Position.SmartExitWellFormed | trading_bot_lib.py:1171-1216 | the smart exit keeps the record invariant |
| Position.AverageDownWellFormed | trading_bot_lib.py:1630-1685 | averaging down keeps the record invariant |
| Bot.TallyOne | trading_bot_lib.py:1838-1848 | one position counts as long exactly when its amount is positive, as short exactly when negative |
| Bot.TallyOf | trading_bot_lib.py:1834-1848 | there are never more long and short positions together than positions |
| Bot.TallyAppend | trading_bot_lib.py:1834-1848 | the statistics of two lists together are the sums of their statistics |
| Bot.FlatPositionIgnored | trading_bot_lib.py:1841-1846 | a flat position changes neither the counts nor the PnL totals |
| Bot.Aggregate | trading_bot_lib.py:1834-1848 | the counting loop computes exactly `TallyOf` |
| Bot.NextSide | trading_bot_lib.py:1866-1876 | BUY exactly when long PnL is higher or tied with a BUY pick; SELL exactly when short PnL is higher or tied with a SELL pick |
| Bot.NextSideSymmetric | trading_bot_lib.py:1866-1876 | swapping the long and short books swaps the chosen side |
| Bot.Rotated | trading_bot_lib.py:1094-1095 | the rotation is a permutation of the symbol list |
| Bot.RotatedTimesSplit | trading_bot_lib.py:1094-1095 | `k` rounds move the first `k` symbols, in order, behind the others |
| Bot.FullCycle | trading_bot_lib.py:1094-1095 | as many rounds as symbols give the list back |
| Bot.RotatedDistinct | trading_bot_lib.py:1094-1095 | the rotation keeps the list free of duplicates |
| Bot.RemoveAppended | trading_bot_lib.py:1300-1312 | removing a symbol just appended to a list without it restores the list |
| Bot.RunStep | trading_bot_lib.py:1055-1103 | a round cools down exactly when the last trade was less than 3 s ago; it adds a coin only below `max_coins` with a coin found; it processes the head only with symbols and no coin added |
| Bot.RunGates | trading_bot_lib.py:1055-1071 | nothing is processed within 3 s of a trade, and a full bot never adds a coin |
| Bot.GlobalCheckDue | trading_bot_lib.py:1049 | the account recount is due when the last one is more than 10 s old; see `PeriodicGlobalCheck` |
| Bot.BaseBot.constructor | trading_bot_lib.py:977-1014 | a bot starts with no symbol, no record, zero statistics, and the trade-completion and global-check timers at 0 |
| Bot.BaseBot.CheckSymbolPosition | trading_bot_lib.py:1323-1373 | the record becomes `Sync` of itself; a symbol without a record is left alone |
| Bot.BaseBot.ResetSymbolPosition | trading_bot_lib.py:1375-1389 | the record becomes `Reset` of itself; a symbol without a record is left alone |
| Bot.BaseBot.CloseSymbolPosition | trading_bot_lib.py:1517-1579 | the result and the new record are those of `Close`, and the order sent is `CloseOrder`; nothing else changes; the bot invariant holds |
| Bot.BaseBot.CheckSymbolTpSl | trading_bot_lib.py:1581-1628 | the result and the new record are those of `TpSlCheck`; nothing else changes; the bot invariant holds |
| Bot.BaseBot.TrackSymbolRoi | trading_bot_lib.py:1605-1615 | the record becomes `TrackRoi` of itself for an open position; the bot invariant holds |
| Bot.BaseBot.CheckSmartExitCondition | trading_bot_lib.py:1171-1216 | the result and the new record are those of `SmartExit`; a symbol without a record gives False; nothing else changes; the bot invariant holds |
| Bot.BaseBot.ExecuteSymbolAverageDown | trading_bot_lib.py:1687-1745 | the result and the new record are those of `ExecuteAverageDown`, and the order sent is `AverageDownOrder`; nothing else changes; the bot invariant holds |
| Bot.BaseBot.CheckSymbolAveragingDown | trading_bot_lib.py:1630-1685 | the result and the new record are those of `AverageDownCheck`; nothing else changes; the bot invariant holds |
| Bot.BaseBot.OpenSymbolPosition | trading_bot_lib.py:1391-1430 | the result and the new state are those of `OpenPosition`, and the order sent is `OpeningOrder`: an abandoned attempt stops the symbol, a kept one installs the new record; nothing else changes; the bot invariant holds |
| Bot.BaseBot.PlaceOpeningOrder | trading_bot_lib.py:1432-1510 | the result and the new state are those of `PlaceOpening`, and the order sent is `OpeningLot`; nothing else changes; the bot invariant holds |
| Bot.BaseBot.ConfirmOpening | trading_bot_lib.py:1459-1493 | after a fill the record becomes `Sync` of itself, and the fill is adopted as a fresh position on the chosen side exactly when the exchange confirms it; nothing else changes; the bot invariant holds |
| Bot.BaseBot.StopSymbol | trading_bot_lib.py:1747-1786 | an unknown symbol gives False and changes nothing; otherwise an open position is closed first, then the symbol leaves the list, the record map and the registry; no other field changes; the bot invariant holds |
| Bot.BaseBot.AddSymbol | trading_bot_lib.py:1264-1315 | a duplicate, a full bot or a held position is refused with nothing changed; otherwise the symbol is added exactly when the sync finds no position, with its synced record, and registered; a position found after the sync removes it again, releasing its claim; the list stays duplicate-free and within `max_coins` |
| Bot.BaseBot.FinishRound | trading_bot_lib.py:1090-1095 | stamps the trade-completion time and rotates the symbol list; the bot invariant holds |
| Bot.BaseBot.PeriodicGlobalCheck | trading_bot_lib.py:1049-1052 | the statistics are recounted and the check time stamped exactly when the last check is more than 10 s old |
| Bot.BaseBot.CheckGlobalPositions | trading_bot_lib.py:1816-1855 | the statistics become `TallyOf` the account's positions; no symbol state changes |
| Bot.BaseBot.GetNextSide | trading_bot_lib.py:1857-1876 | after a recount, the side is `NextSide` of the new long and short PnL: BUY exactly when long PnL is higher, SELL exactly when short PnL is higher, the random pick `tie` on equal PnL; only the statistics change |

## Left out

- Network, websocket and Telegram I/O, and HMAC signing. Every exchange answer is an input: the `exchangeInfo` reply, klines, positions, price, balance, the order reply and the HTTP outcome of each attempt. `get_positions`, `get_klines`, `get_balance`, `get_current_price`, `place_order`, `set_leverage` and `sign` are not part of this model.
- Threads, locks, sleeps and the daemon threads:
  - Each locked section is one atomic method.
  - `threading.Lock` is not re-entrant, so `_add_symbol` calling `stop_symbol` under the same lock would block in Python. The model runs `stop_symbol` in full there.
  - The same holds on the main path. `_find_and_add_new_coin` holds `symbol_management_lock` (trading_bot_lib.py:1220) and calls `_add_symbol` (1243), which takes the same lock again (1266). `_delayed_find_new_coin` goes through the same call. In Python every search that finds a usable coin would therefore block its thread. The `AddedCoin` step of `RunStep` is reachable only because the model reads each locked section as one atomic operation.
  - The 10-second wait for `current_processing_symbol` in `stop_symbol` is not modelled.
  - The new-coin search that `stop_symbol` starts in a thread (`_delayed_find_new_coin`) is not modelled.
- Python floats and `round(qty, 8)`. Arithmetic is over exact reals, with an exact floor to the lot step.
- Upper-casing covers ASCII letters only; Python's `str.upper` handles all of Unicode.
- Exceptions caught by the source's `try` blocks become the error branches they lead to (a result of False, None or a default). A lookup of a symbol without a record is a precondition of the methods whose source would raise outside a handler.
- The registry does not keep two bots from holding the same symbol. `_add_symbol` registers a symbol without asking the registry, and only the coin search reads it (as the excluded symbols). The bot invariant links its own list to its record map, not to the registry.
- `random.choice`: a nondeterministic choice in `FindBestCoin`, and the parameter `tie` of `GetNextSide`.
- Logging, the `status`, `current_price` and `last_position_check` record fields, and the price-update callback.
- `_open_symbol_position` is modelled with every branch. Only its `cancel_all_orders` call is left out, along with its messages.
- `_find_and_add_new_coin` and `get_top_volume_symbols` are not part of this model. `FindBestCoin` models the search they run.
- `_process_single_symbol` is modelled only through its entry gate (`EntryAllowed`); the operations it calls are each a method of `BaseBot`. `_run` is modelled through its gates (`RunStep`, `PeriodicGlobalCheck`) and its rotation (`FinishRound`).
- The stamp of `last_trade_time` after a successful open in `_process_single_symbol` (trading_bot_lib.py:1163) is not modelled. No method changes `lastTradeTime` after the record is created, so it stays at 0. In the states the model reaches, the 60-second half of `EntryAllowed` therefore only shuts the gate in the first 60 s; after that only the one-hour delay after a close has an effect.
- The initial `_add_symbol` call in `BaseBot.__init__` is left to the caller of the constructor (`AddSymbol`).
- `get_all_usdc_pairs` and `get_positions` on an exception return `[]`, the same as no data.
- Leverage is at least 1 by type.
- `Bot.BaseBot.ExecuteSymbolAverageDown`, `Bot.BaseBot.CheckSymbolTpSl`, `Bot.BaseBot.CheckSymbolAveragingDown`, `Bot.BaseBot.CloseSymbolPosition` and `Bot.BaseBot.ConfirmOpening` require the symbol to have a record. All their callers ensure this. `Bot.BaseBot.OpenSymbolPosition` requires the symbol to be one of the bot's, which its only caller (`_process_single_symbol`) ensures. Where the record is missing, the source catches the `KeyError`, stops the symbol and returns False (trading_bot_lib.py:1512-1515); the model does not cover that path. `Bot.BaseBot.ExecuteSymbolAverageDown` also requires an open position, which its only caller has checked.
- `has_existing_position` answers True when reading the positions raises an exception. In the model the exchange's reported amounts are the input, and this error path is not modelled.
- The `WellFormed` record invariant includes `close_attempted` being False between operations. Every exit path of `_close_symbol_position` clears the flag, so with one call at a time the 30-second throttle never refuses (`CloseThrottled` covers the flagged state on its own).
