# neo-babix trading bot: a Dafny model of its decision and pricing core

neo-babix is a Python bot that, on every candle, asks a strategy for a signal
(LONG, SHORT or NOTHING). It then runs a *playbook* that enters a position and
brackets it with a take-profit order and a stop order. This project models the
parts of the bot that decide and price trades, and proves properties of them.

- **Playbook lifecycle** (`playbook.dfy`). The shared trade lock is a class
  with a `locked` flag. A playbook takes the lock when it is built, but only if
  the lock is free. `Play` runs the four hooks (entry, after_entry, exit,
  after_exit) in that order, then releases the lock unless the playbook is
  recursive. Every effect on a collaborator is appended to the playbook's
  `trace` of events: the lock, exchange orders, cancellations and
  notifications.
- **FractalismFibo** (`fractalismfibo.dfy`):
  - configuration checks;
  - the Fibonacci level table;
  - the last valid fractal beyond the latest close;
  - the stop, stop-limit and exit prices with their error cases;
  - the PnL formulas;
  - the bracket orders of `exit`;
  - the settlement in `after_exit`, which cancels the sibling of the filled order.
- **HitAndRun** (`hitandrun.dfy`): the five required settings, the percentage
  bracket for LONG and SHORT prices, the two bracket orders, and the single
  exit notification.
- **DCA** (`dca.dfy`): SHORT is refused. The model covers `str.split`, the
  quote currency of the symbol, the free-balance lookup, the balance gate,
  and the price properties, which are always None.
- **Indicators**:
  - `billwilliams.dfy` covers the fractals, MFI, and the Alligator trim-and-seed
    loop, which is a method over an array;
  - `movingaverages.dfy` covers SMMA's roll and backfill, also a method over an
    array.
- **Strategies**: the `filter` of WiseWilliams, EMA528DCA, MoonPhaseBuy
  (together with `moon_phase`) and BuyEveryWeek (`wisewilliams.dfy`,
  `ema528dca.dfy`, `moonphasebuy.dfy`, `buyeveryweek.dfy`).
- **Entry points** (`neobabix.dfy`): the exchange client choice, the split of
  OHLCV rows into columns, the strategy registry, and what `tick` hands to the
  strategy.
- **Shared pieces**:
  - `common.dfy` models Python exceptions as `Result`/`Outcome` values, and also
    holds `int()`, `float()`, `"%d"` and an ASCII-only `str.upper()`;
  - `precision.dfy` models ccxt's `decimal_to_precision(..., TRUNCATE)` as
    `Trunc(x, p)`, truncation toward zero at `p` decimal places.

Modelling conventions:
- Prices are exact `real`s.
- Environment variables are `Option<string>` parameters.
- Exchange replies (orders, balances, candles, polled orders) are parameters.
- A Python exception becomes an `Err`/`Fail` value carrying the exception's
  class and, where the code gives one, its message.
- Python's evaluation order and short-circuiting decide which reads can raise
  `IndexError`. The model keeps that order: for example, in WiseWilliams the
  teeth and jaws are read only after the earlier comparisons have held.

Some behaviour of the code is easy to misread; the model keeps it as written:
- **PnL.** after_exit divides entry by exit for a SHORT that won and for a
  LONG that lost (`neobabix/playbooks/fractalismfibo.py:257-262`). A SHORT won
  from entry 100 to exit 90 therefore makes 100/9 % (11.11…%), and a LONG lost
  from 100 to 90 makes −100/9 % (`FractalismFibo.PnlNinetyExamples`).
- **Exit price.** FractalismFibo's `exit_price`
  (`neobabix/playbooks/fractalismfibo.py:127-152`) returns a level of the
  Fibonacci table without truncating it, while its stop prices are truncated
  (lines 92-125). The LONG take-profit is a fraction of the highest high
  (lines 64-67 and 135-143), so it can lie below the entry price: entering at
  90 under a high of 100, level 1 places its limit sell at 61.8
  (`FractalismFibo.LongTakeProfitBelowEntry`). The LONG stop is bounded by the
  latest close but not by the entry price, so it can lie above the entry
  (`FractalismFibo.LongStopAboveEntry`).
- **Lock release.** The playbook docstring (`neobabix/playbooks/playbook.py:13`)
  gives the flow as play, the four hooks, then release. `release_trade_lock`
  (`neobabix/playbooks/playbook.py:59-60`) calls `Lock.release()`
  unconditionally, so releasing an unheld lock raises RuntimeError
  (`Playbooks.Playbook.ReleaseTradeLock`). `play` (lines 28-35) has no
  `try/finally`, so a hook that raises ends it with the lock still held.
- **The pointless guards.** `UpFractal`'s guard `n < 6 or n < len(highs)`
  (`neobabix/indicators/billwilliams.py:56`) is true for every bar, so it never
  marks a fractal. As a result, a SHORT FractalismFibo trade can never price
  its stop. `DownFractal`'s guard `n > len(lows)` (line 82) excludes nothing, so
  the last bars can read past the end. HitAndRun's SHORT stop is computed from
  TAKE_PROFIT_IN_PERCENT (`neobabix/playbooks/hitandrun.py:120`). The model
  states each of these as a lemma.
- **Moon light.** The comment at `neobabix/strategies/moonphasebuy.py:32` says
  light should be 100% 15 days into the phase. `int(2 * d * 100 / 29)` at line
  33 gives 103 on day 15, folded to 97, and that is the highest value
  (`MoonPhaseBuy.LightPeak`).
- **Order attributes.** No playbook initialises `order_entry`, `order_exit`
  or `order_stop`. A hook that reads one before it is assigned raises
  AttributeError. DCA never assigns `order_entry` at all, so its
  `after_entry` always raises (`Dca.DCA.AfterEntry`).

## Model

| member | source | states |
|---|---|---|
| Common.ActionValue | neobabix/strategies/strategy.py:5-8 | LONG is 1, SHORT is -1, NOTHING is 0, and no other value occurs |
| Common.PyInt | neobabix/playbooks/fractalismfibo.py:44-48 | int() of an unset variable raises TypeError; text that is not an optional sign and digits raises ValueError; otherwise the integer it denotes |
| Common.PyIntOfIntToString | neobabix/playbooks/fractalismfibo.py:44-48 | a variable set to the decimal text of i reads back as i |
| Common.ParseIntToString | neobabix/playbooks/fractalismfibo.py:44-48 | parsing the decimal text of any integer gives that integer back |
| Common.NatToStringValue | neobabix/strategies/moonphasebuy.py:36 | the digits written for a natural number denote that number |
| Common.PyFloat | neobabix/playbooks/hitandrun.py:40 | float() succeeds exactly on a decimal number and gives its value; anything else raises ValueError |
| Common.ParseDecimalOfInt | neobabix/playbooks/hitandrun.py:40-58 | float() reads the decimal text of any integer back as that integer |
| Common.IndexOf | neobabix/playbooks/dca.py:29 | the position of the first occurrence of a character, or None exactly when it does not occur |
| Common.Upper | neobabix/playbooks/dca.py:36 | an ASCII upper-casing that keeps the length, raises each letter 'a'..'z' and leaves every other character (ASCII only, see Left out) |
| Precision.TruncBounds | neobabix/playbooks/fractalismfibo.py:99-101 | a non-negative price truncates to a value between 0 and itself, less than one step 10^-p below it |
| Precision.TruncBoundsNegative | neobabix/playbooks/fractalismfibo.py:116-118 | a negative price truncates toward zero, by less than one step |
| Precision.TruncGreatest | neobabix/playbooks/hitandrun.py:87-89 | the truncation of a non-negative price is the largest grid price not above it |
| Precision.TruncMonotone | neobabix/playbooks/hitandrun.py:95-100 | truncation preserves the order of prices |
| Precision.TruncOnGridPrice | neobabix/playbooks/hitandrun.py:87-89 | a price already on the grid is unchanged |
| Precision.TruncIdempotent | neobabix/playbooks/hitandrun.py:87-89 | a truncated price lies on the grid, so truncating again changes nothing |
| Precision.TruncExample | neobabix/playbooks/fractalismfibo.py:99-101 | 123.4567 at two places truncates to 123.45 |
| Playbooks.Placements | neobabix/playbooks/playbook.py:72-91 | the count of order placements in a trace, zero exactly when no event places an order |
| Playbooks.Cancellations | neobabix/playbooks/fractalismfibo.py:233-238 | the ids of the cancelled orders, empty when no event cancels |
| Playbooks.OccurrencesAppend | neobabix/playbooks/playbook.py:28-32 | occurrences of an event in a concatenation add up |
| Playbooks.HookIndex | neobabix/playbooks/playbook.py:28-32 | each hook has its own position among the four, in play's order |
| Playbooks.OccurrencesInPrefix | neobabix/playbooks/playbook.py:28-32 | a prefix of the four hook markers holds a hook once exactly when the hook's position is inside it |
| Playbooks.HooksRunOnceInOrder | neobabix/playbooks/playbook.py:28-32 | play starts every hook exactly once, or up to the one that raises, and never repeats one |
| Playbooks.TradeLock.constructor | app.py:16 | a fresh lock is free |
| Playbooks.Playbook.constructor | neobabix/playbooks/playbook.py:16-26 | the lock is held afterwards; it is acquired (and the acquisition traced) only when it was free; no order is placed |
| Playbooks.Playbook.ReleaseTradeLock | neobabix/playbooks/playbook.py:59-60 | a held lock is released and traced; an unheld one raises RuntimeError and the trace is unchanged |
| Playbooks.Playbook.Finish | neobabix/playbooks/playbook.py:34-35 | a recursive playbook keeps the lock and its trace; otherwise the lock is released |
| Playbooks.Playbook.StartHook | neobabix/playbooks/playbook.py:29-32 | the hook's start is appended to the trace; the result says whether this hook raises |
| Playbooks.Playbook.Play | neobabix/playbooks/playbook.py:28-35 | the hooks run in order; a raising hook ends play with its error, later hooks unrun and the lock untouched; otherwise the lock is released exactly when not recursive |
| Playbooks.Playbook.MarketBuyOrder | neobabix/playbooks/playbook.py:72-79 | without market orders: AttributeError and nothing placed; otherwise one market buy of the symbol and amount, and the exchange's order returned |
| Playbooks.Playbook.LimitBuyOrder | neobabix/playbooks/playbook.py:81-85 | one limit buy with the symbol, amount and price unchanged; the exchange's order is returned |
| Playbooks.Playbook.LimitSellOrder | neobabix/playbooks/playbook.py:87-91 | one limit sell with the symbol, amount and price unchanged; the exchange's order is returned |
| Playbooks.Playbook.MarketSellOrder | neobabix/playbooks/fractalismfibo.py:163-165 | one market sell of the symbol and amount |
| Playbooks.Playbook.LimitStopSellOrder | neobabix/playbooks/hitandrun.py:109-111 | one stop sell with its stop, limit and base prices as given |
| Playbooks.Playbook.LimitStopBuyOrder | neobabix/playbooks/hitandrun.py:137-139 | one stop buy with its stop, limit and base prices as given |
| Playbooks.Playbook.SetLeverage | neobabix/playbooks/fractalismfibo.py:156-158 | the leverage setting is traced |
| Playbooks.Playbook.CancelOrder | neobabix/playbooks/fractalismfibo.py:233 | the cancellation of that order id is traced |
| Playbooks.Playbook.OpenPosition | neobabix/playbooks/fractalismfibo.py:154-165 | the leverage first when configured, then a market buy for LONG (or AttributeError without market orders) or a market sell for SHORT; nothing without a side |
| Playbooks.Playbook.AnnounceEntry | neobabix/playbooks/hitandrun.py:73-79 | with an entry order, one entry notification with its price and the amount; with none placed, the missing-attribute error and no effect |
| Playbooks.Playbook.Notify | neobabix/playbooks/fractalismfibo.py:212-216 | the notification is appended to the trace |
| BillWilliams.SliceEnd | neobabix/indicators/billwilliams.py:19 | the end of a Python slice: the stop itself when in range, counted from the end when negative |
| BillWilliams.KeptLength | neobabix/indicators/billwilliams.py:19 | how many values s[0:len(s)-drop] keeps, including the negative-index case of a short series |
| BillWilliams.TrimAndSeed | neobabix/indicators/billwilliams.py:19-21 | the kept prefix of the smoothed series with its first five values overwritten by lows[0]; IndexError when fewer than five are kept or lows is empty |
| BillWilliams.WilliamsAlligatorJaws | neobabix/indicators/billwilliams.py:12-23 | the smoothed series less its last 12 values, its first five set to lows[0] |
| BillWilliams.WilliamsAlligatorTeeth | neobabix/indicators/billwilliams.py:26-37 | the smoothed series less its last 7 values, its first five set to lows[0] |
| BillWilliams.WilliamsAlligatorLips | neobabix/indicators/billwilliams.py:40-51 | the smoothed series less its last 4 values, its first five set to lows[0] |
| BillWilliams.UpFractal | neobabix/indicators/billwilliams.py:54-77 | one entry per bar |
| BillWilliams.UpFractalNeverMarks | neobabix/indicators/billwilliams.py:56-57 | as written, the guard holds for every bar, so no bar is ever marked |
| BillWilliams.EvalChain | neobabix/indicators/billwilliams.py:85-94 | an `and` chain of comparisons raises only by reading past the end |
| BillWilliams.EvalChainInside | neobabix/indicators/billwilliams.py:85-96 | inside the series the chain evaluates to whether every comparison holds |
| BillWilliams.DownFractalAt | neobabix/indicators/billwilliams.py:81-99 | a marked bar is at index 6 or later and carries its own low; failure is IndexError |
| BillWilliams.DownFractalUpTo | neobabix/indicators/billwilliams.py:101 | succeeds exactly when every bar does, with one entry per bar equal to that bar's result |
| BillWilliams.DownFractalAtInside | neobabix/indicators/billwilliams.py:82-94 | a bar whose window lies inside the series never raises |
| BillWilliams.DownFractalShape | neobabix/indicators/billwilliams.py:82-101 | one entry per bar, the first six unmarked, every mark equal to the bar's low |
| BillWilliams.DownFractalAtPatterns | neobabix/indicators/billwilliams.py:85-97 | inside the series a bar is marked exactly when one of the five patterns holds |
| BillWilliams.DownFractalStrictLow | neobabix/indicators/billwilliams.py:85-86 | a bar strictly below its two neighbours on each side is a down fractal |
| BillWilliams.DownFractalPlateau | neobabix/indicators/billwilliams.py:87-88 | a one-bar plateau on the left is still a down fractal |
| BillWilliams.DownFractalFallingSeriesRaises | neobabix/indicators/billwilliams.py:82-94 | for a falling series the last bars read past the end and raise |
| BillWilliams.MfiCode | neobabix/indicators/billwilliams.py:6-9 | the colour codes lie in 1..4 |
| BillWilliams.Mfi | neobabix/indicators/billwilliams.py:134-136 | one entry per bar |
| BillWilliams.MfiClassification | neobabix/indicators/billwilliams.py:111-132 | green when volume and facilitation both rise, gray when both fall, red and yellow for the mixed cases, no colour on a tie |
| BillWilliams.MfiFirstBars | neobabix/indicators/billwilliams.py:108-109 | the first two bars have no colour |
| MovingAverages.Roll | neobabix/indicators/movingaverages.py:8 | the rolled series has the input's length |
| MovingAverages.RollShape | neobabix/indicators/movingaverages.py:8 | rolling by k is the right shift by k with the last k values wrapped to the front |
| MovingAverages.ShiftedTail | neobabix/indicators/movingaverages.py:8 | past the head, the rolled series holds the input shifted right |
| MovingAverages.Smma | neobabix/indicators/movingaverages.py:8-10 | succeeds exactly when the offset is 0 or at most half the length (IndexError otherwise); same length; value j is ewm[j-offset] past the offset and ewm[j] before it |
| MovingAverages.SmmaZeroOffset | neobabix/indicators/movingaverages.py:8-10 | a zero offset leaves the series unchanged |
| FractalismFibo.FiboSettings | neobabix/playbooks/fractalismfibo.py:40-50 | accepted exactly when MODAL_DUID is non-empty, PRICE_DECIMAL_PLACES is an integer and EXIT_LEVEL_UP a non-zero integer; each refusal raises what the code raises, in its order: NotImplementedError for MODAL_DUID, then int()'s TypeError or ValueError for PRICE_DECIMAL_PLACES, then for EXIT_LEVEL_UP, then NotImplementedError for a zero level |
| FractalismFibo.FiboSettingsAccepts | neobabix/playbooks/fractalismfibo.py:44-50 | any non-empty MODAL_DUID, any decimal places and any non-zero level are read back as configured |
| FractalismFibo.FiboSettingsRefusesLevelZero | neobabix/playbooks/fractalismfibo.py:48-50 | EXIT_LEVEL_UP 0 is refused |
| FractalismFibo.MaxOf | neobabix/playbooks/fractalismfibo.py:60 | the highest high is one of the highs and no high exceeds it |
| FractalismFibo.MinOf | neobabix/playbooks/fractalismfibo.py:61 | the lowest low is one of the lows and no low is below it |
| FractalismFibo.FiboLevels | neobabix/playbooks/fractalismfibo.py:55-72 | '1000' is the highest high, '0' the lowest low, every other key its fraction of the highest high; empty candles raise |
| FractalismFibo.FiboLevelsOrdered | neobabix/playbooks/fractalismfibo.py:63-72 | with a positive highest high the fractional levels rise with their keys |
| FractalismFibo.FiboLevelsNotOfRange | neobabix/playbooks/fractalismfibo.py:63-72 | for lows at 100 and highs at 200 the '500' level is 100, half the high, not the midpoint 150 of the range; the whole table is given |
| FractalismFibo.LastBeyond | neobabix/playbooks/fractalismfibo.py:77-81 | the last fractal strictly beyond the current price, or None exactly when there is none |
| FractalismFibo.LastValidUpFractal | neobabix/playbooks/fractalismfibo.py:74-81 | an up fractal strictly above the latest close; IndexError without candles |
| FractalismFibo.LastValidDownFractal | neobabix/playbooks/fractalismfibo.py:83-90 | a down fractal strictly below the latest close; IndexError without candles |
| FractalismFibo.NoValidUpFractal | neobabix/playbooks/fractalismfibo.py:74-81 | over the indicator's up fractals there is never a valid one |
| FractalismFibo.TruncFractal | neobabix/playbooks/fractalismfibo.py:99-101 | a present fractal is truncated; a missing one raises |
| FractalismFibo.LongStops | neobabix/playbooks/fractalismfibo.py:92-125 | a LONG stop is the truncated down fractal d and its limit the truncated d-10, the limit never above the stop, and for non-negative d the stop is below the latest close |
| FractalismFibo.LongStopsNeedFractal | neobabix/playbooks/fractalismfibo.py:97-118 | without a valid down fractal both LONG stop prices raise |
| FractalismFibo.ShortStopsUnavailable | neobabix/playbooks/fractalismfibo.py:102-123 | with the indicator's up fractals both SHORT stop prices raise |
| FractalismFibo.LongTakeProfitBelowEntry | neobabix/playbooks/fractalismfibo.py:135-143 | entering LONG at 90 under a high of 100, level 1 takes profit at 61.8, below the entry |
| FractalismFibo.LongTakeProfitBelowHighEntries | neobabix/playbooks/fractalismfibo.py:135-143 | for every entry above 0.618 of the highest high, the level-1 LONG take-profit lies below the entry |
| FractalismFibo.LongStopAboveEntry | neobabix/playbooks/fractalismfibo.py:92-106 | the LONG stop is bounded by the latest close only: a fill at 50 with the last valid down fractal at 80 under a close of 100 stops at 80, above the entry |
| FractalismFibo.ExitPriceLong | neobabix/playbooks/fractalismfibo.py:135-143 | LONG levels 1..4 exit at 0.618, 0.65 and 0.786 of the highest high and at the highest high itself |
| FractalismFibo.ExitPriceShort | neobabix/playbooks/fractalismfibo.py:144-150 | SHORT levels 1..3 exit at 0.382 and 0.236 of the highest high and at the lowest low |
| FractalismFibo.ExitPriceRefusals | neobabix/playbooks/fractalismfibo.py:128-152 | levels above 4 raise NotImplementedError; a SHORT level 4 or below 1 raises TypeError; a LONG level below 1 gives None; no entry gives None |
| FractalismFibo.ExitPriceLongRises | neobabix/playbooks/fractalismfibo.py:135-143 | a higher LONG level exits at a strictly higher price |
| FractalismFibo.PercentChange | neobabix/playbooks/fractalismfibo.py:256 | a/b·100−100 when b is not zero; division by zero raises, and 0/0 is an invalid operation |
| FractalismFibo.PnlPercent | neobabix/playbooks/fractalismfibo.py:253-264 | without a side the pnl raises TypeError |
| FractalismFibo.PnlLongWonExample | neobabix/playbooks/fractalismfibo.py:255-256 | a LONG won from 100 to 110 makes 10% |
| FractalismFibo.PnlNinetyExamples | neobabix/playbooks/fractalismfibo.py:255-262 | a SHORT won and a LONG lost from 100 to 90 make +100/9% and −100/9% |
| FractalismFibo.PnlShortMirrorsLong | neobabix/playbooks/fractalismfibo.py:255-262 | a SHORT's pnl is a LONG's with entry and exit exchanged |
| FractalismFibo.PnlDefined | neobabix/playbooks/fractalismfibo.py:253-264 | the pnl is defined exactly when there is a side and the divisor is not zero |
| FractalismFibo.RatioAboveOne | neobabix/playbooks/fractalismfibo.py:256 | for positive prices a/b·100−100 is positive exactly when a > b and zero exactly when they agree |
| FractalismFibo.SignOfProduct | neobabix/playbooks/fractalismfibo.py:256 | multiplying by a positive number keeps the sign |
| FractalismFibo.PnlSign | neobabix/playbooks/fractalismfibo.py:255-262 | for positive prices the pnl is positive exactly when the price moved the trade's way, and zero exactly when exit equals entry |
| FractalismFibo.BracketOrdersShape | neobabix/playbooks/fractalismfibo.py:178-207 | two orders of the same amount on the closing side, take-profit at the exit price first, then the stop with its limit and the entry as base; any failing price or a missing side places nothing |
| FractalismFibo.SettleOnExitFill | neobabix/playbooks/fractalismfibo.py:226-272 | a closed exit order cancels the stop order alone and settles as won at the exit price |
| FractalismFibo.SettleOnStopFill | neobabix/playbooks/fractalismfibo.py:226-272 | with the exit order open, a closed stop order cancels the exit order alone and settles as lost at the stop price |
| FractalismFibo.SettleNeither | neobabix/playbooks/fractalismfibo.py:242-251 | with neither closed nothing is cancelled and the settled notification carries pnl 'n/a' |
| FractalismFibo.AfterExitCancelsSibling | neobabix/playbooks/fractalismfibo.py:209-272 | in every run at most one order is cancelled and only the sibling of a closed one; a normal run sends the unsettled notification first and a settled one last; polling happens exactly when both prices are known |
| FractalismFibo.CancellationsBetweenNotices | neobabix/playbooks/fractalismfibo.py:233-238 | the cancellations of the traces after_exit leaves |
| FractalismFibo.FractalismFibo.constructor | neobabix/playbooks/fractalismfibo.py:35-53 | the fields as given, the up fractals of the highs, no orders yet |
| FractalismFibo.FractalismFibo.Build | neobabix/playbooks/fractalismfibo.py:35-53 | the lock is held in every case; a bad setting or a down-fractal IndexError raises; otherwise a fresh playbook with the checked configuration |
| FractalismFibo.FractalismFibo.Entry | neobabix/playbooks/fractalismfibo.py:154-165 | the shared market entry for MODAL_DUID; the order placed becomes the entry order |
| FractalismFibo.FractalismFibo.AfterEntry | neobabix/playbooks/fractalismfibo.py:167-176 | one entry notification with the entry order's price, or AttributeError for an order_entry never assigned |
| FractalismFibo.FractalismFibo.Exit | neobabix/playbooks/fractalismfibo.py:178-207 | exactly the bracket orders of the current prices, whose replies become the exit and stop orders; a failing price changes nothing |
| FractalismFibo.FractalismFibo.AfterExit | neobabix/playbooks/fractalismfibo.py:209-272 | the effects and outcome of the settlement run, with the polled orders stored once polling happens |
| FractalismFibo.FractalismFibo.Settle | neobabix/playbooks/fractalismfibo.py:230-272 | after polling, with a known entry price: the events and outcome of the settlement run that follow the unsettled notification |
| HitAndRun.Required | neobabix/playbooks/hitandrun.py:37-57 | a missing or empty variable raises NotImplementedError naming it; otherwise its text |
| HitAndRun.HitSettings | neobabix/playbooks/hitandrun.py:37-58 | accepted exactly when all five variables are set and the three numeric ones parse; the configuration read from them; errors are ValueError or NotImplementedError |
| HitAndRun.HitSettingsNeedsAll | neobabix/playbooks/hitandrun.py:37-58 | any of the five missing or empty makes construction raise |
| HitAndRun.HitSettingsAccepts | neobabix/playbooks/hitandrun.py:37-58 | whole-number settings are read back as configured |
| HitAndRun.PercentMoves | neobabix/playbooks/hitandrun.py:85-92 | for positive entry and percentage, raising goes above the entry and lowering below it |
| HitAndRun.TruncBelow | neobabix/playbooks/hitandrun.py:92-100 | a price below a positive entry stays below it once truncated |
| HitAndRun.TruncAtLeast | neobabix/playbooks/hitandrun.py:85-89 | a price at or above an entry on the grid stays at or above it once truncated |
| HitAndRun.LongBracketSides | neobabix/playbooks/hitandrun.py:84-100 | the LONG take-profit is above the entry (at or above once truncated, for an entry on the grid), the stop below it, and the stop's limit no higher than the stop for a non-negative STOP_LIMIT_DIFF |
| HitAndRun.ShortBracketSides | neobabix/playbooks/hitandrun.py:112-128 | the SHORT take-profit is below the entry, the stop at or above it for an entry on the grid, and the stop's limit no lower than the stop for a non-negative STOP_LIMIT_DIFF |
| HitAndRun.ShortStopUsesTakeProfit | neobabix/playbooks/hitandrun.py:120-128 | the SHORT bracket does not depend on STOP_IN_PERCENT, and its stop is the LONG take-profit price |
| HitAndRun.HitBracketOrdersShape | neobabix/playbooks/hitandrun.py:81-141 | two orders for the entry order's filled amount, take-profit then stop, at the bracket prices; sell for LONG, buy for SHORT |
| HitAndRun.HitBracketOrdersFailures | neobabix/playbooks/hitandrun.py:81-141 | without a side nothing is placed; a never-assigned entry order raises AttributeError and an entry without a price TypeError, before any order; decimal-places text that is not an integer fails with ValueError under the model's reading of that text |
| HitAndRun.HitAndRun.constructor | neobabix/playbooks/hitandrun.py:33-58 | the fields as given and no orders yet |
| HitAndRun.HitAndRun.Build | neobabix/playbooks/hitandrun.py:33-58 | the lock is held in every case; a bad setting raises its error; otherwise a fresh playbook with the checked configuration |
| HitAndRun.HitAndRun.Entry | neobabix/playbooks/hitandrun.py:60-71 | the shared market entry for MODAL_DUID; the order placed becomes the entry order |
| HitAndRun.HitAndRun.AfterEntry | neobabix/playbooks/hitandrun.py:73-79 | one entry notification with the entry order's price, or AttributeError for an order_entry never assigned |
| HitAndRun.HitAndRun.Exit | neobabix/playbooks/hitandrun.py:81-141 | exactly the bracket orders of HitBracketOrders, whose replies become the exit and stop orders; a failure changes nothing |
| HitAndRun.HitAndRun.AfterExit | neobabix/playbooks/hitandrun.py:143-152 | exactly one unsettled exit notification without pnl and nothing else, or AttributeError naming the first of the entry, exit and stop orders never assigned |
| HitAndRun.HitAndRun.PlayEntry | neobabix/playbooks/playbook.py:28-29 | entry then after_entry: a LONG entry without market orders raises with only the leverage call traced; otherwise the market order and the fill's entry notice, with the fill stored as the entry order |
| HitAndRun.HitAndRun.PlayExit | neobabix/playbooks/playbook.py:30-35 | exit then after_exit then the release: a bracket that cannot be priced raises with the lock untouched; otherwise the bracket, the unsettled notice and the release unless recursive |
| HitAndRun.HitAndRun.Play | neobabix/playbooks/playbook.py:28-35 | HitAndRun's whole play: each raising hook ends it with the lock as it was; a completed run places the market entry, announces the fill, places the bracket priced from that fill, announces the unsettled exit and releases the lock unless recursive |
| Dca.Split | neobabix/playbooks/dca.py:29 | at least one piece |
| Dca.JoinSplit | neobabix/playbooks/dca.py:29 | joining the pieces with the separator gives the string back |
| Dca.SplitFirst | neobabix/playbooks/dca.py:29 | the first piece is the text before the first separator and the rest is the split of what follows |
| Dca.BaseCurrency | neobabix/playbooks/dca.py:27-29 | defined exactly when the symbol has a '/', else IndexError; the text after the first '/' up to the next '/' or the end |
| Dca.BaseCurrencyOfPair | neobabix/playbooks/dca.py:27-29 | 'BTC/USD' gives 'USD' |
| Dca.IndexOfAfter | neobabix/playbooks/dca.py:29 | the first separator of a + [c] + t is right after a when a has none |
| Dca.BaseCurrencyOfPieces | neobabix/playbooks/dca.py:27-29 | a/b and a/b/rest both give b |
| Dca.BaseCurrencyWithoutSeparator | neobabix/playbooks/dca.py:27-29 | a symbol without '/' raises IndexError |
| Dca.FreeBalance | neobabix/playbooks/dca.py:31-40 | zero for an empty or missing reply; a non-zero balance is the amount of the upper-cased quote currency; only a non-empty reply with a symbol without '/' raises |
| Dca.FreeBalanceReadsQuote | neobabix/playbooks/dca.py:36-40 | a non-zero amount for the quote currency is the balance |
| Dca.FreeBalanceUpperCases | neobabix/playbooks/dca.py:36 | 'btc/usd' reads the 'USD' amount |
| Dca.FreeBalanceMissingIsZero | neobabix/playbooks/dca.py:36-38 | a None amount and a missing currency both read as zero |
| Dca.DeclinesBelowModal | neobabix/playbooks/dca.py:44 | for a positive MODAL_DUID the trade is declined exactly when the balance is below it, and a zero balance is always declined |
| Dca.DCA.constructor | neobabix/playbooks/dca.py:20-25 | the fields as given |
| Dca.DCA.Build | neobabix/playbooks/dca.py:20-25 | the lock is held in every case; SHORT raises RuntimeError; otherwise a fresh playbook |
| Dca.DCA.Entry | neobabix/playbooks/dca.py:42-46 | the balance error if reading it raises, otherwise the decline decision; no order is placed in either case |
| Dca.DCA.AfterEntry | neobabix/playbooks/dca.py:48-51 | reading the never-assigned order_entry raises AttributeError |
| Dca.DCA.Play | neobabix/playbooks/playbook.py:28-35 | DCA's play runs entry, then after_entry, which always raises: it fails with the balance error or the missing order_entry, exit and after_exit never start, and the lock is never released |
| Dca.DCA.Exit | neobabix/playbooks/dca.py:53-54 | returns normally |
| Dca.DCA.AfterExit | neobabix/playbooks/dca.py:56-57 | returns normally |
| Dca.DCA.ExitPrice | neobabix/playbooks/dca.py:59-61 | always None |
| Dca.DCA.StopPrice | neobabix/playbooks/dca.py:63-65 | always None |
| Dca.DCA.StopActionPrice | neobabix/playbooks/dca.py:67-69 | always None |
| WiseWilliams.AlligatorIsLong | neobabix/strategies/wisewilliams.py:48 | true exactly when lips[-1] < highs[-1] < teeth[-1] and highs[-1] < jaws[-1]; IndexError only for an empty series actually read |
| WiseWilliams.AlligatorIsShort | neobabix/strategies/wisewilliams.py:49-50 | true exactly when lows[-1] is above the last lips, teeth and jaws; IndexError only for an empty series actually read |
| WiseWilliams.Filter | neobabix/strategies/wisewilliams.py:35-75 | defined for long enough series (else IndexError); a trade needs a green last MFI; LONG and SHORT each imply their AC, AO and alligator conditions; equal last AC values give NOTHING |
| WiseWilliams.FilterLongWhen | neobabix/strategies/wisewilliams.py:64-71 | the LONG conditions together give LONG |
| WiseWilliams.FilterShortWhen | neobabix/strategies/wisewilliams.py:65-73 | the SHORT conditions together give SHORT |
| WiseWilliams.FilterSidesExclusive | neobabix/strategies/wisewilliams.py:38-39 | the LONG and SHORT conditions never hold together |
| WiseWilliams.FilterNeedsGreen | neobabix/strategies/wisewilliams.py:36 | without a green last MFI the result is NOTHING |
| WiseWilliams.FilterSkipsUnreadAlligator | neobabix/strategies/wisewilliams.py:48-50 | with highs and lows not above the lips, teeth and jaws are never read and may be empty |
| Ema528Dca.Filter | neobabix/strategies/ema528dca.py:17-23 | defined exactly when both series have two values (else IndexError); never SHORT; LONG exactly when closes[-2] < ema[-2] and closes[-1] differs from ema[-1] |
| Ema528Dca.FilterNeedsCloseUnder | neobabix/strategies/ema528dca.py:18-19 | a previous close not below the EMA gives NOTHING |
| Ema528Dca.FilterSkipsCloseOnEma | neobabix/strategies/ema528dca.py:18-21 | a last close equal to the EMA gives NOTHING |
| MoonPhaseBuy.PyIndex | neobabix/strategies/moonphasebuy.py:26 | a Python list index: valid exactly from -n to n-1, negative ones counted from the end |
| MoonPhaseBuy.DaysIntoPhase | neobabix/strategies/moonphasebuy.py:26 | always in 0..29 |
| MoonPhaseBuy.PhaseIndex | neobabix/strategies/moonphasebuy.py:27-29 | clamped to at most 7 |
| MoonPhaseBuy.Light | neobabix/strategies/moonphasebuy.py:33-35 | always in 0..100 |
| MoonPhaseBuy.MoonPhase | neobabix/strategies/moonphasebuy.py:9-38 | defined exactly for months -11..12 (else IndexError); light in 0..100 and a status among the eight; for months 1..12 the date is day, month name and year |
| MoonPhaseBuy.MoonPhaseDay31 | neobabix/strategies/moonphasebuy.py:24-25 | day 31 gives the same result as day 1 |
| MoonPhaseBuy.ModPeriod | neobabix/strategies/moonphasebuy.py:26 | a shift by whole 19-year cycles keeps the place in the cycle |
| MoonPhaseBuy.EarlyYearsOneDayOn | neobabix/strategies/moonphasebuy.py:26 | a year before 1900 is one day further into the phase than its cycle partner from 1900 on |
| MoonPhaseBuy.LightPeak | neobabix/strategies/moonphasebuy.py:32-35 | the light never exceeds 97, reaches 97 on day 15, and is at least 90 exactly on days 14..16 |
| MoonPhaseBuy.FullOnMiddleDays | neobabix/strategies/moonphasebuy.py:27-30 | the status reads full exactly on days 13..16 |
| MoonPhaseBuy.Filter | neobabix/strategies/moonphasebuy.py:52-53 | never SHORT; LONG exactly when the light is at least 90 |
| MoonPhaseBuy.FilterOnPhaseDays | neobabix/strategies/moonphasebuy.py:48-53 | the strategy buys exactly on days 14..16 of the phase |
| BuyEveryWeek.DayOfWeekToBuy | neobabix/strategies/buyeveryweek.py:9 | the configured text, or "3" when unset |
| BuyEveryWeek.ConfiguredWeekday | neobabix/strategies/buyeveryweek.py:18 | unset reads 3; otherwise the integer parse of the text |
| BuyEveryWeek.Filter | neobabix/strategies/buyeveryweek.py:17-21 | never SHORT; LONG exactly when today's weekday is the configured one |
| BuyEveryWeek.FilterDefaultsToThursday | neobabix/strategies/buyeveryweek.py:9-21 | unconfigured, the strategy buys exactly on weekday 3 |
| BuyEveryWeek.FilterConfigured | neobabix/strategies/buyeveryweek.py:18-21 | configured with the decimal text of a day, it buys exactly on that day |
| Neobabix.EnvOr | neobabix/__init__.py:11-15 | the variable's value when set, the default otherwise |
| Neobabix.GetCcxtClient | neobabix/__init__.py:22-34 | an unknown exchange raises AttributeError naming it; credentials are passed exactly when key and secret are both non-empty |
| Neobabix.Column | neobabix/__init__.py:46-50 | one value per row, field k of that row |
| Neobabix.CandleColumns | neobabix/__init__.py:46-58 | defined exactly when every row has six fields (else IndexError); fields 1..5 become the five columns, each as long as the rows |
| Neobabix.CandleColumnsLossless | neobabix/__init__.py:46-50 | the rows are rebuilt from the timestamps and the five columns |
| Neobabix.FetchCandles | neobabix/__init__.py:37-58 | an unknown exchange raises AttributeError, one without OHLCV raises TypeError, otherwise the column split of the reply |
| Neobabix.GetStrategy | neobabix/__init__.py:61-69 | only 'WiseWilliams' is known; any other name raises AttributeError |
| Neobabix.Tick | neobabix/__init__.py:76-88 | a fetch error comes first; then the registry decides, and its AttributeError is returned unchanged; the strategy receives the lows as its opens and the other columns unchanged |
| Neobabix.TickDefaults | neobabix/__init__.py:76-88 | unconfigured, a tick feeds bitfinex candles to WiseWilliams with one open per row, equal to the row's low |

## Left out

- Notification delivery (Telegram, webhooks, templates) is external I/O. A
  notification is only appended to the trace as an event.
- Scheduling and concurrency are left out: the cron scheduler, the asyncio
  event loop and uvloop. Every hook is modelled as running to completion in
  sequence.
- Playbook.constructor models the intended acquisition of the lock, not an
  un-awaited coroutine. `playbook.py` calls `acquire()` without `await`, so in
  Python the coroutine never runs.
- The sleeps in FractalismFibo, and the logging of the playbooks, have no
  effect on the modelled state.
- Common.Upper maps only the ASCII letters 'a'..'z'. The model does not capture
  that Python's `str.upper()` also maps other cased letters, some of them to
  two characters ('ß' becomes 'SS'), which changes the length.
- The strategy filters take their series as parameters, as if `Strategy` stored
  them. `Strategy` (`neobabix/strategies/strategy.py:11-14`) defines no
  `__init__` and no `debug`. The model does not capture that each strategy's
  `super().__init__(...)` call raises TypeError, that `self.highs`, `self.lows`
  and `self.closes` are never assigned, or that WiseWilliams' `self.debug(...)`
  calls raise AttributeError.
- ccxt internals are outside the model: client construction, order placement,
  `fetch_free_balance`, `fetch_ohlcv`, `poll_results` and its unbounded loop.
  Their replies are parameters.
- `set_leverage`, `market_sell_order`, `limit_stop_sell_order`,
  `limit_stop_buy_order` and `cancel_order` are called by the subclasses but
  `playbook.py` does not define them. They are trace effects with the arguments
  they are given.
- `get_latest_candle` and `get_ticker` are left out. No modelled hook calls them.
- The modelled subclass constructors do not capture that the `super().__init__`
  calls in the playbooks pass more arguments than `Playbook.__init__` accepts.
  The model builds the base as `Playbook.__init__` describes. The model also
  takes `self.action`, `self.leverage` and `self.notification` as stored,
  although `Playbook.__init__` (`neobabix/playbooks/playbook.py:16-22`)
  assigns none of them and no subclass assigns them itself.
- Common.ParseDecimal and Common.ParseInt cover plain decimal notation only. The
  model does not capture that Python's `int()` and `float()` also accept
  surrounding whitespace, underscores, exponents, 'inf' and 'nan'.
- Prices are exact reals. The Decimal↔float round trips and `float(pnl)` are
  not modelled.
- Precision.Trunc returns a real. The model does not capture that
  `decimal_to_precision` returns a string, so the exchange receives text.
- The indicator numerics are inputs: talib and pandas behind the awesome and
  acceleration oscillators, VWMA, the exponentially weighted mean inside SMMA,
  the EMA that EMA528DCA imports, and the hidden WilliamsIndicators.
- WiseWilliams.Filter takes the indicator series as input. The model does not
  capture the constructor computing them from the candles.
- BillWilliams.Mfi requires non-zero volumes, so it does not capture the numpy
  infinities or NaNs a zero volume produces.
- MovingAverages.Smma does not model a negative offset, because offset is a
  natural number. In Python a negative offset rolls left and the loop does
  nothing.
- Dca.DCA.Build takes MODAL_DUID as a real parameter. The model does not capture
  that `dca.py` fails when it is imported with MODAL_DUID unset.
- Time is a parameter. `datetime.utcnow()` gives moon_phase its date and
  BuyEveryWeek its weekday.
- The tick's final logging branches are left out. They only log the signal.
- FractalismFibo.FractalismFibo.Exit and AfterExit read the entry price
  through `entry_price`, which the files modelled here do not define. The model
  takes it to be the entry order's price, or None before an entry order exists.
- HitAndRun.HitAndRun.Exit keeps PRICE_DECIMAL_PLACES as the text it was
  configured with, and `hitandrun.py` passes that text to
  `decimal_to_precision` unchanged. The model's choice is to read the text as
  the integer it denotes and to treat any other text as a failure, a
  ValueError. How ccxt handles a text precision is not modelled. Its stop
  orders are given no base price, because the code passes none.
- HitAndRun.HitBracketOrdersFailures: its ValueError case for PRICE_DECIMAL_PLACES text
  that is not an integer follows the model's reading of that text, not code in
  `hitandrun.py`, which hands the text to ccxt. The other failure cases are
  the code's own.
