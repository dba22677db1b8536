# Tradifact trading loop, modelled in Dafny

Tradifact is a day-trading program for Interactive Brokers. It reads a
spreadsheet of instructions, one row per underlying stock. Each row gives a
call level and a put level, option strikes and expirations, an amount, stop
and target percentages and a flat delay. During the regular session it
watches the last price of every stock. When the price crosses the call level
upwards (or the put level downwards), it buys the option for the amount,
then places a stop, a target and a time exit in one OCA group.

This project models the core of that program:

- `Tradifact_00_05.py`, the trading loop, is in two files.
  - `decisions.dfy` holds the pure decisions the loop makes from values it
    already holds:
    - row validation (`valid_row`);
    - level crossing (`cross`) and the entry signal;
    - quote checks and sizing;
    - stop and target prices with the tick of the market rule;
    - order references (`build_order_reference`) and the rule the option is
      priced with;
    - the INIT calendar, built from the AAPL liquid hours, and the session
      times INIT computes from it;
    - the global state steps and the recovery test.
  - `session.dfy` holds the loop itself: a `Session` class whose fields are
    the loop's context.
    - It has one method per phase of an iteration: connect, INIT, reread and
      onboarding, resubscription, the fills poll, price sampling, new bars,
      entries, stops, global transitions and recovery.
    - It has the three broker callbacks `ib_exec`, `ib_commission` and
      `ib_bar_update`.
    - `Step` composes these into one turn of `while c.alive`, and `Run`
      runs that loop over a sequence of turns.
    - Everything the broker, the clock and the file system answer is an
      input (`World`, `OptionMarket`): the accounts, the AAPL contract
      details with their hours texts, the clock, the instructions file,
      quotes and fills.
    - INIT's calendar is not an input. `AskCalendar` computes it by running
      the `market.dfy` queries over the first AAPL details' liquid hours, and
      it equals `Decisions.CalendarOf`.
- `orders.dfy` models `trading_framework/orders.py`:
  - selecting the market rule by exchange;
  - selecting the tick;
  - `round_price` and `round_price_from_rules`;
  - the filters `matching_trades`, `matching_fills` and `active_order`.
- `bars.dfy` models `trading_framework/bars.py`: the duration table, the
  index-type table and `barsize2barsize_string`.
- `market.dfy` models `trading_framework/market.py`:
  - `tz_filter`;
  - `parse_hours`, including both interval forms, CLOSED fields and the
    one-day shift;
  - the four queries over the parsed sessions;
  - the clock reading `market_now`, with its instant in seconds and its
    "%Y%m%d_%H%M%S" stamp.
- `fixed.dfy` and `text.dfy` supply the exact arithmetic and the string
  operations the rest uses:
  - fixed-point prices, with 1.0 as 10^8 units;
  - Python's round-half-even;
  - the `%.4f` quantisation;
  - `split`, `in`, `str` and `int()`.

The session invariant `Valid()` says four things:
- the session times are known once INIT is over;
- every traded symbol has a trading state and a last price;
- every position (ACTIVE symbol) has its stop order and its size;
- the commission ledger records each execution once.

Every phase preserves it.

Four behaviours of the program are modelled as written, each exposed by a
lemma:
- Whether an option is traded is read from the module-level `row` left
  behind by an earlier loop, not from the symbol's own row
  (`Decisions.StaleRowSkipsOptionsSymbol`, `Decisions.StaleRowIgnoresOwnTrading`).
- The market rule that prices the exits is the last rule fetched, whatever
  exchange it belongs to (`Decisions.FetchKeepsLastNew`,
  `Decisions.RepeatedIdKeepsLaterRule`).
- `.replace` is applied to the open time before its `None` check, so the 9:30
  fallback is unreachable and a day without an opening raises
  (`Decisions.NoOpeningRaises`, `Decisions.ClosedDayRaisesWhileStopping`).
- A bar size of one second renders as "1 sec", which is not a key of the
  table, whose entry is "1 secs" (`Bars.BarSizeStringBelowTwoSeconds`).

## Model

| member | source | states |
|---|---|---|
| Fixed.RoundHalfEven | Python/trading_framework/orders.py:28 | `round(n/d)`: within half a step of n/d; on a tie, the even neighbour |
| Fixed.RoundHalfEvenUnique | Python/trading_framework/orders.py:28 | the two properties of rounding determine its result |
| Fixed.RoundHalfEvenExact | Python/trading_framework/orders.py:28 | a whole multiple rounds to its multiplier |
| Fixed.RoundHalfEvenNegate | Python/trading_framework/orders.py:28 | rounding commutes with negation |
| Fixed.RoundHalfEvenMonotone | Python/trading_framework/orders.py:28 | rounding is monotone in the numerator |
| Fixed.QuantiseExact | Python/trading_framework/orders.py:30 | a value with four decimals passes `%.4f` unchanged |
| Fixed.QuantiseNegate | Python/trading_framework/orders.py:30 | `%.4f` is symmetric in the sign |
| Fixed.RoundPrice | Python/trading_framework/orders.py:23-31 | `round_price` always returns a value with at most four decimals |
| Fixed.RoundPriceNearest | Python/trading_framework/orders.py:23-31 | for a tick with at most four decimals, the result is a multiple of the tick within half a tick of the price |
| Fixed.RoundPriceIdempotent | Python/trading_framework/orders.py:23-31 | rounding a rounded price changes nothing |
| Fixed.RoundPriceNegate | Python/trading_framework/orders.py:23-31 | rounding -price gives -round_price(price) |
| Fixed.RoundPriceMonotone | Python/trading_framework/orders.py:23-31 | rounding preserves the order of prices |
| Fixed.RoundPriceUpExample | Python/Tradifact_00_05.py:221-224 | 1.888 with tick 0.01 rounds to 1.89 |
| Fixed.RoundPriceResidueExample | Python/trading_framework/orders.py:24-27 | 188 ticks of 0.01 give exactly 1.88, with none of the binary residue the comment describes |
| Orders.LastExchangeIndex | Python/trading_framework/orders.py:9-11 | the last position naming the exchange; no later position names it |
| Text.ParseInts | Python/trading_framework/orders.py:7 | `[int(x) for x in ...]`: every text parsed in order, or None iff some text is not an integer |
| Text.DigitsGrouped | Python/trading_framework/orders.py:7 | a digit string is a valid grouping of itself |
| Text.ParseIntDigits | Python/trading_framework/orders.py:7 | `int()` of a digit string is its decimal value |
| Text.ParseIntToString | Python/trading_framework/orders.py:7 | `int(str(i)) == i` for every integer |
| Text.ParseIntSpaces | Python/trading_framework/orders.py:7 | `int()` ignores surrounding whitespace: " 26\n" reads 26 |
| Text.ParseIntSigned | Python/trading_framework/orders.py:7 | `int()` takes a leading + or -: "+26" reads 26 and "-7" reads -7 |
| Text.ParseIntGrouped | Python/trading_framework/orders.py:7 | `int()` reads single underscores between digits: "2_6" reads 26 |
| Text.ParseIntRejects | Python/trading_framework/orders.py:7 | `int()` raises on a doubled underscore and on a space after the sign |
| Orders.SelectRuleId | Python/trading_framework/orders.py:6-11 | the loop keeps the rule id zipped with the last matching exchange; it finds one iff some zipped exchange matches |
| Orders.LastApplicableIndex | Python/trading_framework/orders.py:17-19 | the last rule entry whose low edge applies; no later entry applies |
| Orders.SelectTick | Python/trading_framework/orders.py:15-19 | the loop ends with the increment of the last applicable entry; it has one iff some entry applies |
| Orders.RoundPriceFromRules | Python/trading_framework/orders.py:1-20 | parses the comma-separated rule ids and splits the exchanges, then rounds with the tick of the selected rule; raises when an id is not an integer, no rule id is selected, the id is not cached, or no entry applies |
| Orders.ApplicableTickIgnoresSign | Python/trading_framework/orders.py:16-19 | the tick depends on the absolute value of the price, not its sign |
| Orders.RoundedFromRulesNegate | Python/trading_framework/orders.py:1-20 | rounding from the rules is odd in the price, and raises for -price exactly when it raises for price |
| Orders.RoundedFromRulesExample | Python/trading_framework/orders.py:1-20 | with the rule (0, 0.01) on SMART, 1.888 becomes 1.89 |
| Orders.RoundedFromRulesSecondTierExample | Python/trading_framework/orders.py:17-20 | a coarser tier applies from its low edge: 1.03 becomes 1.05 |
| Orders.MatchingTrades | Python/trading_framework/orders.py:47-59 | returns exactly the trades that pass every non-empty filter, in their original order |
| Orders.MatchingTradesNoFilter | Python/trading_framework/orders.py:47-59 | with every filter empty, all trades are returned |
| Orders.MatchingTradesMembers | Python/trading_framework/orders.py:47-59 | a trade is returned iff it is in the list and passes each filter |
| Orders.MatchingTradesNegPattern | Python/trading_framework/orders.py:56-57 | a non-empty neg_pattern excludes every trade whose reference contains it |
| Orders.NormaliseAction | Python/trading_framework/orders.py:71-74 | BUY becomes BOT, SELL becomes SOLD, and any other action is unchanged |
| Orders.MatchingFills | Python/trading_framework/orders.py:62-80 | returns exactly the fills that pass every filter, with the action normalised, in their original order |
| Orders.MatchingFillsBuyIsBot | Python/trading_framework/orders.py:70-76 | asking for BUY selects exactly the executions reported as BOT |
| Orders.MatchingFillsNegPattern | Python/trading_framework/orders.py:77-78 | a non-empty neg_pattern excludes every fill whose reference contains it |
| Orders.ActiveOrder | Python/trading_framework/orders.py:34-44 | true iff some open trade is on the symbol with an action in the directions |
| Bars.IndexTableKeys | Python/trading_framework/bars.py:30-35 | the index-type table has exactly the keys of the duration table |
| Bars.NoIntradayWord | Python/trading_framework/bars.py:32-35 | a name mentioning none of sec, min, hour is indexed by date |
| Bars.IndexTableDaily | Python/trading_framework/bars.py:26-35 | day, week and month bars are indexed by date |
| Bars.BarSizeString | Python/trading_framework/bars.py:38-58 | a returned name is always a key of the duration table |
| Bars.CandidateMentionsUnit | Python/trading_framework/bars.py:41-52 | every name built up to 8 hours mentions sec, min or hour |
| Bars.BarSizeStringIntraday | Python/trading_framework/bars.py:30-58 | every returned name is indexed by timestamps |
| Bars.TableKeysStartWithDigit | Python/trading_framework/bars.py:5-28 | every table key starts with a digit |
| Bars.BarSizeStringBelowTwoSeconds | Python/trading_framework/bars.py:41-42 | sizes up to 1 have no name; 1 gives "1 sec", which is not a table key |
| Bars.BarSizeStringGaps | Python/trading_framework/bars.py:48-57 | 1801-3599 gives "0 hour", and above 8 hours the name is empty; both return None |
| Bars.BarSizeStringWholeMinutes | Python/trading_framework/bars.py:43-47 | in the minute range, a size is floored to whole minutes |
| Bars.BarSizeStringWholeHours | Python/trading_framework/bars.py:48-52 | in the hour range, a size is floored to whole hours |
| Bars.CandidateMinutes | Python/trading_framework/bars.py:43-47 | the name of n minutes is "n min", plus "s" for n > 1 |
| Bars.CandidateHours | Python/trading_framework/bars.py:48-52 | the name of n hours is "n hour", plus "s" for n > 1 |
| Bars.BarSizeStringExamples | Python/trading_framework/bars.py:38-58 | 5, 300 and 7200 give "5 secs", "5 mins" and "2 hours" |
| Bars.BarSizeStringRangeTops | Python/trading_framework/bars.py:43-52 | 1800 gives "30 mins" and 28800 gives "8 hours" |
| Market.TzFilterRenamesOnlyCST | Python/trading_framework/market.py:6-10 | only "CST" changes, and it becomes America/Chicago |
| Market.TzFilterIdempotent | Python/trading_framework/market.py:6-10 | filtering twice is filtering once |
| Market.PrevDay | Python/trading_framework/market.py:31 | `- timedelta(days=1)` gives an earlier date, and a valid one except before 1-1-1 |
| Market.PrevDayIsAdjacent | Python/trading_framework/market.py:31 | no date lies strictly between a date and the day before it |
| Market.DaysBeforeMonth | Python/Tradifact_00_05.py:262 | the months before a month hold between 28 and 31 days each |
| Market.YearLength | Python/Tradifact_00_05.py:262 | a year has 366 days when it is a leap year and 365 otherwise |
| Market.OrdinalStep | Python/Tradifact_00_05.py:262 | `toordinal` counts days: the day before a date has the ordinal one less |
| Market.InstantDay | Python/Tradifact_00_05.py:262 | `market_now` in seconds falls on its date's ordinal day, at its second of the day |
| Market.ReferenceStamp | Python/Tradifact_00_05.py:229 | "%Y%m%d_%H%M%S" has 15 characters with `_` after the date |
| Market.ReferenceStampReads | Python/Tradifact_00_05.py:229 | the stamp's digit fields read back as the date and the second of the day |
| Market.ReferenceStampInjective | Python/Tradifact_00_05.py:229 | two readings with the same stamp are the same reading |
| Market.Stamp | Python/trading_framework/market.py:37-39 | a parsed "%Y%m%d%H%M" stamp is a valid moment |
| Market.StampFormat | Python/trading_framework/market.py:37-39 | every valid moment is read back from its 12-digit rendering |
| Market.FormatStamp | Python/trading_framework/market.py:37-39 | a text read as a moment is exactly that moment's rendering |
| Market.IntervalsOfStep | Python/trading_framework/market.py:24-43 | reading one more interval text extends the intervals read so far |
| Market.IntervalsOfFailsFrom | Python/trading_framework/market.py:24-43 | once one interval text raises, the whole list raises that error |
| Market.AllIntervalsFailsFrom | Python/trading_framework/market.py:16-43 | once one field raises, `parse_hours` raises that error |
| Market.ParseIntervals | Python/trading_framework/market.py:24-43 | the inner loop yields the intervals of the texts in order, or the first failure |
| Market.ParseField | Python/trading_framework/market.py:17-43 | one pass of the outer loop: the intervals of one `;`-field, in either form |
| Market.CollectDays | Python/trading_framework/market.py:44-48 | the day loop yields the set of start and end dates |
| Market.ParseHours | Python/trading_framework/market.py:13-48 | `parse_hours` returns the day set and the intervals of every non-CLOSED field, in order |
| Market.ThenClosed | Python/trading_framework/market.py:17-18 | a CLOSED field adds nothing and cannot fail |
| Market.ClosedFieldsContributeNothing | Python/trading_framework/market.py:16-18 | parsing the text equals parsing it with every CLOSED field removed, errors included |
| Market.DaysOfMembers | Python/trading_framework/market.py:44-48 | a date is in the day set iff some interval starts or ends on it |
| Market.DayIntervalOrdered | Python/trading_framework/market.py:34-43 | a day-form interval ends on its day, starts then or the day before, and starts no later than it ends |
| Market.DayIntervalsOrdered | Python/trading_framework/market.py:34-43 | every interval of a day-form list starts no later than it ends |
| Market.DayFieldOrdered | Python/trading_framework/market.py:33-43 | every interval of a `day:HHMM-HHMM` field starts no later than it ends |
| Market.AnyCovers | Python/trading_framework/market.py:55-58 | true iff some interval has start <= dt <= end |
| Market.MarketOpenAtTime | Python/trading_framework/market.py:51-58 | raises iff the hours do not parse; otherwise true iff some session covers dt |
| Market.AnyOnDate | Python/trading_framework/market.py:65-68 | true iff some interval starts or ends on the date |
| Market.MarketOpenAtDate | Python/trading_framework/market.py:61-68 | raises iff the hours do not parse; otherwise true iff some session starts or ends on the date |
| Market.OpenAtDateIsScheduleDay | Python/trading_framework/market.py:44-48 | the market is open on a date iff the date is in the parsed day set |
| Market.LastEnd | Python/trading_framework/market.py:75-79 | the end of the last interval, in list order, that ends on the date, with no later one ending then; None iff none ends then |
| Market.LastCloseOn | Python/trading_framework/market.py:75-79 | the forward scan yields `LastEnd`: the end of the last interval that ends on the date; None iff there is none |
| Market.MarketCloseTime | Python/trading_framework/market.py:71-79 | raises iff the hours do not parse; otherwise `LastEnd` of the parsed sessions: the end of the last session ending on the date |
| Market.FirstStart | Python/trading_framework/market.py:86-90 | the start of the first interval, in list order, that starts on the date, with no earlier one starting then; None iff none starts then |
| Market.FirstOpenOn | Python/trading_framework/market.py:86-90 | the reversed scan yields `FirstStart`: the start of the first interval that starts on the date; None iff there is none |
| Market.MarketOpenTime | Python/trading_framework/market.py:82-90 | raises iff the hours do not parse; otherwise `FirstStart` of the parsed sessions: the start of the first session starting on the date |
| Market.IntervalsOfDated | Python/trading_framework/market.py:19-43 | every interval read from a list of "start-end" texts names a month of the year at both ends |
| Market.AllIntervalsDated | Python/trading_framework/market.py:14-43 | every interval read from the `;`-fields names a month of the year at both ends |
| Market.ScheduleDated | Python/trading_framework/market.py:13-48 | every session `parse_hours` returns has an instant at both ends |
| Market.MomentInstantDay | Python/Tradifact_00_05.py:281-285 | a session edge, as an instant in seconds, falls on its own date's ordinal day at its minute |
| Decisions.ValidRowIff | Python/Tradifact_00_05.py:171-199 | a row is valid iff trading is STOCKS or OPTIONS, amount >= 1, stop and target > 0, each level and strike is NaN or > 0, and 0 <= flat_delay <= 390 |
| Decisions.RowProblemIsFirst | Python/Tradifact_00_05.py:171-199 | the problem reported is a failing check, and every earlier check passed |
| Decisions.ValidRowPassesAll | Python/Tradifact_00_05.py:171-199 | a valid row passes every check |
| Decisions.CrossIff | Python/Tradifact_00_05.py:211-218 | RISING iff previous <= level < current; FALLING iff previous >= level > current; NaN gives NONE |
| Decisions.CrossMoves | Python/Tradifact_00_05.py:211-218 | RISING means the price went up; FALLING means it went down |
| Decisions.CallAndPutExclusive | Python/Tradifact_00_05.py:431-442 | no sample pair both rises across the call level and falls across the put level |
| Decisions.EntryActionIff | Python/Tradifact_00_05.py:420-446 | BUY exactly on the armed call signal, SELL exactly on the armed put signal; BUY needs a numeric call level, a non-empty strike and expiry, and previous <= level < current, and SELL the mirror |
| Decisions.ExitTimeBounds | Python/Tradifact_00_05.py:530 | for a valid row, the exit time is within 6 h 30 min before the close, on a whole minute |
| Decisions.SizedEntry | Python/Tradifact_00_05.py:491-514 | a sized entry has a positive ask, a bid that is positive when present (a NaN bid passes), and an acceptable spread; its size is at least 1 and is the largest count the amount covers |
| Decisions.ExitTickIsLastApplicable | Python/Tradifact_00_05.py:521-526 | the exit tick is the increment of the last rule entry applying to both the raw stop and the raw target |
| Decisions.ExitPricesEmptyRule | Python/Tradifact_00_05.py:521-525 | with an empty rule there is no tick, and the rounding raises |
| Decisions.ExitPricesOrdered | Python/Tradifact_00_05.py:517-526 | for a positive ask and non-negative percentages, the stop price is at most the target price |
| Decisions.ExitPricesOnTick | Python/Tradifact_00_05.py:517-526 | for a tick with four decimals, both prices are the tick multiples nearest to the raw prices |
| Decisions.OrderReferenceEnds | Python/Tradifact_00_05.py:228-230 | a reference starts with its prefix and ends with its timestamp |
| Decisions.OrderReferenceSymbol | Python/Tradifact_00_05.py:228-230 | references built at the same time under the same name differ for different symbols |
| Decisions.ReferenceStart | Python/Tradifact_00_05.py:228-230 | a reference starts with the first two characters of its prefix |
| Decisions.EntryReferencesDistinct | Python/Tradifact_00_05.py:540-563 | the entry, stop, target, time-exit and OCA references of one entry are pairwise distinct |
| Decisions.LastNewIndex | Python/Tradifact_00_05.py:458-463 | the last id not seen before; every later id repeats an earlier one |
| Decisions.FetchKeepsLastNew | Python/Tradifact_00_05.py:458-463 | `market_rule` is the rule of the last id not seen before |
| Decisions.RepeatedIdKeepsLaterRule | Python/Tradifact_00_05.py:457-463 | with ids "a,b,a", the repeated a is skipped and b's rule prices the exits |
| Decisions.LastFetchedRuleExample | Python/Tradifact_00_05.py:457-463 | with ids "26,27,26", the exits are priced with rule 27 |
| Decisions.EnteredOnlyWhenGated | Python/Tradifact_00_05.py:415-574 | an entry needs an IDLE symbol before its exit time, a signal and a stale row saying OPTIONS; it buys size >= 1 and sells that size in each exit, with the time exit at the exit time; all four orders go to the session's account, the entry is transmitted, and the exits form an OCA group of type 2 |
| Decisions.EnteredStopBelowTarget | Python/Tradifact_00_05.py:517-551 | for a valid row, the stop order's price is at most the target order's limit |
| Decisions.StaleRowSkipsOptionsSymbol | Python/Tradifact_00_05.py:450 | an OPTIONS symbol with a signal is skipped when the stale `row` says STOCKS |
| Decisions.StaleRowIgnoresOwnTrading | Python/Tradifact_00_05.py:450 | the decision never reads the symbol's own `trading` column |
| Decisions.NoOpeningRaises | Python/Tradifact_00_05.py:281-284 | with no opening today, INIT raises and the 9:30 fallback is never used |
| Decisions.ClosedDayRaisesWhileStopping | Python/Tradifact_00_05.py:277-283 | on a closed day outside test mode, INIT both stops the loop and raises |
| Decisions.InitTimesFromCalendar | Python/Tradifact_00_05.py:276-295 | a completed INIT outside test mode opens at the calendar's opening and closes at its close or at 16:00 |
| Decisions.NoDetailsRaises | Python/Tradifact_00_05.py:276 | with no AAPL contract details, `[0]` raises before `alive` or the session times change |
| Decisions.InitStopsIff | Python/Tradifact_00_05.py:276-280 | INIT clears `alive` iff, outside test mode, the AAPL liquid hours parse and no session starts or ends on the market date |
| Decisions.InitTimesFromHours | Python/Tradifact_00_05.py:276-290 | a completed INIT outside test mode opens at the start of the first liquid session starting today, and closes at the end of the last one ending today, or at 16:00 when none ends today |
| Decisions.NextGlobalForward | Python/Tradifact_00_05.py:595-605 | the global state never moves back; ACTIVE only once open <= now < close, DONE only once now >= close |
| TradingLoop.LedgerAppend | Python/Tradifact_00_05.py:120-127 | recording an unseen execution keeps the ledger free of duplicates |
| TradingLoop.NewFillRecordsSnoc | Python/Tradifact_00_05.py:379-387 | one more polled fill is recorded exactly when its execution is new |
| TradingLoop.NewFillRecordsValid | Python/Tradifact_00_05.py:378-387 | polling fills keeps every execution recorded at most once |
| TradingLoop.LedgerWiderSeen | Python/Tradifact_00_05.py:380-382 | a valid ledger stays valid when more executions count as seen |
| TradingLoop.NewFillRecordsComplete | Python/Tradifact_00_05.py:378-387 | every execution id the poll had not seen gets a record |
| TradingLoop.StoppedNone | Python/Tradifact_00_05.py:579-593 | before any stop check, nothing has changed |
| TradingLoop.StatesStoppedOneMore | Python/Tradifact_00_05.py:579-592 | checking one more symbol can only make that symbol IDLE |
| TradingLoop.StopsStoppedOneMore | Python/Tradifact_00_05.py:585-593 | checking one more symbol can only clear that symbol's stop order |
| TradingLoop.StoppedOnlyInPosition | Python/Tradifact_00_05.py:581-593 | the stop phase changes only an ACTIVE symbol, during the ACTIVE global state; it becomes IDLE and its stop order is cleared |
| TradingLoop.PlacedNone | Python/Tradifact_00_05.py:415-416 | before any symbol is tried, no order is placed |
| TradingLoop.ProgressStart | Python/Tradifact_00_05.py:415-416 | before any symbol is tried, every symbol is pending, nothing has changed and no order is placed |
| TradingLoop.SlotAfter | Python/Tradifact_00_05.py:515-574 | one symbol's outcome changes that symbol's state, size and stop order, and nothing else |
| TradingLoop.PlacedOneMore | Python/Tradifact_00_05.py:533-573 | trying one more symbol adds its orders iff it entered |
| TradingLoop.EntryDecisionsFit | Python/Tradifact_00_05.py:416-574 | the decision map holds the decision of every symbol |
| TradingLoop.AppliedAfterAll | Python/Tradifact_00_05.py:416-574 | the maps after trying the symbols one by one equal the maps with all outcomes applied at once, in any order |
| TradingLoop.NoRaiseOneMore | Python/Tradifact_00_05.py:416-574 | one more outcome keeps "nothing raised" iff it is not an exception |
| TradingLoop.ProgressOneMore | Python/Tradifact_00_05.py:416-574 | trying one pending symbol, with its decision as outcome, keeps the entry phase's progress invariant |
| TradingLoop.SlotsAfterAll | Python/Tradifact_00_05.py:416-574 | with all outcomes applied, each symbol's slot is its start slot after its own outcome |
| TradingLoop.TrackedAdd | Python/Tradifact_00_05.py:351-353 | starting to trade a symbol keeps every traded symbol tracked |
| TradingLoop.CoveredLeave | Python/Tradifact_00_05.py:592-593 | a symbol leaving its position keeps every position covered |
| TradingLoop.FirstOccurrencesSymbols | Python/Tradifact_00_05.py:306-310 | `drop_duplicates` keeps every symbol, and the index has exactly the sheet's symbols |
| TradingLoop.FirstOccurrencesDistinct | Python/Tradifact_00_05.py:307-309 | the rows kept have distinct symbols |
| TradingLoop.FirstOccurrencesIndexed | Python/Tradifact_00_05.py:306-310 | the index maps the symbol of every row kept to that row |
| TradingLoop.SheetMapFirst | Python/Tradifact_00_05.py:306-310 | each symbol is indexed to the first row that carries it |
| TradingLoop.OnboardedValid | Python/Tradifact_00_05.py:320-363 | onboarding keeps every traded symbol tracked and every position covered |
| TradingLoop.OnboardedKeeps | Python/Tradifact_00_05.py:321-322 | onboarding never changes a symbol already traded |
| TradingLoop.OnboardedNew | Python/Tradifact_00_05.py:320-353 | a symbol onboarding adds comes from a joining row; it is IDLE, under its stock's local symbol, with its last price |
| TradingLoop.OnboardedComplete | Python/Tradifact_00_05.py:320-353 | every joining row has its symbol traded once onboarding has passed it |
| TradingLoop.FetchMarketRule | Python/Tradifact_00_05.py:457-463 | the loop ends with the rule of the last id not seen before, or raises |
| TradingLoop.FetchRaisedStays | Python/Tradifact_00_05.py:459-463 | once a fetch raises, later ids change nothing |
| TradingLoop.Session.constructor | Python/Tradifact_00_05.py:55-90 | a fresh session is valid, alive, disconnected and in INIT, with every map and set empty |
| TradingLoop.Session.OnExec | Python/Tradifact_00_05.py:105-112 | the execution id is added to `seen_fills`, once |
| TradingLoop.Session.OnCommission | Python/Tradifact_00_05.py:116-127 | a repeated execution id leaves the list unchanged; a new one appends one record; the ledger stays valid |
| TradingLoop.Session.OnBarUpdate | Python/Tradifact_00_05.py:147-151 | the symbol is added to `new_bars` iff a new bar started |
| TradingLoop.Session.Connect | Python/Tradifact_00_05.py:237-258 | connects when disconnected; "0" takes the first managed account; an unmanaged account stops the loop and raises |
| TradingLoop.AskCalendar | Python/Tradifact_00_05.py:276-285 | runs `market_open_at_date` on the market date and `market_open_time`/`market_close_time` on the local date over the first AAPL details' liquid hours; the answers are `CalendarOf`, with IndexError for no details and ValueError for unparsable hours |
| TradingLoop.Session.Initialise | Python/Tradifact_00_05.py:277-297 | keeps the invariant and applies the INIT decision to the calendar's answers: the alive flag, the session times, and WAIT_MARKET_OPEN unless INIT raised |
| TradingLoop.Session.StartUp | Python/Tradifact_00_05.py:266-297 | keeps the invariant; asks the calendar and applies INIT, so the alive flag and the session times are `InitStep` of this iteration's `CalendarOf` |
| TradingLoop.Session.Resubscribe | Python/Tradifact_00_05.py:365-374 | every traded symbol without a ticker gets its ticker and both bar streams; an unnamed bar size raises after the ticker request |
| TradingLoop.RecordFillStep | Python/Tradifact_00_05.py:378-387 | one more polled fill adds its id to the ids, and its record exactly when its execution is new |
| TradingLoop.PollFills | Python/Tradifact_00_05.py:378-387 | the loop over the fills: the seen ids grow by the polled ids, and the records gained are those of unseen executions, in order |
| TradingLoop.Session.RecordFills | Python/Tradifact_00_05.py:378-387 | the seen set grows by the polled ids; the new records are those of unseen executions, in order; the ledger stays valid |
| TradingLoop.Session.SamplePrices | Python/Tradifact_00_05.py:390-392 | for every traded symbol, previous := current and current := the ticker's last; other symbols are unchanged |
| TradingLoop.Session.HandleNewBars | Python/Tradifact_00_05.py:397-410 | the pending set is emptied; it raises iff a symbol lacks instructions, a contract or a bar stream; `row` is left at a looked-up row, and after a normal end with pending symbols it is the row of one of them |
| TradingLoop.Session.ReadInstructions | Python/Tradifact_00_05.py:300-317 | reads again only on a new mtime; duplicate symbols keep their first row; an unreadable file raises and is not read again until it changes |
| TradingLoop.Session.CacheRules | Python/Tradifact_00_05.py:333-335 | fetches exactly the ids not cached, and keeps the cached rules |
| TradingLoop.Session.CacheRuleIds | Python/Tradifact_00_05.py:331-335 | a non-numeric id raises before any fetch; otherwise every id's rule is cached |
| TradingLoop.KeptDetails | Python/Tradifact_00_05.py:324-330 | asking for a stock adds exactly its symbol when it is matched once, holding that match, and changes no other entry |
| TradingLoop.DetailsKeptStep | Python/Tradifact_00_05.py:324-330 | one more onboarded row keeps the details invariant: a symbol it adds was matched once and recorded, and other entries are untouched |
| TradingLoop.DetailsKeptRow | Python/Tradifact_00_05.py:320-336 | the onboarding step of one row keeps the details invariant: the only symbol it can start trading is its own, and only after its match was kept |
| TradingLoop.Session.Qualify | Python/Tradifact_00_05.py:324-335 | a stock not matched exactly once is skipped and nothing changes; otherwise `details[symbol]` becomes its one match, and when its rule ids are numbers the cache gains exactly those ids, each holding the broker's rule, with old entries kept; a non-numeric id raises with the rules unchanged |
| TradingLoop.Session.RequestStreams | Python/Tradifact_00_05.py:337-363 | the daily bars and ticker are started; an unnamed bar size fails the last request, is counted, and raises in fail-fast mode, past 100 or once stopping |
| TradingLoop.Session.Track | Python/Tradifact_00_05.py:351-353 | the symbol is traded, IDLE, with its last price; the invariants hold |
| TradingLoop.Session.Start | Python/Tradifact_00_05.py:337-363 | the streams are started, and the symbol is traded iff they all started |
| TradingLoop.Session.Join | Python/Tradifact_00_05.py:324-363 | a new valid symbol is traded iff its stock qualifies and the bar size has a name; `details` changes as `Qualify` says; the rule cache keeps its entries and every added rule is the broker's |
| TradingLoop.Session.OnboardRow | Python/Tradifact_00_05.py:320-363 | a traded symbol is skipped; an invalid new row raises; otherwise the row's onboarding step is applied; `details` records the stock's one match exactly when the row is new and valid; the rule cache keeps its entries and every added rule is the broker's |
| TradingLoop.Session.Onboard | Python/Tradifact_00_05.py:320-363 | the maps become the onboarding of the rows, up to and including any row that raised; `row` is the last row visited; every newly traded symbol has its broker match in `details`, no entry is dropped, and every new cached rule is the broker's |
| TradingLoop.Session.SwitchTradingState | Python/Tradifact_00_05.py:203-207 | only this symbol's state changes |
| TradingLoop.Session.EnterContract | Python/Tradifact_00_05.py:487-574 | the option entry's outcome, with the size, stop order and state it records |
| TradingLoop.Session.PlaceExits | Python/Tradifact_00_05.py:517-574 | after sizing: exit prices from the rule's tick, the orders, and ACTIVE with the stop order recorded, or a raise |
| TradingLoop.Session.EnterOption | Python/Tradifact_00_05.py:450-574 | an unqualified option makes the symbol DONE_NO_VALID_OPTION; otherwise the contract entry |
| TradingLoop.Session.TryEntry | Python/Tradifact_00_05.py:416-574 | the outcome is the entry decision; the state, size and stop order change as the outcome says |
| TradingLoop.Session.EntryStep | Python/Tradifact_00_05.py:416-574 | one symbol tried; progress is kept, and it reports whether the outcome raised |
| TradingLoop.Session.TryEntries | Python/Tradifact_00_05.py:416-574 | every symbol is tried from its start state until one raises; the maps are the start maps with the outcomes applied; the orders placed are those of the entries |
| TradingLoop.Session.EntryPhase | Python/Tradifact_00_05.py:415-574 | nothing unless ACTIVE; otherwise each outcome is its symbol's decision, the maps have all outcomes applied, and the orders are exactly the entries' |
| TradingLoop.Session.CheckStop | Python/Tradifact_00_05.py:580-593 | a stopped symbol goes back to IDLE and its stop order is cleared; nothing else changes |
| TradingLoop.Session.StopPhase | Python/Tradifact_00_05.py:578-593 | the states and stop orders are those after every symbol's stop check |
| TradingLoop.Session.AdvanceGlobal | Python/Tradifact_00_05.py:595-605 | the global state takes its next value; the phase exits iff it reaches DONE |
| TradingLoop.Session.Recover | Python/Tradifact_00_05.py:618-649 | re-raises in fail-fast mode, past 100 or once stopping; otherwise counts one more, drops the streams of a live connection, keeps the contracts and disconnects |
| TradingLoop.Session.Open | Python/Tradifact_00_05.py:236-297 | keeps the invariant and leaves a connection; the account is the first managed one when "0" was asked on a new connection, else unchanged; INIT ends only normally, with the session times INIT computes from the AAPL liquid hours; other states and times are unchanged |
| TradingLoop.Session.Reread | Python/Tradifact_00_05.py:298-363 | keeps the invariant while the sheet is reread and onboarded; the file's mtime is recorded; the exception count never drops |
| TradingLoop.Session.Refeed | Python/Tradifact_00_05.py:365-387 | keeps the invariant; after a normal end every contract has a ticker and the fills poll is recorded; when the streams raise, the ledger is unchanged |
| TradingLoop.Session.Sample | Python/Tradifact_00_05.py:389-410 | keeps the invariant; every contract's previous price is its old current price, and its current price the ticker's last; the pending bars are emptied, raising as `HandleNewBars` says |
| TradingLoop.Session.Settle | Python/Tradifact_00_05.py:577-605 | the states and stop orders after every stop check, then the next global state; it exits iff it reaches DONE |
| TradingLoop.Session.Trade | Python/Tradifact_00_05.py:414-605 | keeps the invariant; the sizes are the entry outcomes applied; the states and stops are the outcomes applied and, unless an entry raised, then stop-checked; the global state takes its next value unless an entry raised; it exits iff it reaches DONE |
| TradingLoop.Session.Ready | Python/Tradifact_00_05.py:236-363 | keeps the invariant; the global state leaves INIT only for WAIT_MARKET_OPEN and only on a normal end, and is otherwise unchanged with its times; the exception count never drops |
| TradingLoop.Session.Watch | Python/Tradifact_00_05.py:365-410 | keeps the invariant; after a normal end every contract has a previous price |
| TradingLoop.Session.Iterate | Python/Tradifact_00_05.py:235-612 | one pass keeps the invariant and never moves the global state back; it exits iff DONE is reached; the exception count never drops |
| TradingLoop.Session.Step | Python/Tradifact_00_05.py:234-649 | one turn, with recovery: the invariant holds; an exception leaves only when the recovery re-raises; a recovered turn counts at least one more exception and ends at most one past 100 |
| TradingLoop.Session.Run | Python/Tradifact_00_05.py:234-649 | `while c.alive` over the given turns: it stops when the loop dies, exits or an exception leaves; each recovery counts one more exception, so at most 101 - n_exceptions turns recover |

## Left out

- The broker connection and its calls are not modelled; their answers are inputs of the phases that ask for them. This covers `connect`, `reqMktData`, `reqHistoricalData`, `reqContractDetails`, `reqMarketRule`, `placeOrder`, `oneCancelsAll`, `cancelMktData`, `cancelHistoricalData`, `disconnect` and the event subscriptions.
- Placing an order is modelled as building its value (`EntryOrders`). The broker's acknowledgement is not modelled.
- The wait `while entry_trade.filled() != size` is taken to end: the exits are placed as soon as the entry is made. This is cooperative concurrency.
- `ib.sleep`, `waitOnUpdate` and `time.sleep` are left out. Apart from the callbacks they deliver (next line), they are timing only.
- TradingLoop.Session.Run: never calls `OnExec`, `OnCommission` or `OnBarUpdate`, so `new_bars` stays empty and no fill arrives during a `Run`. In the program these callbacks fire inside `ib.sleep` and `waitOnUpdate` (Python/Tradifact_00_05.py lines 260, 412, 469, 488, 567, 576, 599, 607 and 613). The model stays sound when the environment calls the handlers between turns, and each handler's contract says what it changes.
- The spreadsheet arrives as a list of rows, or `None` when it cannot be read. Reading it is pandas I/O, so `read_excel` and `normalize_spreadsheet` are not modelled.
- The program's start-up before the loop is not modelled: argument parsing, logging setup, the `Context` object and the time zones. Its results are the constructor's parameters.
- Time zones and `astimezone` are left out. The loop's instants are integer seconds in market time. Trading hours are a date plus a minute of the day, in the exchange's wall-clock time.
- Decisions.CalendarOf: puts a session edge on the loop's clock unchanged (`Market.MomentInstant` of its date and minute). The source re-labels the edge with the local zone (`.replace(tzinfo=c.local_tz)`, lines 282 and 294-295); the two agree when the exchange's and the loop's zones are the same, and other zones are not modelled.
- `pd.to_datetime` is modelled strictly. It reads exactly twelve digits (or a date, a colon and four digits), and pandas' wider leniency is not modelled.
- Market.Stamp: accepts every year from 1 to 9999; `pd.to_datetime` raises OutOfBoundsDatetime outside its nanosecond range (about 1677 to 2262), and that error is not modelled.
- Fixed.Tick: a minimum increment is positive. A zero increment makes `round(price/min_tick)` raise ZeroDivisionError (Python/trading_framework/orders.py line 28, Python/Tradifact_00_05.py line 222); the broker's market rules do not publish one, and that error is not modelled.
- Python floats are modelled as exact fixed-point values. `round` and `%.4f` are exact round-half-even, not IEEE-754 doubles.
- `ib_error`, `ib_timeout`, the heartbeat, printing and logging are not modelled. They are output only.
- `KeyboardInterrupt` and `SystemExit` (lines 615-617) are not modelled. They only re-raise.
- `exit(0)` after the close is the `Exited` flow. `Run` takes the broker's answers for a finite sequence of turns; a loop that outlives them is not modelled.
- The bars read for a new bar (lines 405-410) are only logged. The model checks the lookups that can raise, not the bar list.
- `trading_framework/account.py`, `log.py`, `base_args.py`, `cli.py` and `context.py` are not part of this model.
- TradingLoop.Session.Iterate: states the invariant, the forward global state, the exit condition and the exception count. What each pass does to the rest of the state is stated by the phase methods `Open`, `Reread`, `Refeed`, `Sample` and `Trade`, and is not carried up.
- TradingLoop.Session.Step: states the invariant, the forward global state, the exit condition, when an exception leaves the loop and how a recovery counts. The rest of the recovery is stated by `Recover`.
- TradingLoop.Session.Reread: states the invariant, the recorded mtime and the exception count. The sheet it reads and the onboarding are stated by `ReadInstructions` and `Onboard`, and are not carried up.
- TradingLoop.Session.Open: does not carry up what `Connect` does to the alive flag for an unmanaged account.
- TradingLoop.Session.Refeed: does not carry up the bar streams `Resubscribe` starts.
- TradingLoop.Session.Sample: does not carry up the prices of symbols that are not traded.
- TradingLoop.Session.Trade: ties the new states, sizes and stops to a ghost map of entry outcomes. It does not carry up that each outcome is its symbol's entry decision: `EntryPhase` states that, and stating it again here costs too much proof.
- TradingLoop.Session.TryEntries, TradingLoop.Session.Resubscribe and TradingLoop.Session.StopPhase pick the next symbol in any order. The program follows the dicts' insertion order. The maps they end with do not depend on the order. Which symbol raises first, and so which later symbols are still tried, does.
- Text.ParseInt: reads ASCII digits and ASCII whitespace only. It does not read other Unicode digits or spaces, which Python's `int()` accepts.
- Decisions.EntryActionIff: a level or strike cell is a number, NaN or the empty string. It is not a string of another kind. Amount, stop, target and flat_delay are taken to be numbers. A blank expiry is the empty string. An expiry pandas reads as NaT is not modelled.
- Decisions.SizeEntry: the multiplier is an integer. The source's `float(option_contract.multiplier)` at line 508 raises ValueError for an empty or non-numeric multiplier text; the model has no such text, so only a zero multiplier raises.
- The entry order is built with `transmit = True`. The exit orders do not set `transmit`; the model records that as `None`, the library's default, and does not model that default's value.
