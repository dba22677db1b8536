/**
 * The decisions the day-trading loop (Tradifact_00_05.py) makes from values
 * it already holds: instruction-row validation, level crossing, the entry
 * signal, sizing, stop and target prices, order references, the market rule
 * an option order is priced with, the INIT computation of the session times,
 * the global state steps and the recovery test.  The loop itself, which
 * applies these decisions to its state, is the `Session` class.
 *
 * Amounts, prices, percentages and the flat delay are fixed-point numbers
 * (`Fixed.One` is 1.0).  A price the broker has not delivered yet is NaN in
 * Python; here it is `None`, and every comparison with it is false.
 */
module Decisions {
  import opened Basics
  import opened Text
  import opened Fixed
  import Orders
  import Market

  // ------------------------------------------------------------------ states

  /** The global session state. */
  datatype GlobalState = Init | WaitMarketOpen | Active | Done

  /** The state of one underlying symbol: IDLE, ACTIVE (a position with its exits placed), DONE_NO_VALID_OPTION. */
  datatype TradingState = Idle | InPosition | DoneNoValidOption

  /** The global states in the order the session goes through them. */
  function Rank(g: GlobalState): nat
  {
    match g
    case Init => 0
    case WaitMarketOpen => 1
    case Active => 2
    case Done => 3
  }

  // -------------------------------------------------------- instruction rows

  /**
   * A numeric cell of the entry levels and strikes: a number, NaN (an empty
   * cell in a column that is otherwise numeric) or "" (an empty cell in a
   * column that also holds text, which `normalize_spreadsheet` fills with "").
   */
  datatype Cell = Number(value: int) | NaN | Blank

  /** One row of the instructions spreadsheet. */
  datatype Row = Row(
    symbol: string,
    trading: string,          // "STOCKS" or "OPTIONS"
    currency: string,
    amount: int,              // money to spend on one entry
    stop: int,                // stop distance, percent of the entry price
    target: int,              // target distance, percent of the entry price
    callEntry: Cell, callStrike: Cell, callExp: string,   // callExp: "" for an empty cell
    putEntry: Cell, putStrike: Cell, putExp: string,
    flatDelay: int)           // minutes before the close after which no entry is made

  /** The largest flat delay: a whole regular session, 6 h 30 min. */
  const MaxFlatDelay: int := 6 * 60 + 30

  /** The checks of `valid_row`, named after the condition each rejects. */
  datatype RowProblem =
    | NotStocksOrOptions | AmountBelowOne | StopNotPositive | TargetNotPositive
    | CallEntryNotPositive | CallStrikeNotPositive | PutEntryNotPositive | PutStrikeNotPositive
    | FlatDelayOutOfBounds

  /** The position of each check in `valid_row`. */
  function CheckOrder(p: RowProblem): nat
  {
    match p
    case NotStocksOrOptions => 0
    case AmountBelowOne => 1
    case StopNotPositive => 2
    case TargetNotPositive => 3
    case CallEntryNotPositive => 4
    case CallStrikeNotPositive => 5
    case PutEntryNotPositive => 6
    case PutStrikeNotPositive => 7
    case FlatDelayOutOfBounds => 8
  }

  /**
   * `cell <= 0` is false: a positive number, or NaN, which compares false
   * with everything.  For "" the comparison raises a TypeError.
   */
  predicate PositiveOrNaN(cell: Cell)
  {
    cell.NaN? || (cell.Number? && cell.value > 0)
  }

  /** The row passes the check that `p` names. */
  predicate Passes(row: Row, p: RowProblem)
  {
    match p
    case NotStocksOrOptions => row.trading == "STOCKS" || row.trading == "OPTIONS"
    case AmountBelowOne => row.amount >= One
    case StopNotPositive => row.stop > 0
    case TargetNotPositive => row.target > 0
    case CallEntryNotPositive => PositiveOrNaN(row.callEntry)
    case CallStrikeNotPositive => PositiveOrNaN(row.callStrike)
    case PutEntryNotPositive => PositiveOrNaN(row.putEntry)
    case PutStrikeNotPositive => PositiveOrNaN(row.putStrike)
    case FlatDelayOutOfBounds => 0 <= row.flatDelay <= MaxFlatDelay * One
  }

  /**
   * `valid_row`: the first check the row fails (the one it logs), or `None`.
   * A "" level or strike makes its check raise instead of returning False;
   * its only caller, `assert(valid_row(row))`, raises either way.
   */
  function RowProblemOf(row: Row): Option<RowProblem>
  {
    if row.trading != "STOCKS" && row.trading != "OPTIONS" then Some(NotStocksOrOptions)
    else if row.amount < One then Some(AmountBelowOne)
    else if row.stop <= 0 then Some(StopNotPositive)
    else if row.target <= 0 then Some(TargetNotPositive)
    else if !PositiveOrNaN(row.callEntry) then Some(CallEntryNotPositive)
    else if !PositiveOrNaN(row.callStrike) then Some(CallStrikeNotPositive)
    else if !PositiveOrNaN(row.putEntry) then Some(PutEntryNotPositive)
    else if !PositiveOrNaN(row.putStrike) then Some(PutStrikeNotPositive)
    else if !(0 <= row.flatDelay <= MaxFlatDelay * One) then Some(FlatDelayOutOfBounds)
    else None
  }

  predicate ValidRow(row: Row)
  {
    RowProblemOf(row).None?
  }

  /** A row is valid exactly when it passes every check. */
  lemma ValidRowIff(row: Row)
    ensures ValidRow(row) <==>
      (row.trading == "STOCKS" || row.trading == "OPTIONS") && row.amount >= One
      && row.stop > 0 && row.target > 0
      && (forall c <- [row.callEntry, row.callStrike, row.putEntry, row.putStrike] :: c.NaN? || (c.Number? && c.value > 0))
      && 0 <= row.flatDelay <= MaxFlatDelay * One
  {
  }

  /** The problem reported is the first failing check: every earlier check passed. */
  lemma RowProblemIsFirst(row: Row, p: RowProblem)
    requires RowProblemOf(row) == Some(p)
    ensures !Passes(row, p)
    ensures forall q :: CheckOrder(q) < CheckOrder(p) ==> Passes(row, q)
  {
  }

  /** A row with no problem passes every check. */
  lemma ValidRowPassesAll(row: Row, q: RowProblem)
    requires ValidRow(row)
    ensures Passes(row, q)
  {
  }

  // ----------------------------------------------------------------- crossing

  /** A last price; `None` is NaN (no trade seen yet). */
  type Price = Option<int>

  datatype Direction = Rising | Falling | NoCross

  /** `cross`: how the last price moved across `level` between two samples. */
  function Cross(previous: Price, current: Price, level: int): Direction
  {
    if previous.Some? && current.Some? && previous.value <= level < current.value then Rising
    else if previous.Some? && current.Some? && previous.value >= level > current.value then Falling
    else NoCross
  }

  /** RISING exactly for previous <= level < current, FALLING exactly for previous >= level > current. */
  lemma CrossIff(previous: Price, current: Price, level: int)
    ensures Cross(previous, current, level) == Rising
      <==> previous.Some? && current.Some? && previous.value <= level < current.value
    ensures Cross(previous, current, level) == Falling
      <==> previous.Some? && current.Some? && previous.value >= level > current.value
  {
  }

  /** A rising cross means the price went up, a falling one that it went down. */
  lemma CrossMoves(previous: Price, current: Price, level: int)
    ensures Cross(previous, current, level) == Rising ==> previous.value < current.value
    ensures Cross(previous, current, level) == Falling ==> previous.value > current.value
  {
  }

  /** Between two samples no price rises across one level and falls across another. */
  lemma CallAndPutExclusive(previous: Price, current: Price, callLevel: int, putLevel: int)
    ensures !(Cross(previous, current, callLevel) == Rising && Cross(previous, current, putLevel) == Falling)
  {
    CrossMoves(previous, current, callLevel);
    CrossMoves(previous, current, putLevel);
  }

  // ------------------------------------------------------------- entry signal

  datatype Side = Buy | Sell

  /** `entry != "" and strike != "" and exp != ""`: a NaN cell is not "", so it arms the side. */
  predicate Armed(entry: Cell, strike: Cell, exp: string)
  {
    !entry.Blank? && !strike.Blank? && exp != ""
  }

  /** `cross` against a level cell: no price crosses a NaN level, since every comparison with NaN is false. */
  function CrossLevel(previous: Price, current: Price, level: Cell): Direction
  {
    if level.Number? then Cross(previous, current, level.value) else NoCross
  }

  /** The call side is armed and its level was crossed upwards. */
  predicate CallSignal(row: Row, previous: Price, current: Price)
  {
    Armed(row.callEntry, row.callStrike, row.callExp) && CrossLevel(previous, current, row.callEntry) == Rising
  }

  /** The put side is armed and its level was crossed downwards. */
  predicate PutSignal(row: Row, previous: Price, current: Price)
  {
    Armed(row.putEntry, row.putStrike, row.putExp) && CrossLevel(previous, current, row.putEntry) == Falling
  }

  /**
   * `action` after the two crossing tests: BUY for the call signal, then
   * overwritten by SELL for the put signal, NONE (`None`) for neither.
   */
  function EntryAction(row: Row, previous: Price, current: Price): Option<Side>
  {
    var action := if CallSignal(row, previous, current) then Some(Buy) else None;
    if PutSignal(row, previous, current) then Some(Sell) else action
  }

  /**
   * The put test never overwrites a call signal: BUY exactly on a call
   * signal, SELL exactly on a put one.  A side with a "" entry, strike or
   * expiration, or a NaN level, never signals.
   */
  lemma EntryActionIff(row: Row, previous: Price, current: Price)
    ensures EntryAction(row, previous, current) == Some(Buy) <==> CallSignal(row, previous, current)
    ensures EntryAction(row, previous, current) == Some(Sell) <==> PutSignal(row, previous, current)
    ensures EntryAction(row, previous, current) == Some(Buy) ==>
      row.callEntry.Number? && !row.callStrike.Blank? && row.callExp != ""
      && previous.Some? && current.Some? && previous.value <= row.callEntry.value < current.value
    ensures EntryAction(row, previous, current) == Some(Sell) ==>
      row.putEntry.Number? && !row.putStrike.Blank? && row.putExp != ""
      && previous.Some? && current.Some? && previous.value >= row.putEntry.value > current.value
  {
    if row.callEntry.Number? && row.putEntry.Number? {
      CallAndPutExclusive(previous, current, row.callEntry.value, row.putEntry.value);
    }
  }

  /** `int(x)` of a fixed-point number: truncation toward zero. */
  function Truncate(x: int): int
  {
    if x >= 0 then x / One else -((-x) / One)
  }

  /** `market_close - timedelta(minutes=int(flat_delay))`, in seconds. */
  function ExitTime(close: int, row: Row): int
  {
    close - 60 * Truncate(row.flatDelay)
  }

  /** For a valid row the exit time lies in the last 6 h 30 min before the close, on whole minutes. */
  lemma ExitTimeBounds(close: int, row: Row)
    requires ValidRow(row)
    ensures close - 60 * MaxFlatDelay <= ExitTime(close, row) <= close
    ensures (close - ExitTime(close, row)) % 60 == 0
  {
    var m := row.flatDelay / One;
    assert m * One <= row.flatDelay;
    if m > MaxFlatDelay {
      Fixed.MulMonotone(MaxFlatDelay + 1, m, One);
    }
  }

  // ------------------------------------------------------------------ sizing

  /** The option quote the entry reads: bid, ask and last, each possibly NaN. */
  datatype Quote = Quote(bid: Price, ask: Price, last: Price)

  /** `price <= 0`, false for NaN. */
  predicate AtMostZero(p: Price)
  {
    p.Some? && p.value <= 0
  }

  /** `abs(ask - bid) / last > stop / 100`, false whenever a NaN is involved. */
  predicate SpreadTooWideFor(q: Quote, stopPct: int)
    requires q.last != Some(0)
  {
    q.bid.Some? && q.ask.Some? && q.last.Some?
    && var spread := Abs(q.ask.value - q.bid.value);
       if q.last.value > 0 then spread * (100 * One) > stopPct * q.last.value
       else spread * (100 * One) < stopPct * q.last.value
  }

  /** `math.floor(a / b)`. */
  function FloorDiv(a: int, b: int): int
    requires b != 0
  {
    if b > 0 then a / b else (-a) / (-b)
  }

  /** How the entry sizing at lines 491-514 ends. */
  datatype Sizing = NoPrice | SpreadTooWide | TooExpensive | Sized(size: int) | SizingRaises

  /**
   * Quote checks and sizing: no entry when the bid or the ask is at most
   * zero (a NaN passes that test, since `NaN <= 0` is false), or with a
   * spread above the stop distance; the size is the number of contracts the
   * amount pays for.  A zero last price (division by zero), a NaN ask or a
   * zero multiplier (a NaN or zero divisor) raise.
   */
  function SizeEntry(q: Quote, multiplier: int, amount: int, stopPct: int): Sizing
  {
    if AtMostZero(q.bid) || AtMostZero(q.ask) then NoPrice
    else if q.last == Some(0) then SizingRaises
    else if SpreadTooWideFor(q, stopPct) then SpreadTooWide
    else if q.ask.None? || multiplier == 0 then SizingRaises
    else
      var size := FloorDiv(amount, q.ask.value * multiplier);
      if size <= 0 then TooExpensive else Sized(size)
  }

  /** `FloorDiv` by a positive divisor is the largest multiple not above the dividend. */
  lemma FloorDivBounds(a: int, b: int)
    requires b > 0
    ensures FloorDiv(a, b) * b <= a < (FloorDiv(a, b) + 1) * b
  {
  }

  /**
   * A sized entry has a positive ask, a bid that is positive when it is
   * present (a NaN bid passes both the price and the spread test), a spread
   * within the stop distance, and, for a positive multiplier, the largest
   * number of contracts, at least one, whose price the amount covers.
   */
  lemma SizedEntry(q: Quote, multiplier: int, amount: int, stopPct: int, size: int)
    requires SizeEntry(q, multiplier, amount, stopPct) == Sized(size)
    ensures size >= 1 && q.ask.Some? && q.ask.value > 0
    ensures q.bid.Some? ==> q.bid.value > 0
    ensures q.last != Some(0) && !SpreadTooWideFor(q, stopPct)
    ensures multiplier > 0 ==>
      size * (q.ask.value * multiplier) <= amount < (size + 1) * (q.ask.value * multiplier)
  {
    if multiplier > 0 {
      assert q.ask.value * multiplier > 0;
      FloorDivBounds(amount, q.ask.value * multiplier);
    }
  }

  // --------------------------------------------------------- stop and target

  /** `ask * (1 - stop / 100)`, exactly. */
  function RawStop(ask: int, stopPct: int): Rational
  {
    Exact(ask * (100 * One - stopPct), 100 * One)
  }

  /** `ask * (1 + target / 100)`, exactly. */
  function RawTarget(ask: int, targetPct: int): Rational
  {
    Exact(ask * (100 * One + targetPct), 100 * One)
  }

  datatype Exits = Exits(tick: Tick, stopPrice: int, targetPrice: int)

  /**
   * Lines 517-526: the tick of the last rule entry whose low edge is at most
   * both |raw stop| and |raw target|, and both prices rounded with it; `None`
   * when no entry applies (`round_price` then raises on the missing tick).
   */
  function ExitPrices(ask: int, stopPct: int, targetPct: int, rule: Orders.MarketRule): Option<Exits>
  {
    var rawStop, rawTarget := RawStop(ask, stopPct), RawTarget(ask, targetPct);
    match Orders.ApplicableTick(rule, rawStop, rawTarget)
    case None => None
    case Some(tick) => Some(Exits(tick, RoundPrice(rawStop, tick), RoundPrice(rawTarget, tick)))
  }

  /** The tick used is the increment of the last rule entry that applies to both raw prices. */
  lemma ExitTickIsLastApplicable(ask: int, stopPct: int, targetPct: int, rule: Orders.MarketRule)
    requires ExitPrices(ask, stopPct, targetPct, rule).Some?
    ensures var i := Orders.LastApplicableIndex(rule, RawStop(ask, stopPct), RawTarget(ask, targetPct), |rule|);
      0 <= i < |rule|
      && rule[i].increment == ExitPrices(ask, stopPct, targetPct, rule).value.tick
      && Orders.Applies(rule[i], RawStop(ask, stopPct), RawTarget(ask, targetPct))
      && forall j :: i < j < |rule| ==> !Orders.Applies(rule[j], RawStop(ask, stopPct), RawTarget(ask, targetPct))
  {
  }

  /** No rule entry applies when the rule is empty: the rounding then raises. */
  lemma ExitPricesEmptyRule(ask: int, stopPct: int, targetPct: int)
    ensures ExitPrices(ask, stopPct, targetPct, []) == None
  {
  }

  /** With a positive ask and non-negative distances the stop is never above the target. */
  lemma ExitPricesOrdered(ask: int, stopPct: int, targetPct: int, rule: Orders.MarketRule)
    requires ask > 0 && stopPct >= 0 && targetPct >= 0
    requires ExitPrices(ask, stopPct, targetPct, rule).Some?
    ensures ExitPrices(ask, stopPct, targetPct, rule).value.stopPrice
         <= ExitPrices(ask, stopPct, targetPct, rule).value.targetPrice
  {
    var tick := ExitPrices(ask, stopPct, targetPct, rule).value.tick;
    Fixed.MulMonotone(100 * One - stopPct, 100 * One + targetPct, ask);
    assert ask * (100 * One - stopPct) <= ask * (100 * One + targetPct);
    RoundPriceMonotone(ask * (100 * One - stopPct), ask * (100 * One + targetPct), 100 * One, tick);
  }

  /** With a tick of at most four decimals both prices are the multiples of the tick nearest to the raw ones. */
  lemma ExitPricesOnTick(ask: int, stopPct: int, targetPct: int, rule: Orders.MarketRule)
    requires ExitPrices(ask, stopPct, targetPct, rule).Some?
    requires ExitPrices(ask, stopPct, targetPct, rule).value.tick % FourDecimals == 0
    ensures var e := ExitPrices(ask, stopPct, targetPct, rule).value;
      e.stopPrice % e.tick == 0 && e.targetPrice % e.tick == 0
      && -(e.tick * (100 * One)) <= 2 * (ask * (100 * One - stopPct) - e.stopPrice * (100 * One)) <= e.tick * (100 * One)
      && -(e.tick * (100 * One)) <= 2 * (ask * (100 * One + targetPct) - e.targetPrice * (100 * One)) <= e.tick * (100 * One)
  {
    var tick := ExitPrices(ask, stopPct, targetPct, rule).value.tick;
    RoundPriceNearest(RawStop(ask, stopPct), tick);
    RoundPriceNearest(RawTarget(ask, targetPct), tick);
  }

  // ---------------------------------------------------------- order references

  /** `build_order_reference`: "<prefix>_<script name>_<symbol>_<timestamp>". */
  function OrderReference(prefix: string, name: string, symbol: string, stamp: string): string
  {
    prefix + "_" + name + "_" + symbol + "_" + stamp
  }

  /** The reference starts with its prefix and ends with its timestamp. */
  lemma OrderReferenceEnds(prefix: string, name: string, symbol: string, stamp: string)
    ensures var r := OrderReference(prefix, name, symbol, stamp);
      |r| == |prefix| + |name| + |symbol| + |stamp| + 3
      && r[..|prefix| + 1] == prefix + "_" && r[|r| - |stamp| - 1..] == "_" + stamp
  {
    var r := OrderReference(prefix, name, symbol, stamp);
    assert r == (prefix + "_") + (name + "_" + symbol) + ("_" + stamp);
  }

  /** Orders built at the same time under the same name tell their symbols apart. */
  lemma OrderReferenceSymbol(prefix: string, name: string, s1: string, s2: string, stamp: string)
    requires OrderReference(prefix, name, s1, stamp) == OrderReference(prefix, name, s2, stamp)
    ensures s1 == s2
  {
    var head := prefix + "_" + name + "_";
    var r1, r2 := OrderReference(prefix, name, s1, stamp), OrderReference(prefix, name, s2, stamp);
    assert r1 == head + s1 + ("_" + stamp) && r2 == head + s2 + ("_" + stamp);
    assert s1 == r1[|head|..|r1| - |stamp| - 1];
    assert s2 == r2[|head|..|r2| - |stamp| - 1];
  }

  /** The two characters a reference starts with, which tell the five prefixes of one entry apart. */
  lemma ReferenceStart(prefix: string, name: string, symbol: string, stamp: string)
    requires |prefix| >= 2
    ensures OrderReference(prefix, name, symbol, stamp)[..2] == prefix[..2]
  {
  }

  /** The prefixes of the entry, stop, target and time-exit references and of the OCA group. */
  const EntryPrefixes: seq<string> := ["entry", "stop_exit", "target_exit", "time_exit", "oca"]

  /** The five references of one entry are pairwise distinct. */
  lemma EntryReferencesDistinct(name: string, symbol: string, stamp: string)
    ensures forall i, j | 0 <= i < j < |EntryPrefixes| ::
      OrderReference(EntryPrefixes[i], name, symbol, stamp) != OrderReference(EntryPrefixes[j], name, symbol, stamp)
  {
    var starts := ["en", "st", "ta", "ti", "oc"];
    forall i, j | 0 <= i < j < |EntryPrefixes|
      ensures OrderReference(EntryPrefixes[i], name, symbol, stamp) != OrderReference(EntryPrefixes[j], name, symbol, stamp)
    {
      ReferenceStart(EntryPrefixes[i], name, symbol, stamp);
      ReferenceStart(EntryPrefixes[j], name, symbol, stamp);
      assert EntryPrefixes[i][..2] == starts[i] && EntryPrefixes[j][..2] == starts[j];
    }
  }

  // ----------------------------------------------------------------- orders

  datatype OrderKind = MarketOrder | StopOrder(stopPrice: int) | LimitOrder(limitPrice: int)
                     | MarketAfter(goodAfter: int)   // a market order that waits for a time

  /** An order: `transmit` is `None` where the code leaves the library's default in place. */
  datatype Order = Order(action: string, quantity: int, kind: OrderKind, orderRef: string,
                         account: string, transmit: Option<bool>)

  /** What the orders of one pass carry besides their prefixes: the account (`args.account`) and the time stamp. */
  datatype OrderTag = OrderTag(account: string, stamp: string)

  /** The option an entry trades: its local symbol and its contract multiplier. */
  datatype OptionContract = OptionContract(localSymbol: string, multiplier: int)

  /** What one entry places: a market buy, then a stop, a target and a time exit in one OCA group. */
  datatype EntryOrders = EntryOrders(option: OptionContract, entry: Order, stop: Order, target: Order,
                                     timeExit: Order, ocaGroup: string, ocaType: int)

  /** The OCA type the exits are grouped with: the other exits are reduced as one fills. */
  const ExitsOcaType: int := 2

  /** Lines 533-564. */
  function BuildEntryOrders(option: OptionContract, size: int, exits: Exits, exitTime: int,
                            name: string, symbol: string, tag: OrderTag): EntryOrders
  {
    var at := tag.stamp;
    EntryOrders(option,
      Order("BUY", size, MarketOrder, OrderReference("entry", name, symbol, at), tag.account, Some(true)),
      Order("SELL", size, StopOrder(exits.stopPrice), OrderReference("stop_exit", name, symbol, at), tag.account, None),
      Order("SELL", size, LimitOrder(exits.targetPrice), OrderReference("target_exit", name, symbol, at), tag.account, None),
      Order("SELL", size, MarketAfter(exitTime), OrderReference("time_exit", name, symbol, at), tag.account, None),
      OrderReference("oca", name, symbol, at), ExitsOcaType)
  }

  // ------------------------------------------------------- option market rule

  /** An option request: underlying symbol, expiration, strike and right ('C' or 'P'). */
  datatype OptionSpec = OptionSpec(symbol: string, expiration: string, strike: Cell, right: char)

  /** What the broker answers about an option: its contract (possibly none) and its market rule ids. */
  datatype OptionDetails = OptionDetails(contract: Option<OptionContract>, marketRuleIds: string)

  /** The option the entry asks for: the call for BUY, the put for SELL. */
  function OptionFor(symbol: string, row: Row, side: Side): OptionSpec
  {
    match side
    case Buy => OptionSpec(symbol, row.callExp, row.callStrike, 'C')
    case Sell => OptionSpec(symbol, row.putExp, row.putStrike, 'P')
  }

  /** What `reqMarketRule` answers; a rule it does not know has no entries. */
  function RuleAnswer(answers: map<int, Orders.MarketRule>, id: int): Orders.MarketRule
  {
    if id in answers then answers[id] else []
  }

  /** The state of the loop at lines 459-463: it raised, or `market_rule` holds the last rule fetched. */
  datatype Fetch = FetchRaised | Fetched(rule: Option<Orders.MarketRule>)

  /** The loop over the first `n` ids: each id not seen before is fetched and overwrites `market_rule`. */
  function FetchAfter(ids: seq<string>, answers: map<int, Orders.MarketRule>, n: nat): Fetch
    requires n <= |ids|
  {
    if n == 0 then Fetched(None)
    else
      match FetchAfter(ids, answers, n - 1)
      case FetchRaised => FetchRaised
      case Fetched(r) =>
        if ids[n - 1] in ids[..n - 1] then Fetched(r)
        else match ParseInt(ids[n - 1])
          case None => FetchRaised
          case Some(id) => Fetched(Some(RuleAnswer(answers, id)))
  }

  /** Among the first `n` ids, the index of the last one not seen before, or -1. */
  function LastNewIndex(ids: seq<string>, n: nat): (i: int)
    requires n <= |ids|
    ensures -1 <= i < n
    ensures i >= 0 ==> ids[i] !in ids[..i]
    ensures forall j :: i < j < n ==> ids[j] in ids[..j]
    ensures n > 0 ==> i >= 0
  {
    if n == 0 then -1
    else if ids[n - 1] !in ids[..n - 1] then n - 1
    else
      assert ids[0] !in ids[..0];
      LastNewIndex(ids, n - 1)
  }

  /**
   * The rule an option order is priced with is the one fetched for the last
   * id not seen before, whatever exchange each id belongs to; after a
   * non-empty list `market_rule` is always assigned.
   */
  lemma {:induction false} FetchKeepsLastNew(ids: seq<string>, answers: map<int, Orders.MarketRule>, n: nat)
    requires n <= |ids|
    requires FetchAfter(ids, answers, n).Fetched?
    ensures var i := LastNewIndex(ids, n);
      if i < 0 then FetchAfter(ids, answers, n).rule.None?
      else (ParseInt(ids[i]).Some?
            && FetchAfter(ids, answers, n).rule == Some(RuleAnswer(answers, ParseInt(ids[i]).value)))
  {
    if n > 0 {
      FetchKeepsLastNew(ids, answers, n - 1);
    }
  }

  /**
   * With ids "a,b,a" the rule used is b's: the repeated a is skipped, so the
   * last rule fetched, not the first, prices the order.
   */
  lemma RepeatedIdKeepsLaterRule(a: string, b: string, x: int, y: int, answers: map<int, Orders.MarketRule>)
    requires a != b && ParseInt(a) == Some(x) && ParseInt(b) == Some(y)
    ensures FetchAfter([a, b, a], answers, 3) == Fetched(Some(RuleAnswer(answers, y)))
  {
    var ids := [a, b, a];
    assert ids[..0] == [] && ids[..1] == [a] && ids[..2] == [a, b];
    assert FetchAfter(ids, answers, 1) == Fetched(Some(RuleAnswer(answers, x)));
    assert FetchAfter(ids, answers, 2) == Fetched(Some(RuleAnswer(answers, y)));
  }

  /** With ids "26,27,26" the exits are priced with rule 27. */
  lemma LastFetchedRuleExample(r26: Orders.MarketRule, r27: Orders.MarketRule)
    ensures FetchAfter(["26", "27", "26"], map[26 := r26, 27 := r27], 3) == Fetched(Some(r27))
  {
    ReadsAs("26", 26);
    ReadsAs("27", 27);
    RepeatedIdKeepsLaterRule("26", "27", 26, 27, map[26 := r26, 27 := r27]);
  }

  /** A two-digit id reads as its value. */
  lemma ReadsAs(s: string, n: int)
    requires |s| == 2 && '0' <= s[0] <= '9' && '0' <= s[1] <= '9'
    requires n == 10 * (s[0] as int - '0' as int) + (s[1] as int - '0' as int)
    ensures ParseInt(s) == Some(n)
  {
    ParseIntDigits(s);
    assert s[..1][..0] == [] && s[..2][..1] == s[..1] && s == s[..2];
    assert ParseNat(s[..1]) == DigitValue(s[0]);
  }

  // ----------------------------------------------------------- entry decision

  /** The broker's answers an entry uses: option details, market rules and option quotes. */
  datatype OptionMarket = OptionMarket(
    details: map<OptionSpec, seq<OptionDetails>>,   // a request it cannot answer gets []
    rules: map<int, Orders.MarketRule>,
    quotes: map<string, Quote>)                      // an option it has no data for quotes NaN

  function QuoteOf(market: OptionMarket, localSymbol: string): Quote
  {
    if localSymbol in market.quotes then market.quotes[localSymbol] else Quote(None, None, None)
  }

  function DetailsOf(market: OptionMarket, spec: OptionSpec): seq<OptionDetails>
  {
    if spec in market.details then market.details[spec] else []
  }

  /** How the entry phase ends for one symbol. */
  datatype EntryOutcome =
    | NotIdle | TooLate | NoSignal | NotOptions       // skipped before any request
    | NoValidOption                                    // the symbol becomes DONE_NO_VALID_OPTION
    | NotSized(sizing: Sizing)                         // skipped after the quote: no price, spread too wide, too expensive
    | Entered(size: int, orders: EntryOrders)
    | Raises(sizeRecorded: Option<int>)                // an exception, after `sizes[symbol]` was set or not

  /** The option part of an entry, from the request for the option on (lines 450-574). */
  function OptionEntry(symbol: string, own: Row, side: Side, close: int, market: OptionMarket,
                       name: string, tag: OrderTag): EntryOutcome
  {
    var details := DetailsOf(market, OptionFor(symbol, own, side));
    if |details| == 0 then Raises(None)
    else
      var ids := Split(details[0].marketRuleIds, ',');
      match FetchAfter(ids, market.rules, |ids|)
      case FetchRaised => Raises(None)
      case Fetched(rule) =>
        if details[0].contract.None? then NoValidOption
        else ContractEntry(symbol, own, details[0].contract.value, rule, close, market, name, tag)
  }

  /**
   * Lines 487-574, once the option is qualified: its quote decides the size,
   * and the market rule last fetched decides the tick of the exit prices.
   */
  function ContractEntry(symbol: string, own: Row, option: OptionContract, rule: Option<Orders.MarketRule>,
                         close: int, market: OptionMarket, name: string, tag: OrderTag): EntryOutcome
  {
    var quote := QuoteOf(market, option.localSymbol);
    var sizing := SizeEntry(quote, option.multiplier, own.amount, own.stop);
    if sizing.SizingRaises? then Raises(None)
    else if !sizing.Sized? then NotSized(sizing)
    else ExitsEntry(symbol, own, option, rule, quote.ask.value, sizing.size, close, name, tag)
  }

  /**
   * Lines 509-574, once the size is recorded: the exit prices need the
   * market rule and a tick for them; then the orders are placed.
   */
  function ExitsEntry(symbol: string, own: Row, option: OptionContract, rule: Option<Orders.MarketRule>, ask: int,
                      size: int, close: int, name: string, tag: OrderTag): EntryOutcome
  {
    if rule.None? then Raises(Some(size))
    else match ExitPrices(ask, own.stop, own.target, rule.value)
      case None => Raises(Some(size))
      case Some(exits) =>
        Entered(size, BuildEntryOrders(option, size, exits, ExitTime(close, own), name, symbol, tag))
  }

  /**
   * One symbol's pass through the entry phase (lines 416-574), with the
   * global state ACTIVE.  `own` is the symbol's instruction row (`None` when
   * the instructions no longer list it); `stale` is the module-level `row`
   * that an earlier loop left behind, which decides whether options are traded.
   */
  function EntryDecision(state: TradingState, now: int, close: int, own: Option<Row>,
                         previous: Price, current: Price, stale: Option<Row>, symbol: string,
                         market: OptionMarket, name: string, tag: OrderTag): EntryOutcome
  {
    if state != Idle then NotIdle
    else if own.None? then Raises(None)
    else if now >= ExitTime(close, own.value) then TooLate
    else
      match EntryAction(own.value, previous, current)
      case None => NoSignal
      case Some(side) =>
        if stale.None? then Raises(None)
        else if stale.value.trading != "OPTIONS" then NotOptions
        else OptionEntry(symbol, own.value, side, close, market, name, tag)
  }

  /**
   * An entry is made only for an IDLE symbol before its exit time, on a
   * crossing signal, for a positive bid and ask and a spread within the stop
   * distance; it buys at least one contract and sells the same size in each
   * exit, every order goes to the configured account, and the entry is
   * transmitted.
   */
  lemma EnteredOnlyWhenGated(state: TradingState, now: int, close: int, own: Option<Row>,
                             previous: Price, current: Price, stale: Option<Row>, symbol: string,
                             market: OptionMarket, name: string, tag: OrderTag)
    requires EntryDecision(state, now, close, own, previous, current, stale, symbol, market, name, tag).Entered?
    ensures state == Idle && own.Some? && now < ExitTime(close, own.value)
    ensures EntryAction(own.value, previous, current).Some?
    ensures stale.Some? && stale.value.trading == "OPTIONS"
    ensures var e := EntryDecision(state, now, close, own, previous, current, stale, symbol, market, name, tag);
      e.size >= 1 && e.orders.entry.quantity == e.size && e.orders.entry.action == "BUY"
      && e.orders.stop.quantity == e.size && e.orders.target.quantity == e.size && e.orders.timeExit.quantity == e.size
      && e.orders.stop.action == "SELL" && e.orders.target.action == "SELL" && e.orders.timeExit.action == "SELL"
      && e.orders.timeExit.kind == MarketAfter(ExitTime(close, own.value))
    ensures var e := EntryDecision(state, now, close, own, previous, current, stale, symbol, market, name, tag);
      e.orders.entry.account == tag.account && e.orders.stop.account == tag.account
      && e.orders.target.account == tag.account && e.orders.timeExit.account == tag.account
      && e.orders.entry.transmit == Some(true) && e.orders.ocaType == ExitsOcaType
  {
    var side := EntryAction(own.value, previous, current).value;
    var details := DetailsOf(market, OptionFor(symbol, own.value, side));
    var option := details[0].contract.value;
    var quote := QuoteOf(market, option.localSymbol);
    SizedEntry(quote, option.multiplier, own.value.amount, own.value.stop,
               SizeEntry(quote, option.multiplier, own.value.amount, own.value.stop).size);
  }

  /** For a valid own row the stop order's price is never above the target order's. */
  lemma EnteredStopBelowTarget(state: TradingState, now: int, close: int, own: Option<Row>,
                               previous: Price, current: Price, stale: Option<Row>, symbol: string,
                               market: OptionMarket, name: string, tag: OrderTag)
    requires EntryDecision(state, now, close, own, previous, current, stale, symbol, market, name, tag).Entered?
    requires own.Some? && ValidRow(own.value)
    ensures var e := EntryDecision(state, now, close, own, previous, current, stale, symbol, market, name, tag);
      e.orders.stop.kind.StopOrder? && e.orders.target.kind.LimitOrder?
      && e.orders.stop.kind.stopPrice <= e.orders.target.kind.limitPrice
  {
    var side := EntryAction(own.value, previous, current).value;
    var details := DetailsOf(market, OptionFor(symbol, own.value, side));
    var ids := Split(details[0].marketRuleIds, ',');
    var rule := FetchAfter(ids, market.rules, |ids|).rule.value;
    var option := details[0].contract.value;
    var quote := QuoteOf(market, option.localSymbol);
    SizedEntry(quote, option.multiplier, own.value.amount, own.value.stop,
               SizeEntry(quote, option.multiplier, own.value.amount, own.value.stop).size);
    ExitPricesOrdered(quote.ask.value, own.value.stop, own.value.target, rule);
  }

  /**
   * Whether options are traded is read from the stale `row`, not from the
   * symbol's own row: an OPTIONS symbol is skipped when the row left behind
   * says STOCKS, whatever its signal.
   */
  lemma StaleRowSkipsOptionsSymbol(now: int, close: int, own: Row, previous: Price, current: Price,
                                   stale: Row, symbol: string, market: OptionMarket, name: string, tag: OrderTag)
    requires own.trading == "OPTIONS" && stale.trading == "STOCKS"
    requires now < ExitTime(close, own) && EntryAction(own, previous, current).Some?
    ensures EntryDecision(Idle, now, close, Some(own), previous, current, Some(stale), symbol, market, name, tag) == NotOptions
  {
  }

  /**
   * Conversely a STOCKS symbol gets an option entry when the row left behind
   * says OPTIONS: the decision never reads the symbol's own `trading` column.
   */
  lemma StaleRowIgnoresOwnTrading(state: TradingState, now: int, close: int, own: Row,
                                  previous: Price, current: Price, stale: Row, symbol: string,
                                  market: OptionMarket, name: string, tag: OrderTag, trading: string)
    ensures EntryDecision(state, now, close, Some(own.(trading := trading)), previous, current, Some(stale), symbol, market, name, tag)
         == EntryDecision(state, now, close, Some(own), previous, current, Some(stale), symbol, market, name, tag)
  {
    var other := own.(trading := trading);
    assert ExitTime(close, other) == ExitTime(close, own);
    assert EntryAction(other, previous, current) == EntryAction(own, previous, current);
    forall side: Side
      ensures OptionEntry(symbol, other, side, close, market, name, tag) == OptionEntry(symbol, own, side, close, market, name, tag)
    {
      assert OptionFor(symbol, other, side) == OptionFor(symbol, own, side);
    }
  }

  // ---------------------------------------------------------------- INIT

  /** Why a calendar query of INIT raises. */
  datatype InitError =
    | NoDetails                          // `reqContractDetails(...)[0]` of an empty list: IndexError
    | BadHours(error: Market.HoursError) // `parse_hours` fails: ValueError

  /** The calendar answers INIT asks for, as instants in seconds. */
  datatype Calendar = Calendar(
    openToday: Result<bool, InitError>,        // market_open_at_date(market date)
    openTime: Result<Option<int>, InitError>,  // market_open_time(today)
    closeTime: Result<Option<int>, InitError>) // market_close_time(today)

  /** A session edge, when there is one, as an instant. */
  function EdgeInstant(edge: Option<Market.Moment>): Option<int>
    requires edge.Some? ==> 1 <= edge.value.date.month <= 12
  {
    if edge.None? then None else Some(Market.MomentInstant(edge.value))
  }

  /**
   * Lines 276-285: what the three queries answer over the liquid hours of
   * the first AAPL contract details the broker lists.  `market_open_at_date`
   * is asked about the market date, the other two about the local date.
   */
  function CalendarOf(aapl: seq<Market.ContractHours>, marketDate: Market.Date, today: Market.Date): Calendar
  {
    if |aapl| == 0 then Calendar(Err(NoDetails), Err(NoDetails), Err(NoDetails))
    else
      var hours := Market.HoursText(aapl[0], false);
      match Market.ParsedHours(hours)
      case Err(e) => Calendar(Err(BadHours(e)), Err(BadHours(e)), Err(BadHours(e)))
      case Ok(schedule) =>
        Market.ScheduleDated(hours);
        var ivs := schedule.intervals;
        Calendar(Ok(Market.TouchesDate(ivs, marketDate)),
                 Ok(EdgeInstant(Market.FirstStart(ivs, today))),
                 Ok(EdgeInstant(Market.LastEnd(ivs, today))))
  }

  /** What INIT leaves: whether the loop stays alive, and the session times, or `None` when it raised. */
  datatype InitResult = InitResult(stayAlive: bool, times: Option<(int, int)>)

  /** The start of the day of `now`, in seconds. */
  function DayStart(now: int): int
  {
    (now / 86400) * 86400
  }

  /**
   * Lines 276-295.  The market counts as open today when the calendar says
   * so or in test mode; otherwise the loop is told to stop.  The open time's
   * `.replace` runs before its `None` check, so a day with no opening raises
   * instead of falling back to 9:30; a missing close falls back to 16:00 of
   * the market day.  Test mode opens 10 s from now and closes 600 s later.
   */
  function InitStep(now: int, testRightNow: bool, cal: Calendar): InitResult
  {
    match cal.openToday
    case Err(_) => InitResult(true, None)
    case Ok(openToday) =>
      var stay := openToday || testRightNow;
      match cal.openTime
      case Err(_) => InitResult(stay, None)
      case Ok(open) =>
        if open.None? then InitResult(stay, None)   // None.replace(tzinfo=...) raises
        else match cal.closeTime
          case Err(_) => InitResult(stay, None)
          case Ok(close) =>
            var closeAt := if close.Some? then close.value else DayStart(now) + 16 * 3600;
            if testRightNow then InitResult(stay, Some((now + 10, now + 10 + 600)))
            else InitResult(stay, Some((open.value, closeAt)))
  }

  /** The 9:30 fallback is never reached: with no opening today INIT always raises. */
  lemma NoOpeningRaises(now: int, testRightNow: bool, openToday: Result<bool, InitError>,
                        closeTime: Result<Option<int>, InitError>)
    ensures InitStep(now, testRightNow, Calendar(openToday, Ok(None), closeTime)).times == None
  {
  }

  /**
   * On a closed day (no session, no opening) outside test mode INIT both
   * stops the loop and raises, so the recovery re-raises instead of ending cleanly.
   */
  lemma ClosedDayRaisesWhileStopping(now: int, closeTime: Result<Option<int>, InitError>)
    ensures InitStep(now, false, Calendar(Ok(false), Ok(None), closeTime)) == InitResult(false, None)
  {
  }

  /** When INIT completes outside test mode the session opens at the calendar's opening. */
  lemma InitTimesFromCalendar(now: int, cal: Calendar)
    requires InitStep(now, false, cal).times.Some?
    ensures cal.openTime.Ok? && cal.openTime.value.Some?
    ensures InitStep(now, false, cal).times.value.0 == cal.openTime.value.value
    ensures InitStep(now, false, cal).times.value.1
         == if cal.closeTime.value.Some? then cal.closeTime.value.value else DayStart(now) + 16 * 3600
  {
  }

  /** Without AAPL details INIT raises before it touches `alive` or the session times. */
  lemma NoDetailsRaises(now: int, testRightNow: bool, marketDate: Market.Date, today: Market.Date)
    ensures InitStep(now, testRightNow, CalendarOf([], marketDate, today)) == InitResult(true, None)
  {
  }

  /**
   * INIT stops the loop exactly when the hours parse and no liquid session
   * starts or ends on the market date, outside test mode.
   */
  lemma InitStopsIff(now: int, testRightNow: bool, aapl: seq<Market.ContractHours>,
                     marketDate: Market.Date, today: Market.Date)
    ensures !InitStep(now, testRightNow, CalendarOf(aapl, marketDate, today)).stayAlive
        <==> !testRightNow && |aapl| > 0 && Market.ScheduleOf(aapl[0], false).Ok?
             && !Market.TouchesDate(Market.ScheduleOf(aapl[0], false).value.intervals, marketDate)
  {
  }

  /**
   * When INIT completes outside test mode, the session opens at the start of
   * the first liquid session that starts today, and closes at the end of the
   * last one that ends today, or at 16:00 when none does.
   */
  lemma InitTimesFromHours(now: int, aapl: seq<Market.ContractHours>, marketDate: Market.Date, today: Market.Date)
    requires InitStep(now, false, CalendarOf(aapl, marketDate, today)).times.Some?
    ensures |aapl| > 0 && Market.ScheduleOf(aapl[0], false).Ok?
    ensures var ivs := Market.ScheduleOf(aapl[0], false).value.intervals;
            var times := InitStep(now, false, CalendarOf(aapl, marketDate, today)).times.value;
            exists k | 0 <= k < |ivs| ::
              ivs[k].start.date == today && Market.Dated(ivs[k]) && times.0 == Market.MomentInstant(ivs[k].start)
              && forall m | 0 <= m < k :: ivs[m].start.date != today
    ensures var ivs := Market.ScheduleOf(aapl[0], false).value.intervals;
            var times := InitStep(now, false, CalendarOf(aapl, marketDate, today)).times.value;
            (exists k | 0 <= k < |ivs| ::
               ivs[k].end.date == today && Market.Dated(ivs[k]) && times.1 == Market.MomentInstant(ivs[k].end)
               && forall m | k < m < |ivs| :: ivs[m].end.date != today)
            || ((forall k | 0 <= k < |ivs| :: ivs[k].end.date != today) && times.1 == DayStart(now) + 16 * 3600)
  {
    var hours := Market.HoursText(aapl[0], false);
    Market.ScheduleDated(hours);
    InitTimesFromCalendar(now, CalendarOf(aapl, marketDate, today));
  }

  // ------------------------------------------------------ global transitions

  /** Lines 595-605: WAIT_MARKET_OPEN becomes ACTIVE at the opening, ACTIVE becomes DONE at the close. */
  function NextGlobal(g: GlobalState, now: int, open: int, close: int): GlobalState
  {
    var afterOpen := if g == WaitMarketOpen && now >= open then Active else g;
    if afterOpen == Active && now >= close then Done else afterOpen
  }

  /**
   * The global state never moves back; it becomes ACTIVE only once the
   * opening is reached and DONE only once the close is reached.
   */
  lemma NextGlobalForward(g: GlobalState, now: int, open: int, close: int)
    ensures Rank(NextGlobal(g, now, open, close)) >= Rank(g)
    ensures NextGlobal(g, now, open, close) != g ==> g == WaitMarketOpen || g == Active
    ensures NextGlobal(g, now, open, close) == Active && g != Active ==> now >= open && now < close
    ensures NextGlobal(g, now, open, close) == Done && g != Done ==> now >= close
    ensures NextGlobal(g, now, open, close) == Done && g == WaitMarketOpen ==> now >= open
  {
  }

  // --------------------------------------------------------------- recovery

  /** The most exceptions the loop recovers from. */
  const MaxExceptions: int := 100

  /** Line 622: an unexpected exception is re-raised in fail-fast mode, past 100 exceptions, or once stopping. */
  predicate Reraises(failFast: bool, nExceptions: int, alive: bool)
  {
    failFast || nExceptions > MaxExceptions || !alive
  }
}
