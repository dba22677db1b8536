/**
 * Price legalisation against the broker's market rules, and the filters over
 * lists of trades and fills (trading_framework/orders.py).
 */
module Orders {
  import opened Basics
  import opened Text
  import opened Fixed

  /** One entry of a market rule: from `lowEdge` upwards, prices move in steps of `increment`. */
  datatype PriceIncrement = PriceIncrement(lowEdge: int, increment: Tick)

  /** A market rule as the broker returns it: a list of (low edge, increment) entries. */
  type MarketRule = seq<PriceIncrement>

  /**
   * The two contract-details fields the rounding reads, as the broker sends
   * them: comma-separated rule ids and exchange names; the i-th rule id
   * belongs to the i-th exchange.
   */
  datatype RuleDetails = RuleDetails(marketRuleIds: string, validExchanges: string)

  /** Why `round_price_from_rules` raises. */
  datatype RoundingError =
    | MalformedRuleId     // ValueError: `int(x)` of a rule id that is not a number
    | NoRuleForExchange   // AttributeError: no rule id for the exchange, or not a known rule
    | NoApplicableTick    // TypeError: no entry's low edge is below the price, min_tick stays None

  /**
   * Among the first `n` positions of `exchanges`, the last one naming `exchange`,
   * or -1 when there is none.
   */
  function LastExchangeIndex(exchanges: seq<string>, exchange: string, n: nat): (i: int)
    requires n <= |exchanges|
    ensures -1 <= i < n
    ensures i >= 0 ==> exchanges[i] == exchange
    ensures forall j :: i < j < n ==> exchanges[j] != exchange
  {
    if n == 0 then -1
    else if exchanges[n - 1] == exchange then n - 1
    else LastExchangeIndex(exchanges, exchange, n - 1)
  }

  /** The rule id `round_price_from_rules` selects: the one zipped with the last matching exchange. */
  function SelectedRuleId(ids: seq<int>, exchanges: seq<string>, exchange: string): (r: Option<int>)
  {
    var n := Min(|exchanges|, |ids|);
    var i := LastExchangeIndex(exchanges, exchange, n);
    if i < 0 then None else Some(ids[i])
  }

  /** The loop of orders.py:9-11, which overwrites `selected_id` at every matching exchange. */
  method SelectRuleId(ids: seq<int>, exchanges: seq<string>, exchange: string) returns (selected: Option<int>)
    ensures selected == SelectedRuleId(ids, exchanges, exchange)
    ensures selected.Some? <==>
              exists i :: 0 <= i < |exchanges| && i < |ids| && exchanges[i] == exchange
  {
    var n := Min(|exchanges|, |ids|);
    selected := None;
    var k := 0;
    while k < n
      invariant 0 <= k <= n
      invariant selected == (var i := LastExchangeIndex(exchanges, exchange, k);
                             if i < 0 then None else Some(ids[i]))
    {
      if exchanges[k] == exchange {
        selected := Some(ids[k]);
      }
      k := k + 1;
    }
    if selected.None? {
      assert forall i :: 0 <= i < n ==> exchanges[i] != exchange;
    }
  }

  /** An entry applies when its low edge is at most both |p| and |q|. */
  predicate Applies(e: PriceIncrement, p: Rational, q: Rational)
  {
    AtMostAbs(e.lowEdge, p) && AtMostAbs(e.lowEdge, q)
  }

  /** Among the first `n` entries of `rule`, the last one that applies, or -1. */
  function LastApplicableIndex(rule: MarketRule, p: Rational, q: Rational, n: nat): (i: int)
    requires n <= |rule|
    ensures -1 <= i < n
    ensures i >= 0 ==> Applies(rule[i], p, q)
    ensures forall j :: i < j < n ==> !Applies(rule[j], p, q)
  {
    if n == 0 then -1
    else if Applies(rule[n - 1], p, q) then n - 1
    else LastApplicableIndex(rule, p, q, n - 1)
  }

  /** The increment of the last entry applying to both prices (`None` when none does). */
  function ApplicableTick(rule: MarketRule, p: Rational, q: Rational): Option<Tick>
  {
    var i := LastApplicableIndex(rule, p, q, |rule|);
    if i < 0 then None else Some(rule[i].increment)
  }

  /**
   * The `min_tick` loops of orders.py:17-19 (one price) and Tradifact_00_05.py:522-524
   * (a stop and a target price): scan every entry, keep the increment of each one that applies.
   */
  method SelectTick(rule: MarketRule, p: Rational, q: Rational) returns (minTick: Option<Tick>)
    ensures minTick == ApplicableTick(rule, p, q)
    ensures minTick.Some? <==> exists j :: 0 <= j < |rule| && Applies(rule[j], p, q)
  {
    minTick := None;
    for k := 0 to |rule|
      invariant minTick == (var i := LastApplicableIndex(rule, p, q, k);
                            if i < 0 then None else Some(rule[i].increment))
    {
      if Applies(rule[k], p, q) {
        minTick := Some(rule[k].increment);
      }
    }
  }

  /** What `round_price_from_rules(price, exchange, details, rules)` returns or raises. */
  function RoundedFromRules(price: Rational, exchange: string, details: RuleDetails,
                            rules: map<int, MarketRule>): Result<int, RoundingError>
  {
    match ParseInts(Split(details.marketRuleIds, ','))
    case None => Err(MalformedRuleId)
    case Some(ids) =>
      match SelectedRuleId(ids, Split(details.validExchanges, ','), exchange)
      case None => Err(NoRuleForExchange)
      case Some(id) =>
        if id !in rules then Err(NoRuleForExchange)
        else match ApplicableTick(rules[id], price, price)
          case None => Err(NoApplicableTick)
          case Some(tick) => Ok(RoundPrice(price, tick))
  }

  /**
   * `round_price_from_rules`: parse the rule ids, pick the exchange's rule,
   * then the tick for |price|, then round.
   */
  method RoundPriceFromRules(price: Rational, exchange: string, details: RuleDetails,
                             rules: map<int, MarketRule>) returns (r: Result<int, RoundingError>)
    ensures r == RoundedFromRules(price, exchange, details, rules)
  {
    var ids := ParseInts(Split(details.marketRuleIds, ','));
    if ids.None? {
      return Err(MalformedRuleId);
    }
    var selected := SelectRuleId(ids.value, Split(details.validExchanges, ','), exchange);
    if selected.None? || selected.value !in rules {
      return Err(NoRuleForExchange);
    }
    var minTick := SelectTick(rules[selected.value], price, price);
    if minTick.None? {
      return Err(NoApplicableTick);
    }
    r := Ok(RoundPrice(price, minTick.value));
  }

  /** The tick depends on the size of the prices only, never on their sign. */
  lemma {:induction false} ApplicableTickIgnoresSign(rule: MarketRule, p: Rational, q: Rational, n: nat)
    requires n <= |rule|
    ensures LastApplicableIndex(rule, Exact(-p.num, p.den), q, n) == LastApplicableIndex(rule, p, q, n)
    ensures LastApplicableIndex(rule, p, Exact(-q.num, q.den), n) == LastApplicableIndex(rule, p, q, n)
  {
    if n > 0 {
      ApplicableTickIgnoresSign(rule, p, q, n - 1);
    }
  }

  /**
   * Rounding from the rules is odd in the price: the same rule and tick are
   * used for -price, and the rounded value is negated.
   */
  lemma RoundedFromRulesNegate(price: Rational, exchange: string, details: RuleDetails,
                               rules: map<int, MarketRule>)
    ensures var neg := RoundedFromRules(Exact(-price.num, price.den), exchange, details, rules);
            var pos := RoundedFromRules(price, exchange, details, rules);
            (neg.Err? <==> pos.Err?) && (pos.Err? ==> neg.error == pos.error) &&
            (pos.Ok? ==> neg.value == -pos.value)
  {
    var negp: Rational := Exact(-price.num, price.den);
    var ids := ParseInts(Split(details.marketRuleIds, ','));
    var sel := if ids.Some? then SelectedRuleId(ids.value, Split(details.validExchanges, ','), exchange) else None;
    if sel.Some? && sel.value in rules {
      var rule := rules[sel.value];
      ApplicableTickIgnoresSign(rule, price, price, |rule|);
      ApplicableTickIgnoresSign(rule, negp, price, |rule|);
      assert ApplicableTick(rule, negp, negp) == ApplicableTick(rule, price, price);
      match ApplicableTick(rule, price, price)
      case None =>
      case Some(tick) => RoundPriceNegate(price, tick);
    }
  }

  /** Details listing rule 26 for SMART alone. */
  lemma SmartOnly()
    ensures ParseInts(Split("26", ',')) == Some([26]) && Split("SMART", ',') == ["SMART"]
  {
    SplitWithoutSeparator("26", ',');
    SplitWithoutSeparator("SMART", ',');
    ParseIntDigits("26");
    assert ParseNat("26") == 26;
    ParseIntsSingle("26");
  }

  /**
   * With rules [(0, 0.01)] on SMART, 1.888 legalises to 1.89.
   */
  lemma RoundedFromRulesExample()
    ensures RoundedFromRules(Exact(188_800_000, 1), "SMART", RuleDetails("26", "SMART"),
                             map[26 := [PriceIncrement(0, 1_000_000)]]) == Ok(189_000_000)
  {
    SmartOnly();
    RoundPriceUpExample();
  }

  /** With rules [(0, 0.01), (1.0, 0.05)] the coarser tick applies from 1.0 on: 1.03 becomes 1.05. */
  lemma RoundedFromRulesSecondTierExample()
    ensures RoundedFromRules(Exact(103_000_000, 1), "SMART", RuleDetails("26", "SMART"),
                             map[26 := [PriceIncrement(0, 1_000_000), PriceIncrement(One, 5_000_000)]])
            == Ok(105_000_000)
  {
    SmartOnly();
    var rule := [PriceIncrement(0, 1_000_000), PriceIncrement(One, 5_000_000)];
    assert ApplicableTick(rule, Exact(103_000_000, 1), Exact(103_000_000, 1)) == Some(5_000_000);
    assert RoundHalfEven(103_000_000, 5_000_000) == 21;
    QuantiseExact(105_000_000);
  }

  // ---------------------------------------------------------------------------
  // Filters over trades and fills.

  /** The parts of an ib_insync trade (an order with its contract) the filters read. */
  datatype Trade = Trade(localSymbol: string, action: string, orderRef: string)

  /** The parts of an execution the fill filter reads; `side` is the side the broker reports. */
  datatype Execution = Execution(execId: string, orderRef: string, side: string)

  /** A fill: the contract's local symbol and the execution. */
  datatype Fill = Fill(localSymbol: string, execution: Execution)

  /** The `matching_trades` test: each non-empty filter must hold. */
  predicate TradeMatches(t: Trade, symbol: string, refPattern: string, action: string, negPattern: string)
  {
    && (symbol == "" || t.localSymbol == symbol)
    && (refPattern == "" || Contains(t.orderRef, refPattern))
    && (action == "" || action == t.action)
    && (negPattern == "" || !Contains(t.orderRef, negPattern))
  }

  /** `matching_trades`: the trades passing every non-empty filter, in their original order. */
  method MatchingTrades(trades: seq<Trade>, symbol: string, refPattern: string, action: string,
                        negPattern: string) returns (matching: seq<Trade>)
    ensures matching == Filter(trades, t => TradeMatches(t, symbol, refPattern, action, negPattern))
  {
    ghost var p := t => TradeMatches(t, symbol, refPattern, action, negPattern);
    matching := [];
    for k := 0 to |trades|
      invariant matching == Filter(trades[..k], p)
    {
      var trade := trades[k];
      assert trades[..k + 1] == trades[..k] + [trade];
      FilterSnoc(trades[..k], trade, p);
      if symbol != "" && trade.localSymbol != symbol {
        continue;
      }
      if refPattern != "" && !Contains(trade.orderRef, refPattern) {
        continue;
      }
      if action != "" && action != trade.action {
        continue;
      }
      if negPattern != "" && Contains(trade.orderRef, negPattern) {
        continue;
      }
      matching := matching + [trade];
    }
    assert trades[..|trades|] == trades;
  }

  /** With every filter empty, `matching_trades` returns all the trades. */
  lemma MatchingTradesNoFilter(trades: seq<Trade>)
    ensures Filter(trades, t => TradeMatches(t, "", "", "", "")) == trades
  {
    FilterKeepsAll(trades, t => TradeMatches(t, "", "", "", ""));
  }

  /** A trade is selected exactly when it is one of the trades and passes every non-empty filter. */
  lemma MatchingTradesMembers(trades: seq<Trade>, symbol: string, refPattern: string, action: string,
                              negPattern: string, t: Trade)
    ensures t in Filter(trades, u => TradeMatches(u, symbol, refPattern, action, negPattern)) <==>
              t in trades && TradeMatches(t, symbol, refPattern, action, negPattern)
  {
    FilterMembers(trades, u => TradeMatches(u, symbol, refPattern, action, negPattern), t);
  }

  /** A non-empty negative pattern excludes every trade whose order reference contains it. */
  lemma MatchingTradesNegPattern(trades: seq<Trade>, symbol: string, refPattern: string, action: string,
                                 negPattern: string)
    requires negPattern != ""
    ensures forall t :: t in Filter(trades, u => TradeMatches(u, symbol, refPattern, action, negPattern)) ==>
              !Contains(t.orderRef, negPattern)
  {
    forall t | t in Filter(trades, u => TradeMatches(u, symbol, refPattern, action, negPattern))
      ensures !Contains(t.orderRef, negPattern)
    {
      MatchingTradesMembers(trades, symbol, refPattern, action, negPattern, t);
    }
  }

  /** Order actions become execution sides: BUY is reported as BOT and SELL as SOLD. */
  function NormaliseAction(action: string): (side: string)
    ensures action == "BUY" ==> side == "BOT"
    ensures action == "SELL" ==> side == "SOLD"
    ensures action != "BUY" && action != "SELL" ==> side == action
  {
    if action == "BUY" then "BOT" else if action == "SELL" then "SOLD" else action
  }

  /** The `matching_fills` test, with the action already normalised. */
  predicate FillMatches(f: Fill, symbol: string, refPattern: string, side: string, negPattern: string)
  {
    && (symbol == "" || symbol == f.localSymbol)
    && (refPattern == "" || Contains(f.execution.orderRef, refPattern))
    && (side == "" || side == f.execution.side)
    && (negPattern == "" || !Contains(f.execution.orderRef, negPattern))
  }

  /**
   * `matching_fills`: like `matching_trades`, on fills, except that the action
   * is compared with the execution side after BUY -> BOT and SELL -> SOLD.  The
   * source renames `action` inside the loop, before its first use in each turn;
   * the result is the same as renaming it once up front.
   */
  method MatchingFills(fills: seq<Fill>, symbol: string, refPattern: string, action: string,
                       negPattern: string) returns (matching: seq<Fill>)
    ensures matching == Filter(fills, f => FillMatches(f, symbol, refPattern, NormaliseAction(action), negPattern))
  {
    ghost var p := f => FillMatches(f, symbol, refPattern, NormaliseAction(action), negPattern);
    var act := action;
    matching := [];
    for k := 0 to |fills|
      invariant act == action || act == NormaliseAction(action)
      invariant matching == Filter(fills[..k], p)
    {
      var fill := fills[k];
      assert fills[..k + 1] == fills[..k] + [fill];
      FilterSnoc(fills[..k], fill, p);
      if symbol != "" && symbol != fill.localSymbol {
        continue;
      }
      if refPattern != "" && !Contains(fill.execution.orderRef, refPattern) {
        continue;
      }
      if act == "BUY" {
        act := "BOT";
      }
      if act == "SELL" {
        act := "SOLD";
      }
      assert act == NormaliseAction(action);
      if act != "" && act != fill.execution.side {
        continue;
      }
      if negPattern != "" && Contains(fill.execution.orderRef, negPattern) {
        continue;
      }
      matching := matching + [fill];
    }
    assert fills[..|fills|] == fills;
  }

  /** Asking for BUY fills selects exactly the executions reported as BOT. */
  lemma MatchingFillsBuyIsBot(fills: seq<Fill>, f: Fill)
    ensures f in Filter(fills, g => FillMatches(g, "", "", NormaliseAction("BUY"), "")) <==>
              f in fills && f.execution.side == "BOT"
  {
    FilterMembers(fills, g => FillMatches(g, "", "", NormaliseAction("BUY"), ""), f);
  }

  /** A non-empty negative pattern excludes every fill whose order reference contains it. */
  lemma MatchingFillsNegPattern(fills: seq<Fill>, symbol: string, refPattern: string, action: string,
                                negPattern: string)
    requires negPattern != ""
    ensures forall f :: f in Filter(fills, g => FillMatches(g, symbol, refPattern, NormaliseAction(action), negPattern)) ==>
              !Contains(f.execution.orderRef, negPattern)
  {
    forall f | f in Filter(fills, g => FillMatches(g, symbol, refPattern, NormaliseAction(action), negPattern))
      ensures !Contains(f.execution.orderRef, negPattern)
    {
      FilterMembers(fills, g => FillMatches(g, symbol, refPattern, NormaliseAction(action), negPattern), f);
    }
  }

  /**
   * `active_order`, over the list the broker's `openTrades()` returns: is there an
   * open trade on `symbol` whose action is one of `directions`?
   */
  method ActiveOrder(openTrades: seq<Trade>, symbol: string, directions: seq<string>) returns (active: bool)
    ensures active <==> exists k :: 0 <= k < |openTrades| && openTrades[k].localSymbol == symbol &&
                                    openTrades[k].action in directions
  {
    for k := 0 to |openTrades|
      invariant forall j :: 0 <= j < k ==> !(openTrades[j].localSymbol == symbol && openTrades[j].action in directions)
    {
      var trade := openTrades[k];
      if trade.localSymbol != symbol {
        continue;
      }
      if trade.action !in directions {
        continue;
      }
      return true;
    }
    return false;
  }
}
