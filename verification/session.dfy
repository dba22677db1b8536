/**
 * The trading loop of Tradifact_00_05.py as a `Session` object whose fields
 * are the loop's context: one method per phase of an iteration, the three
 * event handlers the broker calls back, and the recovery that runs when an
 * iteration raises.  Everything the broker answers (accounts, contract
 * details, market rules, quotes, fills, the current time) is an input of the
 * phase that asks for it.
 */
module TradingLoop {
  import opened Basics
  import opened Text
  import opened Fixed
  import Orders
  import Bars
  import Market
  import opened Decisions

  /** How a phase ends: normally, with an exception, or by `exit(0)` after the close. */
  datatype Flow = Normal | Raised | Exited

  /** What the broker says about a stock: its local symbol and its market rule ids. */
  datatype StockDetails = StockDetails(localSymbol: string, marketRuleIds: string)

  /** The stop order kept per symbol, or `[]` once the stop has filled. */
  datatype StopTrade = Placed(orderRef: string) | Cleared

  datatype CommissionReport = CommissionReport(execId: string, commission: int, currency: string)

  /** A fill as `ib.fills()` lists it, with its commission report. */
  datatype BrokerFill = BrokerFill(localSymbol: string, execution: Orders.Execution, report: CommissionReport)

  /** An entry of `commissions`: from the commission event, or from the fills poll. */
  datatype CommissionRecord =
    | FromEvent(trade: Orders.Trade, fill: Orders.Fill, report: CommissionReport)
    | FromFills(execution: Orders.Execution, report: CommissionReport)

  function RecordId(r: CommissionRecord): string
  {
    match r
    case FromEvent(_, fill, _) => fill.execution.execId
    case FromFills(execution, _) => execution.execId
  }

  // ------------------------------------------------------ commission ledger

  /** Every record is for a seen execution, and no execution is recorded twice. */
  predicate LedgerValid(records: seq<CommissionRecord>, seen: set<string>)
  {
    (forall i | 0 <= i < |records| :: RecordId(records[i]) in seen)
    && (forall i, j | 0 <= i < j < |records| :: RecordId(records[i]) != RecordId(records[j]))
  }

  /** Recording an execution not seen before keeps the ledger free of duplicates. */
  lemma LedgerAppend(records: seq<CommissionRecord>, seen: set<string>, r: CommissionRecord)
    requires LedgerValid(records, seen) && RecordId(r) !in seen
    ensures LedgerValid(records + [r], seen + {RecordId(r)})
  {
    var ext := records + [r];
    forall i, j | 0 <= i < j < |ext|
      ensures RecordId(ext[i]) != RecordId(ext[j])
    {
      if j == |records| {
        assert RecordId(ext[i]) in seen;
      }
    }
  }

  /** The execution ids of a list of fills. */
  function FillIds(fills: seq<BrokerFill>): set<string>
  {
    set i | 0 <= i < |fills| :: fills[i].execution.execId
  }

  /** The records the fills poll (lines 378-387) appends: one per execution not seen before, in order. */
  function NewFillRecords(seen: set<string>, fills: seq<BrokerFill>): seq<CommissionRecord>
  {
    if |fills| == 0 then []
    else
      var init, f := fills[..|fills| - 1], fills[|fills| - 1];
      if f.execution.execId in seen + FillIds(init) then NewFillRecords(seen, init)
      else NewFillRecords(seen, init) + [FromFills(f.execution, f.report)]
  }

  /** One more polled fill: recorded exactly when its execution is new. */
  lemma NewFillRecordsSnoc(seen: set<string>, fills: seq<BrokerFill>, f: BrokerFill)
    ensures NewFillRecords(seen, fills + [f])
         == if f.execution.execId in seen + FillIds(fills) then NewFillRecords(seen, fills)
            else NewFillRecords(seen, fills) + [FromFills(f.execution, f.report)]
  {
    var ext := fills + [f];
    assert ext[..|ext| - 1] == fills && ext[|ext| - 1] == f;
  }

  lemma FillIdsSnoc(fills: seq<BrokerFill>, f: BrokerFill)
    ensures FillIds(fills + [f]) == FillIds(fills) + {f.execution.execId}
  {
    var ext := fills + [f];
    assert ext[|fills|] == f;
    forall id | id in FillIds(ext) ensures id in FillIds(fills) + {f.execution.execId} {
      var i :| 0 <= i < |ext| && ext[i].execution.execId == id;
      if i < |fills| {
        assert fills[i] == ext[i];
      }
    }
    forall id | id in FillIds(fills) ensures id in FillIds(ext) {
      var i :| 0 <= i < |fills| && fills[i].execution.execId == id;
      assert ext[i] == fills[i];
    }
  }

  /** The fills poll one step further: the ids and the records after fill k. */
  lemma RecordFillStep(seen: set<string>, fills: seq<BrokerFill>, k: nat)
    requires k < |fills|
    ensures FillIds(fills[..k + 1]) == FillIds(fills[..k]) + {fills[k].execution.execId}
    ensures NewFillRecords(seen, fills[..k + 1])
         == if fills[k].execution.execId in seen + FillIds(fills[..k]) then NewFillRecords(seen, fills[..k])
            else NewFillRecords(seen, fills[..k]) + [FromFills(fills[k].execution, fills[k].report)]
  {
    assert fills[..k + 1] == fills[..k] + [fills[k]];
    FillIdsSnoc(fills[..k], fills[k]);
    NewFillRecordsSnoc(seen, fills[..k], fills[k]);
  }

  /**
   * The loop of lines 378-387 over the polled fills: an execution id not
   * seen yet is marked seen and its record appended.
   */
  method PollFills(seen0: set<string>, records0: seq<CommissionRecord>, fills: seq<BrokerFill>)
    returns (seen: set<string>, records: seq<CommissionRecord>)
    ensures seen == seen0 + FillIds(fills)
    ensures records == records0 + NewFillRecords(seen0, fills)
  {
    seen, records := seen0, records0;
    for k := 0 to |fills|
      invariant seen == seen0 + FillIds(fills[..k])
      invariant records == records0 + NewFillRecords(seen0, fills[..k])
    {
      var f := fills[k];
      RecordFillStep(seen0, fills, k);
      if f.execution.execId !in seen {
        seen := seen + {f.execution.execId};
        records := records + [FromFills(f.execution, f.report)];
      }
    }
    assert fills[..|fills|] == fills;
  }

  /**
   * Polling fills keeps the ledger valid, and each execution id it has not
   * seen gets exactly the record of its first fill.
   */
  lemma {:induction false} NewFillRecordsValid(records: seq<CommissionRecord>, seen: set<string>, fills: seq<BrokerFill>)
    requires LedgerValid(records, seen)
    ensures LedgerValid(records + NewFillRecords(seen, fills), seen + FillIds(fills))
    decreases |fills|
  {
    if |fills| > 0 {
      var init, f := fills[..|fills| - 1], fills[|fills| - 1];
      assert fills == init + [f];
      FillIdsSnoc(init, f);
      NewFillRecordsValid(records, seen, init);
      var before := records + NewFillRecords(seen, init);
      if f.execution.execId !in seen + FillIds(init) {
        LedgerAppend(before, seen + FillIds(init), FromFills(f.execution, f.report));
        assert before + [FromFills(f.execution, f.report)] == records + NewFillRecords(seen, fills);
      } else {
        LedgerWiderSeen(before, seen + FillIds(init), seen + FillIds(fills));
      }
    }
  }

  /** A ledger stays valid when more executions count as seen. */
  lemma LedgerWiderSeen(records: seq<CommissionRecord>, seen: set<string>, wider: set<string>)
    requires LedgerValid(records, seen) && seen <= wider
    ensures LedgerValid(records, wider)
  {
  }

  /** Every execution id the poll had not seen is recorded. */
  lemma {:induction false} NewFillRecordsComplete(seen: set<string>, fills: seq<BrokerFill>, id: string)
    requires id in FillIds(fills) && id !in seen
    ensures exists k :: 0 <= k < |NewFillRecords(seen, fills)| && RecordId(NewFillRecords(seen, fills)[k]) == id
    decreases |fills|
  {
    var init, f := fills[..|fills| - 1], fills[|fills| - 1];
    assert fills == init + [f];
    FillIdsSnoc(init, f);
    var prev := NewFillRecords(seen, init);
    if id in FillIds(init) {
      NewFillRecordsComplete(seen, init, id);
      var k :| 0 <= k < |prev| && RecordId(prev[k]) == id;
      assert NewFillRecords(seen, fills)[k] == prev[k];
    } else {
      assert id == f.execution.execId;
      assert RecordId(NewFillRecords(seen, fills)[|prev|]) == id;
    }
  }

  // ----------------------------------------------------------- small lookups

  /** The last price of a ticker; one with no data yet reads NaN. */
  function PriceOf(lasts: map<string, Price>, symbol: string): Price
  {
    if symbol in lasts then lasts[symbol] else None
  }

  /** `filled()` of an order, by its reference; an order with no fill reads 0. */
  function FilledOf(filled: map<string, int>, orderRef: string): int
  {
    if orderRef in filled then filled[orderRef] else 0
  }

  /** The instruction row of a symbol, `None` when `.loc[symbol]` raises. */
  function Lookup(instructions: map<string, Row>, symbol: string): Option<Row>
  {
    if symbol in instructions then Some(instructions[symbol]) else None
  }

  /** The trading state an entry outcome leaves. */
  function AfterEntry(state: TradingState, outcome: EntryOutcome): TradingState
  {
    match outcome
    case Entered(_, _) => InPosition
    case NoValidOption => DoneNoValidOption
    case _ => state
  }

  /** The size an entry outcome records, if any. */
  function SizeRecorded(outcome: EntryOutcome): Option<int>
  {
    match outcome
    case Entered(size, _) => Some(size)
    case Raises(size) => size
    case _ => None
  }


  /** A map lookup as an option. */
  function Get<K, V>(m: map<K, V>, k: K): Option<V>
  {
    if k in m then Some(m[k]) else None
  }

  /**
   * The test at lines 581-593: a symbol in position, during the ACTIVE
   * state, whose stop order has filled its whole size.
   */
  predicate StopHit(global: GlobalState, state: TradingState, trade: Option<StopTrade>, size: Option<int>,
                    filled: map<string, int>)
  {
    state == InPosition && global == Active && trade.Some? && trade.value.Placed? && size.Some?
    && FilledOf(filled, trade.value.orderRef) == size.value
  }

  /** Whether the stop check fires for `symbol`, from the states and stop orders of the phase's start. */
  predicate StoppedOut(global: GlobalState, states: map<string, TradingState>, stops: map<string, StopTrade>,
                       sizes: map<string, int>, symbol: string, filled: map<string, int>)
  {
    symbol in states && StopHit(global, states[symbol], Get(stops, symbol), Get(sizes, symbol), filled)
  }

  /**
   * The trading states once every symbol but those `unchecked` had its stop
   * checked: a stopped symbol is IDLE again.
   */
  function StatesStopped(global: GlobalState, states: map<string, TradingState>, stops: map<string, StopTrade>,
                         sizes: map<string, int>, filled: map<string, int>, unchecked: set<string>): map<string, TradingState>
  {
    map s | s in states :: if s !in unchecked && StoppedOut(global, states, stops, sizes, s, filled) then Idle else states[s]
  }

  /** The stop orders once every symbol but those `unchecked` had its stop checked: a stopped symbol's order is cleared. */
  function StopsStopped(global: GlobalState, states: map<string, TradingState>, stops: map<string, StopTrade>,
                        sizes: map<string, int>, filled: map<string, int>, unchecked: set<string>): map<string, StopTrade>
  {
    map s | s in stops :: if s !in unchecked && StoppedOut(global, states, stops, sizes, s, filled) then Cleared else stops[s]
  }

  /** Before any check nothing has changed. */
  lemma StoppedNone(global: GlobalState, states: map<string, TradingState>, stops: map<string, StopTrade>,
                    sizes: map<string, int>, filled: map<string, int>, unchecked: set<string>)
    requires states.Keys <= unchecked
    ensures StatesStopped(global, states, stops, sizes, filled, unchecked) == states
    ensures StopsStopped(global, states, stops, sizes, filled, unchecked) == stops
  {
  }

  /** Checking one more symbol: it still has its state of the phase's start, and only it may become IDLE. */
  lemma {:induction false} StatesStoppedOneMore(global: GlobalState, states: map<string, TradingState>,
                                                stops: map<string, StopTrade>, sizes: map<string, int>,
                                                filled: map<string, int>, unchecked: set<string>, symbol: string)
    requires symbol in states && symbol in unchecked
    ensures var before := StatesStopped(global, states, stops, sizes, filled, unchecked);
      symbol in before && before[symbol] == states[symbol]
      && StatesStopped(global, states, stops, sizes, filled, unchecked - {symbol})
         == if StoppedOut(global, states, stops, sizes, symbol, filled) then before[symbol := Idle] else before
  {
    var before := StatesStopped(global, states, stops, sizes, filled, unchecked);
    var after := StatesStopped(global, states, stops, sizes, filled, unchecked - {symbol});
    var expected := if StoppedOut(global, states, stops, sizes, symbol, filled) then before[symbol := Idle] else before;
    assert after.Keys == expected.Keys;
    forall s | s in after
      ensures after[s] == expected[s]
    {
    }
  }

  /** Checking one more symbol: it still has its stop order of the phase's start, and only it may be cleared. */
  lemma {:induction false} StopsStoppedOneMore(global: GlobalState, states: map<string, TradingState>,
                                               stops: map<string, StopTrade>, sizes: map<string, int>,
                                               filled: map<string, int>, unchecked: set<string>, symbol: string)
    requires symbol in unchecked
    ensures var before := StopsStopped(global, states, stops, sizes, filled, unchecked);
      Get(before, symbol) == Get(stops, symbol)
      && StopsStopped(global, states, stops, sizes, filled, unchecked - {symbol})
         == if StoppedOut(global, states, stops, sizes, symbol, filled) then before[symbol := Cleared] else before
  {
    var before := StopsStopped(global, states, stops, sizes, filled, unchecked);
    var after := StopsStopped(global, states, stops, sizes, filled, unchecked - {symbol});
    var expected := if StoppedOut(global, states, stops, sizes, symbol, filled) then before[symbol := Cleared] else before;
    assert after.Keys == expected.Keys;
    forall s | s in after
      ensures after[s] == expected[s]
    {
    }
  }

  /** A stop check changes only a symbol in position, during the ACTIVE state, and makes it IDLE. */
  lemma StoppedOnlyInPosition(global: GlobalState, states: map<string, TradingState>, stops: map<string, StopTrade>,
                              sizes: map<string, int>, filled: map<string, int>, symbol: string)
    requires symbol in states
    requires StatesStopped(global, states, stops, sizes, filled, {})[symbol] != states[symbol]
    ensures global == Active && states[symbol] == InPosition
    ensures StatesStopped(global, states, stops, sizes, filled, {})[symbol] == Idle
    ensures symbol in stops && stops[symbol].Placed? && StopsStopped(global, states, stops, sizes, filled, {})[symbol] == Cleared
  {
  }

  /** What the entry phase keeps about one symbol: its state, its size and its stop order. */
  datatype Slot = Slot(state: Option<TradingState>, size: Option<int>, stop: Option<StopTrade>)

  function SlotOf(states: map<string, TradingState>, sizes: map<string, int>, stops: map<string, StopTrade>,
                  symbol: string): Slot
  {
    Slot(Get(states, symbol), Get(sizes, symbol), Get(stops, symbol))
  }

  /** The slot after an entry outcome: the new state, the size recorded, the stop order placed. */
  function AfterSlot(slot: Slot, outcome: EntryOutcome): Slot
  {
    Slot(if slot.state.Some? then Some(AfterEntry(slot.state.value, outcome)) else None,
         if SizeRecorded(outcome).Some? then SizeRecorded(outcome) else slot.size,
         if outcome.Entered? then Some(Placed(outcome.orders.stop.orderRef)) else slot.stop)
  }

  /** The three maps after one symbol's entry outcome. */
  function StatesAfter(states: map<string, TradingState>, symbol: string, outcome: EntryOutcome): map<string, TradingState>
  {
    if symbol in states then states[symbol := AfterEntry(states[symbol], outcome)] else states
  }

  function SizesAfter(sizes: map<string, int>, symbol: string, outcome: EntryOutcome): map<string, int>
  {
    if SizeRecorded(outcome).Some? then sizes[symbol := SizeRecorded(outcome).value] else sizes
  }

  function StopsAfter(stops: map<string, StopTrade>, symbol: string, outcome: EntryOutcome): map<string, StopTrade>
  {
    if outcome.Entered? then stops[symbol := Placed(outcome.orders.stop.orderRef)] else stops
  }

  /** What the entry decisions read besides the trading states: the close, the sheet, the prices and `row`. */
  datatype EntryView = EntryView(close: Option<int>, instructions: map<string, Row>, previous: map<string, Price>,
                                 current: map<string, Price>, row: Option<Row>)

  /** The entry decision for one symbol in a given state (lines 416-574). */
  function EntryFor(v: EntryView, symbol: string, state: TradingState, now: int, tag: OrderTag, market: OptionMarket,
                    name: string): EntryOutcome
    requires v.close.Some? && symbol in v.previous && symbol in v.current
  {
    EntryDecision(state, now, v.close.value, Lookup(v.instructions, symbol), v.previous[symbol], v.current[symbol],
                  v.row, symbol, market, name, tag)
  }

  /** The symbols whose outcome records a size, and those that entered. */
  function RecordedIn(outcomes: map<string, EntryOutcome>): set<string>
  {
    set t | t in outcomes && SizeRecorded(outcomes[t]).Some?
  }

  function EnteredIn(outcomes: map<string, EntryOutcome>): set<string>
  {
    set t | t in outcomes && outcomes[t].Entered?
  }

  /** The three maps once each symbol of `outcomes` has had its outcome. */
  function StatesAfterAll(states: map<string, TradingState>, outcomes: map<string, EntryOutcome>): map<string, TradingState>
  {
    map t | t in states :: if t in outcomes then AfterEntry(states[t], outcomes[t]) else states[t]
  }

  function SizesAfterAll(sizes: map<string, int>, outcomes: map<string, EntryOutcome>): map<string, int>
  {
    map t | t in sizes.Keys + RecordedIn(outcomes)
      :: if t in RecordedIn(outcomes) then SizeRecorded(outcomes[t]).value else sizes[t]
  }

  function StopsAfterAll(stops: map<string, StopTrade>, outcomes: map<string, EntryOutcome>): map<string, StopTrade>
  {
    map t | t in stops.Keys + EnteredIn(outcomes)
      :: if t in EnteredIn(outcomes) then Placed(outcomes[t].orders.stop.orderRef) else stops[t]
  }

  /** The orders placed for the symbols that entered. */
  function PlacedOrders(outcomes: map<string, EntryOutcome>): set<EntryOrders>
  {
    set t | t in EnteredIn(outcomes) :: outcomes[t].orders
  }

  /** Before any symbol has been tried no order has been placed. */
  lemma PlacedNone()
    ensures PlacedOrders(map[]) == {}
  {
    var none: map<string, EntryOutcome> := map[];
    assert EnteredIn(none) == {};
  }

  /** Before any symbol has been tried every symbol is pending and nothing has changed. */
  lemma ProgressStart(states0: map<string, TradingState>, sizes0: map<string, int>, stops0: map<string, StopTrade>,
                      decisions: map<string, EntryOutcome>)
    ensures Progress(states0, sizes0, stops0, [], states0, sizes0, stops0, decisions, map[], states0.Keys)
  {
    PlacedNone();
  }

  /** One symbol's outcome changes that symbol's slot, as `AfterSlot` says, and no other. */
  lemma SlotAfter(states: map<string, TradingState>, sizes: map<string, int>, stops: map<string, StopTrade>,
                  symbol: string, outcome: EntryOutcome, t: string)
    ensures SlotOf(StatesAfter(states, symbol, outcome), SizesAfter(sizes, symbol, outcome), StopsAfter(stops, symbol, outcome), t)
         == if t == symbol then AfterSlot(SlotOf(states, sizes, stops, t), outcome) else SlotOf(states, sizes, stops, t)
  {
  }

  /** Trying one more symbol adds its orders to the orders placed, if it entered. */
  lemma PlacedOneMore(outcomes: map<string, EntryOutcome>, symbol: string, outcome: EntryOutcome)
    requires symbol !in outcomes
    ensures PlacedOrders(outcomes[symbol := outcome])
         == PlacedOrders(outcomes) + (if outcome.Entered? then {outcome.orders} else {})
  {
    assert EnteredIn(outcomes[symbol := outcome]) == EnteredIn(outcomes) + (if outcome.Entered? then {symbol} else {});
  }

  /** The decision the entry rules take for every symbol the view has prices for. */
  function EntryDecisions(v: EntryView, states0: map<string, TradingState>, now: int, tag: OrderTag, market: OptionMarket,
                     name: string): map<string, EntryOutcome>
  {
    map t | t in states0 && t in v.previous && t in v.current && v.close.Some? :: EntryFor(v, t, states0[t], now, tag, market, name)
  }

  /**
   * `decisions` holds the decision of every symbol the view has prices for.
   * The statement is triggered only by a decision actually taken, so the loop
   * of the entry phase carries it without unfolding the decision rules.
   */
  predicate Fit(decisions: map<string, EntryOutcome>, v: EntryView, states0: map<string, TradingState>, now: int,
                tag: OrderTag, market: OptionMarket, name: string)
  {
    forall t {:trigger EntryFor(v, t, states0[t], now, tag, market, name)}
      | t in states0 && t in v.previous && t in v.current && v.close.Some? ::
      t in decisions && decisions[t] == EntryFor(v, t, states0[t], now, tag, market, name)
  }

  /** The decisions map fits its own definition. */
  lemma EntryDecisionsFit(v: EntryView, states0: map<string, TradingState>, now: int, tag: OrderTag,
                          market: OptionMarket, name: string)
    ensures Fit(EntryDecisions(v, states0, now, tag, market, name), v, states0, now, tag, market, name)
  {
  }

  /** Every entry of `m` is an entry of `whole`. */
  predicate Within<K, V(==)>(m: map<K, V>, whole: map<K, V>)
  {
    forall k | k in m :: k in whole && m[k] == whole[k]
  }

  /**
   * The three maps are those of the phase's start with every recorded
   * outcome applied: each symbol's slot is its slot at the start, after its
   * outcome if it has one.
   */
  ghost predicate Applied(states: map<string, TradingState>, sizes: map<string, int>, stops: map<string, StopTrade>,
                          states0: map<string, TradingState>, sizes0: map<string, int>, stops0: map<string, StopTrade>,
                          outcomes: map<string, EntryOutcome>)
  {
    forall t :: SlotOf(states, sizes, stops, t)
      == if t in outcomes then AfterSlot(SlotOf(states0, sizes0, stops0, t), outcomes[t]) else SlotOf(states0, sizes0, stops0, t)
  }

  /** Maps with the same slots are the same maps. */
  lemma {:induction false} SameSlots(states: map<string, TradingState>, sizes: map<string, int>, stops: map<string, StopTrade>,
                                     states': map<string, TradingState>, sizes': map<string, int>,
                                     stops': map<string, StopTrade>)
    requires forall t :: SlotOf(states, sizes, stops, t) == SlotOf(states', sizes', stops', t)
    ensures states == states' && sizes == sizes' && stops == stops'
  {
    forall t | t in states ensures t in states' && states[t] == states'[t] {
      assert SlotOf(states, sizes, stops, t).state == SlotOf(states', sizes', stops', t).state;
    }
    forall t | t in states' ensures t in states {
      assert SlotOf(states, sizes, stops, t).state == SlotOf(states', sizes', stops', t).state;
    }
    forall t | t in sizes ensures t in sizes' && sizes[t] == sizes'[t] {
      assert SlotOf(states, sizes, stops, t).size == SlotOf(states', sizes', stops', t).size;
    }
    forall t | t in sizes' ensures t in sizes {
      assert SlotOf(states, sizes, stops, t).size == SlotOf(states', sizes', stops', t).size;
    }
    forall t | t in stops ensures t in stops' && stops[t] == stops'[t] {
      assert SlotOf(states, sizes, stops, t).stop == SlotOf(states', sizes', stops', t).stop;
    }
    forall t | t in stops' ensures t in stops {
      assert SlotOf(states, sizes, stops, t).stop == SlotOf(states', sizes', stops', t).stop;
    }
  }

  /**
   * The three maps `Applied` describes are exactly the maps with every
   * outcome applied at once, whatever order the symbols were tried in.
   */
  lemma {:induction false} AppliedAfterAll(states: map<string, TradingState>, sizes: map<string, int>,
                                           stops: map<string, StopTrade>, states0: map<string, TradingState>,
                                           sizes0: map<string, int>, stops0: map<string, StopTrade>,
                                           outcomes: map<string, EntryOutcome>)
    requires Applied(states, sizes, stops, states0, sizes0, stops0, outcomes)
    ensures states == StatesAfterAll(states0, outcomes) && sizes == SizesAfterAll(sizes0, outcomes)
    ensures stops == StopsAfterAll(stops0, outcomes)
  {
    forall t
      ensures SlotOf(states, sizes, stops, t)
           == SlotOf(StatesAfterAll(states0, outcomes), SizesAfterAll(sizes0, outcomes), StopsAfterAll(stops0, outcomes), t)
    {
      SlotsAfterAll(states0, sizes0, stops0, outcomes, t);
    }
    SameSlots(states, sizes, stops, StatesAfterAll(states0, outcomes), SizesAfterAll(sizes0, outcomes),
              StopsAfterAll(stops0, outcomes));
  }
  /**
   * The entry phase so far: every symbol traded at its start is tried or
   * still `pending`; the three maps are those of the phase's start with
   * every outcome applied; every outcome is the decision for its symbol; and
   * `placed` holds the orders of exactly the entries made.
   */
  ghost predicate Progress(states: map<string, TradingState>, sizes: map<string, int>, stops: map<string, StopTrade>,
                     placed: seq<EntryOrders>, states0: map<string, TradingState>, sizes0: map<string, int>,
                     stops0: map<string, StopTrade>, decisions: map<string, EntryOutcome>,
                     outcomes: map<string, EntryOutcome>, pending: set<string>)
  {
    pending <= states0.Keys && outcomes.Keys == states0.Keys - pending
    && Applied(states, sizes, stops, states0, sizes0, stops0, outcomes) && Within(outcomes, decisions)
    && SeqElements(placed) == PlacedOrders(outcomes)
  }

  /** No outcome in `outcomes` is an exception. */
  predicate NoRaise(outcomes: map<string, EntryOutcome>)
  {
    forall t | t in outcomes :: !outcomes[t].Raises?
  }

  /** One more outcome keeps `NoRaise` exactly when it is not an exception. */
  lemma NoRaiseOneMore(outcomes: map<string, EntryOutcome>, symbol: string, outcome: EntryOutcome)
    requires NoRaise(outcomes)
    ensures NoRaise(outcomes[symbol := outcome]) <==> !outcome.Raises?
  {
    assert outcome == outcomes[symbol := outcome][symbol];
  }

  /** Trying one more pending symbol, whose outcome is its decision, keeps the phase's progress. */
  lemma ProgressOneMore(states: map<string, TradingState>, sizes: map<string, int>, stops: map<string, StopTrade>,
                        placed: seq<EntryOrders>, states0: map<string, TradingState>, sizes0: map<string, int>,
                        stops0: map<string, StopTrade>, decisions: map<string, EntryOutcome>,
                        outcomes: map<string, EntryOutcome>, pending: set<string>, symbol: string, outcome: EntryOutcome)
    requires Progress(states, sizes, stops, placed, states0, sizes0, stops0, decisions, outcomes, pending)
    requires symbol in pending && symbol in decisions && decisions[symbol] == outcome
    ensures Progress(StatesAfter(states, symbol, outcome), SizesAfter(sizes, symbol, outcome), StopsAfter(stops, symbol, outcome),
                     if outcome.Entered? then placed + [outcome.orders] else placed, states0, sizes0, stops0, decisions,
                     outcomes[symbol := outcome], pending - {symbol})
  {
    forall t
      ensures SlotOf(StatesAfter(states, symbol, outcome), SizesAfter(sizes, symbol, outcome), StopsAfter(stops, symbol, outcome), t)
           == if t in outcomes[symbol := outcome] then AfterSlot(SlotOf(states0, sizes0, stops0, t), outcomes[symbol := outcome][t])
              else SlotOf(states0, sizes0, stops0, t)
    {
      SlotAfter(states, sizes, stops, symbol, outcome, t);
    }
    PlacedOneMore(outcomes, symbol, outcome);
    if outcome.Entered? {
      SeqElementsSnoc(placed, outcome.orders);
    }
  }




  /**
   * Each symbol's outcome changes that symbol's slot only, and as
   * `AfterSlot` says: the order in which symbols are tried does not matter.
   */
  lemma SlotsAfterAll(states: map<string, TradingState>, sizes: map<string, int>, stops: map<string, StopTrade>,
                      outcomes: map<string, EntryOutcome>, t: string)
    ensures SlotOf(StatesAfterAll(states, outcomes), SizesAfterAll(sizes, outcomes), StopsAfterAll(stops, outcomes), t)
         == if t in outcomes then AfterSlot(SlotOf(states, sizes, stops, t), outcomes[t]) else SlotOf(states, sizes, stops, t)
  {
    if t in outcomes {
      assert t in RecordedIn(outcomes) <==> SizeRecorded(outcomes[t]).Some?;
      assert t in EnteredIn(outcomes) <==> outcomes[t].Entered?;
    }
  }

  /** Symbols added in two steps, each with its data started, have their data started. */
  lemma NewKeysStarted(keys0: set<string>, keys1: set<string>, keys2: set<string>, started1: set<string>,
                       started2: set<string>)
    requires keys1 - keys0 <= started1 && keys2 - keys1 <= started2 && started1 <= started2
    ensures keys2 - keys0 <= started2
  {
  }

  /**
   * The details kept while onboarding: every newly traded symbol and every
   * changed entry hold the broker's one match, and no entry is dropped.
   */
  predicate DetailsKept(keys0: set<string>, keys: set<string>, details0: map<string, StockDetails>,
                        details: map<string, StockDetails>, stocks: map<string, seq<StockDetails>>)
  {
    (forall s | s in keys && s !in keys0 :: s in details && Matched(stocks, s, details[s]))
    && (forall s | s in details :: (s in details0 && details[s] == details0[s]) || Matched(stocks, s, details[s]))
    && details0.Keys <= details.Keys
  }

  /** The rule cache only grows, and every rule added is the broker's answer. */
  predicate RulesKept(rules0: map<int, Orders.MarketRule>, rules: map<int, Orders.MarketRule>,
                      answers: map<int, Orders.MarketRule>)
  {
    (forall id | id in rules0 :: id in rules && rules[id] == rules0[id])
    && (forall id | id in rules && id !in rules0 :: rules[id] == RuleAnswer(answers, id))
  }

  /**
   * What qualifying a stock does to the details and the rule cache: a stock
   * matched exactly once has its details kept; when its rule ids are numbers
   * the cache gains exactly those ids, and otherwise it is unchanged.
   */
  predicate QualifyEffect(details0: map<string, StockDetails>, details: map<string, StockDetails>,
                          rules0: map<int, Orders.MarketRule>, rules: map<int, Orders.MarketRule>,
                          stocks: map<string, seq<StockDetails>>, symbol: string, answers: map<int, Orders.MarketRule>)
  {
    && details == KeptDetails(details0, stocks, symbol)
    && (!Qualifies(stocks, symbol) ==> rules == rules0)
    && (Qualifies(stocks, symbol) ==>
          rules.Keys == rules0.Keys + SeqElements(ParseInts(Split(StockAnswer(stocks, symbol)[0].marketRuleIds, ',')).value))
    && RulesKept(rules0, rules, answers)
  }

  /** Two steps that each keep the cache keep it. */
  lemma RulesKeptTrans(rules0: map<int, Orders.MarketRule>, rules1: map<int, Orders.MarketRule>,
                       rules2: map<int, Orders.MarketRule>, answers: map<int, Orders.MarketRule>)
    requires RulesKept(rules0, rules1, answers) && RulesKept(rules1, rules2, answers)
    ensures RulesKept(rules0, rules2, answers)
  {
  }

  /** One more row keeps DetailsKept: its symbol, if added, was matched and recorded. */
  lemma DetailsKeptStep(keys0: set<string>, keys1: set<string>, keys2: set<string>,
                        details0: map<string, StockDetails>, details1: map<string, StockDetails>,
                        details2: map<string, StockDetails>, stocks: map<string, seq<StockDetails>>,
                        symbol: string, recorded: bool)
    requires DetailsKept(keys0, keys1, details0, details1, stocks)
    requires recorded ==> |StockAnswer(stocks, symbol)| == 1
    requires details2 == if recorded then details1[symbol := StockAnswer(stocks, symbol)[0]] else details1
    requires keys2 - keys1 <= {symbol} && (symbol in keys2 - keys1 ==> recorded)
    ensures DetailsKept(keys0, keys2, details0, details2, stocks)
  {
    forall s | s in keys2 && s !in keys0
      ensures s in details2 && Matched(stocks, s, details2[s])
    {
      if s !in keys1 {
        assert s in keys2 - keys1;
      } else if !(recorded && s == symbol) {
        assert details2[s] == details1[s];
      }
    }
  }

  /**
   * One onboarded row keeps DetailsKept: the only symbol it can add is its
   * own, and only after the broker matched it once and its details were kept.
   */
  lemma DetailsKeptRow(keys0: set<string>, t: Tracking, r: Row, stocks: map<string, seq<StockDetails>>,
                       lasts: map<string, Price>, barSizeName: Option<string>, details0: map<string, StockDetails>,
                       details1: map<string, StockDetails>, details2: map<string, StockDetails>)
    requires DetailsKept(keys0, t.contracts.Keys, details0, details1, stocks)
    requires details2 == if r.symbol !in t.contracts && ValidRow(r) then KeptDetails(details1, stocks, r.symbol) else details1
    ensures DetailsKept(keys0, OnboardStep(t, r, stocks, lasts, barSizeName).contracts.Keys, details0, details2, stocks)
  {
    DetailsKeptStep(keys0, t.contracts.Keys, OnboardStep(t, r, stocks, lasts, barSizeName).contracts.Keys,
                    details0, details1, details2, stocks, r.symbol,
                    r.symbol !in t.contracts && ValidRow(r) && |StockAnswer(stocks, r.symbol)| == 1);
  }

  // ------------------------------------------------- the session invariant

  /** Every traded symbol has a trading state and a last price. */
  predicate TrackedMaps(states: map<string, TradingState>, contracts: map<string, string>, lasts: map<string, Price>)
  {
    states.Keys == contracts.Keys && contracts.Keys <= lasts.Keys
  }

  /** A symbol in position has its stop order and its size. */
  predicate CoveredMaps(states: map<string, TradingState>, stops: map<string, StopTrade>, sizes: map<string, int>)
  {
    forall s | s in states && states[s] == InPosition :: s in stops && stops[s].Placed? && s in sizes
  }

  /** Starting to trade a symbol keeps every traded symbol tracked. */
  lemma TrackedAdd(states: map<string, TradingState>, contracts: map<string, string>, lasts: map<string, Price>,
                   symbol: string, state: TradingState, contract: string, last: Price)
    requires TrackedMaps(states, contracts, lasts)
    ensures TrackedMaps(states[symbol := state], contracts[symbol := contract], lasts[symbol := last])
  {
  }

  /** A symbol leaving its position keeps every position covered. */
  lemma CoveredLeave(states: map<string, TradingState>, stops: map<string, StopTrade>, sizes: map<string, int>,
                     symbol: string, state: TradingState, stop: StopTrade)
    requires CoveredMaps(states, stops, sizes) && state != InPosition
    ensures CoveredMaps(states[symbol := state], stops[symbol := stop], sizes)
    ensures CoveredMaps(states[symbol := state], stops, sizes)
  {
  }

  // ------------------------------------------------------- the instructions

  /** The symbols of a list of rows. */
  function Symbols(rows: seq<Row>): set<string>
  {
    set i | 0 <= i < |rows| :: rows[i].symbol
  }

  lemma SymbolsSnoc(rows: seq<Row>, r: Row)
    ensures Symbols(rows + [r]) == Symbols(rows) + {r.symbol}
  {
    var ext := rows + [r];
    assert ext[|rows|] == r;
    forall s | s in Symbols(ext) ensures s in Symbols(rows) + {r.symbol} {
      var i :| 0 <= i < |ext| && ext[i].symbol == s;
      if i < |rows| {
        assert rows[i] == ext[i];
      }
    }
    forall s | s in Symbols(rows) ensures s in Symbols(ext) {
      var i :| 0 <= i < |rows| && rows[i].symbol == s;
      assert ext[i] == rows[i];
    }
  }

  /** `drop_duplicates(["symbol"])`: the first row of every symbol, in sheet order. */
  function FirstOccurrences(rows: seq<Row>): seq<Row>
  {
    if |rows| == 0 then []
    else
      var init, r := rows[..|rows| - 1], rows[|rows| - 1];
      if r.symbol in Symbols(init) then FirstOccurrences(init) else FirstOccurrences(init) + [r]
  }

  /** The instructions indexed by symbol, each symbol with its first row. */
  function SheetMap(rows: seq<Row>): map<string, Row>
  {
    if |rows| == 0 then map[]
    else
      var init, r := rows[..|rows| - 1], rows[|rows| - 1];
      if r.symbol in Symbols(init) then SheetMap(init) else SheetMap(init)[r.symbol := r]
  }

  /** Dropping duplicates keeps every symbol, and the index has exactly the sheet's symbols. */
  lemma {:induction false} FirstOccurrencesSymbols(rows: seq<Row>)
    ensures Symbols(FirstOccurrences(rows)) == Symbols(rows) == SheetMap(rows).Keys
    decreases |rows|
  {
    if |rows| > 0 {
      var init, r := rows[..|rows| - 1], rows[|rows| - 1];
      assert rows == init + [r];
      SymbolsSnoc(init, r);
      FirstOccurrencesSymbols(init);
      if r.symbol !in Symbols(init) {
        SymbolsSnoc(FirstOccurrences(init), r);
      }
    }
  }

  /** Dropping duplicates keeps every symbol once: the rows kept have distinct symbols. */
  lemma {:induction false} FirstOccurrencesDistinct(rows: seq<Row>)
    ensures forall i, j | 0 <= i < j < |FirstOccurrences(rows)| ::
      FirstOccurrences(rows)[i].symbol != FirstOccurrences(rows)[j].symbol
    decreases |rows|
  {
    if |rows| > 0 {
      var init, r := rows[..|rows| - 1], rows[|rows| - 1];
      FirstOccurrencesDistinct(init);
      if r.symbol !in Symbols(init) {
        FirstOccurrencesSymbols(init);
        var prev := FirstOccurrences(init);
        var next := prev + [r];
        assert FirstOccurrences(rows) == next;
        forall i | 0 <= i < |prev| ensures next[i] == prev[i] && prev[i].symbol != r.symbol {
          assert prev[i].symbol in Symbols(prev);
        }
      }
    }
  }

  /** The index maps the symbol of every row kept to that row. */
  lemma {:induction false} FirstOccurrencesIndexed(rows: seq<Row>)
    ensures forall i | 0 <= i < |FirstOccurrences(rows)| ::
      FirstOccurrences(rows)[i].symbol in SheetMap(rows) && SheetMap(rows)[FirstOccurrences(rows)[i].symbol] == FirstOccurrences(rows)[i]
    decreases |rows|
  {
    if |rows| > 0 {
      var init, r := rows[..|rows| - 1], rows[|rows| - 1];
      FirstOccurrencesIndexed(init);
      if r.symbol !in Symbols(init) {
        FirstOccurrencesSymbols(init);
        var prev := FirstOccurrences(init);
        var next := prev + [r];
        assert FirstOccurrences(rows) == next;
        forall i | 0 <= i < |prev| ensures next[i] == prev[i] && prev[i].symbol != r.symbol {
          assert prev[i].symbol in Symbols(prev);
        }
      }
    }
  }

  /** Each symbol of the sheet is indexed to the first row that carries it. */
  lemma {:induction false} SheetMapFirst(rows: seq<Row>, symbol: string)
    requires symbol in SheetMap(rows)
    ensures exists k :: 0 <= k < |rows| && rows[k] == SheetMap(rows)[symbol] && symbol !in Symbols(rows[..k])
    decreases |rows|
  {
    var init, r := rows[..|rows| - 1], rows[|rows| - 1];
    assert rows == init + [r];
    FirstOccurrencesSymbols(init);
    if symbol in SheetMap(init) {
      SheetMapFirst(init, symbol);
      var k :| 0 <= k < |init| && init[k] == SheetMap(init)[symbol] && symbol !in Symbols(init[..k]);
      assert rows[k] == init[k] && rows[..k] == init[..k];
    } else {
      assert rows[..|rows| - 1] == init;
    }
  }

  /** What `reqContractDetails` answers for a stock: the list of matches. */
  function StockAnswer(stocks: map<string, seq<StockDetails>>, symbol: string): seq<StockDetails>
  {
    if symbol in stocks then stocks[symbol] else []
  }

  /** The details after asking the broker for a stock: its one match, when there is exactly one, is kept. */
  function KeptDetails(details: map<string, StockDetails>, stocks: map<string, seq<StockDetails>>, symbol: string)
    : (r: map<string, StockDetails>)
    ensures r.Keys == if |StockAnswer(stocks, symbol)| == 1 then details.Keys + {symbol} else details.Keys
    ensures forall s | s in r :: if s == symbol && |StockAnswer(stocks, symbol)| == 1 then Matched(stocks, s, r[s]) else r[s] == details[s]
  {
    if |StockAnswer(stocks, symbol)| == 1 then details[symbol := StockAnswer(stocks, symbol)[0]] else details
  }

  /** The broker matched the symbol's stock exactly once, with these details. */
  predicate Matched(stocks: map<string, seq<StockDetails>>, symbol: string, d: StockDetails)
  {
    |StockAnswer(stocks, symbol)| == 1 && d == StockAnswer(stocks, symbol)[0]
  }

  /**
   * A stock the broker qualifies: it matches the symbol exactly once and its
   * market rule ids are numbers.
   */
  predicate Qualifies(stocks: map<string, seq<StockDetails>>, symbol: string)
  {
    |StockAnswer(stocks, symbol)| == 1
    && ParseInts(Split(StockAnswer(stocks, symbol)[0].marketRuleIds, ',')).Some?
  }

  /**
   * A row whose symbol the onboarding takes on: the row is valid, the broker
   * qualifies its stock, and the bar size has a name.
   */
  predicate Joins(r: Row, stocks: map<string, seq<StockDetails>>, barSizeName: Option<string>)
  {
    ValidRow(r) && Qualifies(stocks, r.symbol) && barSizeName.Some?
  }

  /** The maps the onboarding extends: trading states, qualified contracts and last prices. */
  datatype Tracking = Tracking(states: map<string, TradingState>, contracts: map<string, string>,
                               lasts: map<string, Price>)

  /** What one row of the onboarding does to them: a new symbol whose row joins is traded, IDLE. */
  function OnboardStep(t: Tracking, r: Row, stocks: map<string, seq<StockDetails>>, lasts: map<string, Price>,
                       barSizeName: Option<string>): Tracking
  {
    if r.symbol !in t.contracts && Joins(r, stocks, barSizeName) then
      Tracking(t.states[r.symbol := Idle], t.contracts[r.symbol := StockAnswer(stocks, r.symbol)[0].localSymbol],
               t.lasts[r.symbol := PriceOf(lasts, r.symbol)])
    else t
  }

  /** The onboarding of a list of rows, one after the other. */
  function Onboarded(t: Tracking, rows: seq<Row>, stocks: map<string, seq<StockDetails>>, lasts: map<string, Price>,
                     barSizeName: Option<string>): Tracking
    decreases |rows|
  {
    if |rows| == 0 then t
    else OnboardStep(Onboarded(t, rows[..|rows| - 1], stocks, lasts, barSizeName), rows[|rows| - 1], stocks, lasts, barSizeName)
  }

  /** Onboarding keeps every traded symbol tracked and every position covered. */
  lemma {:induction false} OnboardedValid(t: Tracking, rows: seq<Row>, stocks: map<string, seq<StockDetails>>,
                                          lasts: map<string, Price>, barSizeName: Option<string>,
                                          stops: map<string, StopTrade>, sizes: map<string, int>)
    requires TrackedMaps(t.states, t.contracts, t.lasts) && CoveredMaps(t.states, stops, sizes)
    ensures var u := Onboarded(t, rows, stocks, lasts, barSizeName);
      TrackedMaps(u.states, u.contracts, u.lasts) && CoveredMaps(u.states, stops, sizes)
    decreases |rows|
  {
    if |rows| > 0 {
      OnboardedValid(t, rows[..|rows| - 1], stocks, lasts, barSizeName, stops, sizes);
      var prev := Onboarded(t, rows[..|rows| - 1], stocks, lasts, barSizeName);
      var r := rows[|rows| - 1];
      if r.symbol !in prev.contracts && Joins(r, stocks, barSizeName) {
        TrackedAdd(prev.states, prev.contracts, prev.lasts, r.symbol, Idle,
                   StockAnswer(stocks, r.symbol)[0].localSymbol, PriceOf(lasts, r.symbol));
        CoveredLeave(prev.states, stops, sizes, r.symbol, Idle, Cleared);
      }
    }
  }

  /** Onboarding never changes a symbol already traded. */
  lemma {:induction false} OnboardedKeeps(t: Tracking, rows: seq<Row>, stocks: map<string, seq<StockDetails>>,
                                          lasts: map<string, Price>, barSizeName: Option<string>, s: string)
    requires s in t.contracts && s in t.states && s in t.lasts
    ensures var u := Onboarded(t, rows, stocks, lasts, barSizeName);
      s in u.contracts && u.contracts[s] == t.contracts[s] && s in u.states && u.states[s] == t.states[s]
      && s in u.lasts && u.lasts[s] == t.lasts[s]
    decreases |rows|
  {
    if |rows| > 0 {
      OnboardedKeeps(t, rows[..|rows| - 1], stocks, lasts, barSizeName, s);
    }
  }

  /**
   * A symbol the onboarding adds comes from a row that joins: it is traded
   * under its stock's local symbol, IDLE, with its current last price.
   */
  lemma {:induction false} OnboardedNew(t: Tracking, rows: seq<Row>, stocks: map<string, seq<StockDetails>>,
                                        lasts: map<string, Price>, barSizeName: Option<string>, s: string)
    requires s !in t.contracts && s in Onboarded(t, rows, stocks, lasts, barSizeName).contracts
    ensures exists k :: 0 <= k < |rows| && rows[k].symbol == s && Joins(rows[k], stocks, barSizeName)
    ensures var u := Onboarded(t, rows, stocks, lasts, barSizeName);
      |StockAnswer(stocks, s)| == 1 && u.contracts[s] == StockAnswer(stocks, s)[0].localSymbol
      && s in u.states && u.states[s] == Idle && s in u.lasts && u.lasts[s] == PriceOf(lasts, s)
    decreases |rows|
  {
    var init, r := rows[..|rows| - 1], rows[|rows| - 1];
    var prev := Onboarded(t, init, stocks, lasts, barSizeName);
    assert Onboarded(t, rows, stocks, lasts, barSizeName) == OnboardStep(prev, r, stocks, lasts, barSizeName);
    if s in prev.contracts {
      OnboardedNew(t, init, stocks, lasts, barSizeName, s);
      var k :| 0 <= k < |init| && init[k].symbol == s && Joins(init[k], stocks, barSizeName);
      assert rows[k] == init[k];
    } else {
      assert r.symbol == s && r.symbol !in prev.contracts && Joins(r, stocks, barSizeName);
    }
  }

  /** Every row that joins has its symbol traded once the onboarding has passed it. */
  lemma {:induction false} OnboardedComplete(t: Tracking, rows: seq<Row>, stocks: map<string, seq<StockDetails>>,
                                             lasts: map<string, Price>, barSizeName: Option<string>, k: nat)
    requires k < |rows| && Joins(rows[k], stocks, barSizeName)
    ensures rows[k].symbol in Onboarded(t, rows, stocks, lasts, barSizeName).contracts
    decreases |rows|
  {
    var init := rows[..|rows| - 1];
    if k < |rows| - 1 {
      assert init[k] == rows[k];
      OnboardedComplete(t, init, stocks, lasts, barSizeName, k);
    }
  }

  /** The distinct elements of a sequence. */
  function SeqElements<T>(s: seq<T>): set<T>
  {
    set k | 0 <= k < |s| :: s[k]
  }

  lemma SeqElementsSnoc<T>(s: seq<T>, x: T)
    ensures SeqElements(s + [x]) == SeqElements(s) + {x}
  {
    var ext := s + [x];
    assert ext[|s|] == x;
    forall y | y in SeqElements(ext) ensures y in SeqElements(s) + {x} {
      var k :| 0 <= k < |ext| && ext[k] == y;
      if k < |s| {
        assert s[k] == ext[k];
      }
    }
    forall y | y in SeqElements(s) ensures y in SeqElements(ext) {
      var k :| 0 <= k < |s| && s[k] == y;
      assert ext[k] == s[k];
    }
  }

  /** Everything the broker answers during one iteration of the loop. */
  datatype World = World(
    connects: bool, accounts: seq<string>,
    clock: Market.WallClock,                    // market_now
    today: Market.Date,                         // datetime.date.today(), the local date
    aapl: seq<Market.ContractHours>,            // reqContractDetails(Stock("AAPL", "SMART", "USD"))
    mtime: int, sheet: Option<seq<Row>>,        // the instructions file; `None` when it cannot be read
    stocks: map<string, seq<StockDetails>>,
    market: OptionMarket,
    fills: seq<BrokerFill>,
    lasts: map<string, Price>,
    filled: map<string, int>)                   // `filled()` of each order, by reference
  {
    /** `market_now` as an instant in seconds. */
    function Now(): int
    {
      Market.InstantOf(clock)
    }

    /** What INIT's three calendar queries answer in this iteration. */
    function InitCalendar(): Calendar
    {
      CalendarOf(aapl, clock.date, today)
    }
  }

  /**
   * Lines 276-285: take the first AAPL contract details and ask the market
   * queries whether the market date has a session, and when today's first
   * session opens and its last one closes.
   */
  method AskCalendar(aapl: seq<Market.ContractHours>, marketDate: Market.Date, today: Market.Date) returns (cal: Calendar)
    ensures cal == CalendarOf(aapl, marketDate, today)
  {
    if |aapl| == 0 {
      return Calendar(Err(NoDetails), Err(NoDetails), Err(NoDetails));
    }
    var details := aapl[0];
    var openToday := Market.MarketOpenAtDate(marketDate, details, false);
    if openToday.Err? {
      var e := BadHours(openToday.error);
      return Calendar(Err(e), Err(e), Err(e));
    }
    var openTime := Market.MarketOpenTime(today, details, false);
    var closeTime := Market.MarketCloseTime(today, details, false);
    ghost var schedule := Market.ParsedHours(Market.HoursText(details, false)).value;
    Market.ScheduleDated(Market.HoursText(details, false));
    assert openToday.value == Market.TouchesDate(schedule.intervals, marketDate);
    cal := Calendar(Ok(openToday.value), Ok(EdgeInstant(openTime.value)), Ok(EdgeInstant(closeTime.value)));
  }

  /**
   * The loop at lines 458-463 (and 477-482): fetch the rule of each id not
   * seen before; `market_rule` ends as the last rule fetched.
   */
  method FetchMarketRule(ids: seq<string>, answers: map<int, Orders.MarketRule>) returns (fetched: Fetch)
    ensures fetched == FetchAfter(ids, answers, |ids|)
  {
    var ruleDones: set<string> := {};
    fetched := Fetched(None);
    for k := 0 to |ids|
      invariant forall x :: x in ruleDones <==> x in ids[..k]
      invariant fetched == FetchAfter(ids, answers, k) && fetched.Fetched?
    {
      assert ids[..k + 1] == ids[..k] + [ids[k]];
      if ids[k] in ruleDones {
        continue;
      }
      ruleDones := ruleDones + {ids[k]};
      var id := ParseInt(ids[k]);
      assert FetchAfter(ids, answers, k + 1)
          == if id.None? then FetchRaised else Fetched(Some(RuleAnswer(answers, id.value)));
      if id.None? {
        FetchRaisedStays(ids, answers, k + 1);
        return FetchRaised;
      }
      fetched := Fetched(Some(RuleAnswer(answers, id.value)));
    }
  }

  /** Once the loop has raised, later ids change nothing. */
  lemma {:induction false} FetchRaisedStays(ids: seq<string>, answers: map<int, Orders.MarketRule>, n: nat)
    requires 0 < n <= |ids| && FetchAfter(ids, answers, n) == FetchRaised
    ensures FetchAfter(ids, answers, |ids|) == FetchRaised
    decreases |ids| - n
  {
    if n < |ids| {
      FetchRaisedStays(ids, answers, n + 1);
    }
  }

  class Session {
    // command-line arguments
    const failFast: bool
    const testRightNow: bool
    const barSize: int
    const barSizeName: Option<string>   // `barsize2barsize_string(args.bar_size)`, the same on every call
    const name: string           // the script's name, part of every order reference
    var account: string

    // the context object
    var alive: bool
    var connected: bool          // `ib is not None`
    var globalState: GlobalState
    var marketOpen: Option<int>
    var marketClose: Option<int>
    var sheetVersion: Option<int>   // `previous_mtime`
    var instructions: map<string, Row>
    var details: map<string, StockDetails>
    var rules: map<int, Orders.MarketRule>
    var contracts: map<string, string>   // symbol to the qualified contract's local symbol
    var tickers: set<string>
    var dailyBars: set<string>
    var orthBars: set<string>
    var tradingStates: map<string, TradingState>
    var seenFills: set<string>
    var seenCommissions: set<string>
    var commissions: seq<CommissionRecord>
    var newBars: set<string>
    var stopTrades: map<string, StopTrade>
    var sizes: map<string, int>
    var previousLast: map<string, Price>
    var currentLast: map<string, Price>
    var nExceptions: nat
    var row: Option<Row>         // the module-level `row` the loops over instructions leave behind

    /** The session times exist once INIT is over. */
    ghost predicate TimesKnown()
      reads this`globalState, this`marketOpen, this`marketClose
    {
      globalState != Init ==> marketOpen.Some? && marketClose.Some?
    }

    /**
     * The session invariant: the session times are known after INIT, every
     * traded symbol is tracked, every position is covered, and the
     * commission ledger has no duplicates.
     */
    ghost predicate Valid()
      reads this`globalState, this`marketOpen, this`marketClose, this`tradingStates, this`contracts,
            this`currentLast, this`stopTrades, this`sizes, this`commissions, this`seenCommissions
    {
      TimesKnown() && TrackedMaps(tradingStates, contracts, currentLast)
      && CoveredMaps(tradingStates, stopTrades, sizes) && LedgerValid(commissions, seenCommissions)
    }

    constructor (account: string, failFast: bool, testRightNow: bool, barSize: int, name: string)
      ensures Valid()
      ensures this.account == account && this.failFast == failFast && this.testRightNow == testRightNow
      ensures this.barSize == barSize && this.barSizeName == Bars.BarSizeString(barSize) && this.name == name
      ensures alive && !connected && globalState == Init && marketOpen == None && marketClose == None
      ensures sheetVersion == None && instructions == map[] && details == map[] && rules == map[]
      ensures contracts == map[] && tickers == {} && dailyBars == {} && orthBars == {}
      ensures tradingStates == map[] && seenFills == {} && seenCommissions == {} && commissions == []
      ensures newBars == {} && stopTrades == map[] && sizes == map[]
      ensures previousLast == map[] && currentLast == map[] && nExceptions == 0 && row == None
    {
      this.account, this.failFast, this.testRightNow := account, failFast, testRightNow;
      this.barSize, this.barSizeName, this.name := barSize, Bars.BarSizeString(barSize), name;
      alive, connected, globalState := true, false, Init;
      marketOpen, marketClose, sheetVersion := None, None, None;
      instructions, details, rules := map[], map[], map[];
      contracts, tickers, dailyBars, orthBars := map[], {}, {}, {};
      tradingStates, seenFills, seenCommissions, commissions := map[], {}, {}, [];
      newBars, stopTrades, sizes := {}, map[], map[];
      previousLast, currentLast, nExceptions, row := map[], map[], 0, None;
    }

    // -------------------------------------------------------------- events

    /** `ib_exec`: remember an execution id once. */
    method OnExec(execId: string)
      modifies this`seenFills
      ensures seenFills == old(seenFills) + {execId}
    {
      if execId in seenFills {
        return;
      }
      seenFills := seenFills + {execId};
    }

    /** `ib_commission`: record a commission report once per execution. */
    method OnCommission(trade: Orders.Trade, fill: Orders.Fill, report: CommissionReport)
      requires LedgerValid(commissions, seenCommissions)
      modifies this`seenCommissions, this`commissions
      ensures LedgerValid(commissions, seenCommissions)
      ensures seenCommissions == old(seenCommissions) + {fill.execution.execId}
      ensures commissions == if fill.execution.execId in old(seenCommissions) then old(commissions)
                             else old(commissions) + [FromEvent(trade, fill, report)]
    {
      if fill.execution.execId in seenCommissions {
        return;
      }
      LedgerAppend(commissions, seenCommissions, FromEvent(trade, fill, report));
      seenCommissions := seenCommissions + {fill.execution.execId};
      commissions := commissions + [FromEvent(trade, fill, report)];
    }

    /** `ib_bar_update`: note the symbol when a new bar has started. */
    method OnBarUpdate(localSymbol: string, hasNewBar: bool)
      modifies this`newBars
      ensures newBars == if hasNewBar then old(newBars) + {localSymbol} else old(newBars)
    {
      if !hasNewBar {
        return;
      }
      newBars := newBars + {localSymbol};
    }

    // ------------------------------------------------------------ connect

    /**
     * Lines 236-258: with no connection, connect and pick the account: the
     * first managed one for "0", otherwise the configured one, which must be
     * managed (if not, the loop is told to stop and the phase raises).
     */
    method Connect(connects: bool, accounts: seq<string>) returns (flow: Flow)
      modifies this`connected, this`account, this`alive
      ensures old(connected) ==> flow == Normal && account == old(account) && alive == old(alive) && connected
      ensures !old(connected) ==> connected
      ensures !old(connected) && !connects ==> flow == Raised && account == old(account) && alive == old(alive)
      ensures !old(connected) && connects && old(account) == "0" ==>
        if |accounts| == 0 then flow == Raised && account == "0" && alive == old(alive)
        else flow == Normal && account == accounts[0] && alive == old(alive)
      ensures !old(connected) && connects && old(account) != "0" ==>
        account == old(account)
        && (if old(account) in accounts then flow == Normal && alive == old(alive) else flow == Raised && !alive)
    {
      flow := Normal;
      if connected {
        return;
      }
      connected := true;
      if !connects {
        flow := Raised;
        return;
      }
      if account == "0" {
        if |accounts| == 0 {
          flow := Raised;
          return;
        }
        account := accounts[0];
      } else if account !in accounts {
        alive := false;
        flow := Raised;
      }
    }

    // --------------------------------------------------------------- INIT

    /** Lines 276-297, run while the global state is INIT; the decision itself is `InitStep`. */
    method Initialise(now: int, cal: Calendar) returns (flow: Flow)
      requires Valid() && globalState == Init
      modifies this`alive, this`marketOpen, this`marketClose, this`globalState
      ensures Valid()
      ensures alive == (old(alive) && InitStep(now, testRightNow, cal).stayAlive)
      ensures InitStep(now, testRightNow, cal).times.Some? ==>
        flow == Normal && globalState == WaitMarketOpen
        && marketOpen == Some(InitStep(now, testRightNow, cal).times.value.0)
        && marketClose == Some(InitStep(now, testRightNow, cal).times.value.1)
      ensures InitStep(now, testRightNow, cal).times.None? ==>
        flow == Raised && globalState == Init && marketOpen == old(marketOpen) && marketClose == old(marketClose)
    {
      flow := Raised;
      if cal.openToday.Err? {
        return;
      }
      if !(cal.openToday.value || testRightNow) {
        alive := false;
      }
      if cal.openTime.Err? || cal.openTime.value.None? || cal.closeTime.Err? {
        return;
      }
      var open, close := cal.openTime.value.value, 0;
      if cal.closeTime.value.Some? {
        close := cal.closeTime.value.value;
      } else {
        close := DayStart(now) + 16 * 3600;
      }
      if testRightNow {
        open := now + 10;
        close := open + 600;
      }
      marketOpen, marketClose := Some(open), Some(close);
      globalState := WaitMarketOpen;
      flow := Normal;
    }

    /** Lines 266-297: ask the calendar of this iteration, then apply INIT's decision. */
    method StartUp(w: World) returns (flow: Flow)
      requires Valid() && globalState == Init
      modifies this`alive, this`marketOpen, this`marketClose, this`globalState
      ensures Valid()
      ensures alive == (old(alive) && InitStep(w.Now(), testRightNow, w.InitCalendar()).stayAlive)
      ensures flow == Normal ==>
        globalState == WaitMarketOpen
        && InitStep(w.Now(), testRightNow, w.InitCalendar()).times == Some((marketOpen.value, marketClose.value))
      ensures flow != Normal ==>
        flow == Raised && InitStep(w.Now(), testRightNow, w.InitCalendar()).times.None?
        && globalState == Init && marketOpen == old(marketOpen) && marketClose == old(marketClose)
    {
      var cal := AskCalendar(w.aapl, w.clock.date, w.today);
      assert cal == w.InitCalendar();
      flow := Initialise(w.Now(), cal);
    }

    // ------------------------------------------------------- subscriptions

    /**
     * Lines 365-374: every traded symbol without a ticker gets its ticker,
     * its daily bars and its outside-hours bars again; an unsupported bar
     * size raises once its ticker is requested.
     */
    method Resubscribe() returns (flow: Flow)
      modifies this`tickers, this`dailyBars, this`orthBars
      ensures flow != Exited
      ensures flow == Normal <==> barSizeName.Some? || contracts.Keys <= old(tickers)
      ensures flow == Normal ==>
        tickers == old(tickers) + contracts.Keys
        && dailyBars == old(dailyBars) + (contracts.Keys - old(tickers))
        && orthBars == old(orthBars) + (contracts.Keys - old(tickers))
      ensures flow == Raised ==>
        old(tickers) < tickers <= old(tickers) + contracts.Keys
        && dailyBars == old(dailyBars) && orthBars == old(orthBars)
    {
      flow := Normal;
      var pending := contracts.Keys - tickers;
      ghost var added: set<string> := {};
      while pending != {}
        invariant pending == contracts.Keys - old(tickers) - added
        invariant added <= contracts.Keys - old(tickers)
        invariant tickers == old(tickers) + added
        invariant dailyBars == old(dailyBars) + added && orthBars == old(orthBars) + added
        invariant added != {} ==> barSizeName.Some?
        decreases pending
      {
        var symbol :| symbol in pending;
        tickers := tickers + {symbol};
        if barSizeName.None? {
          flow := Raised;
          assert added == {};
          return;
        }
        dailyBars, orthBars := dailyBars + {symbol}, orthBars + {symbol};
        added, pending := added + {symbol}, pending - {symbol};
      }
    }

    // ------------------------------------------------------------- fills

    /** Lines 378-387: record each polled fill whose execution has no commission recorded yet. */
    method RecordFills(fills: seq<BrokerFill>)
      requires LedgerValid(commissions, seenCommissions)
      modifies this`seenCommissions, this`commissions
      ensures LedgerValid(commissions, seenCommissions)
      ensures seenCommissions == old(seenCommissions) + FillIds(fills)
      ensures commissions == old(commissions) + NewFillRecords(old(seenCommissions), fills)
    {
      NewFillRecordsValid(commissions, seenCommissions, fills);
      seenCommissions, commissions := PollFills(seenCommissions, commissions, fills);
    }

    // ------------------------------------------------------------- prices

    /** Lines 390-392: for every traded symbol the current last price becomes the previous one. */
    method SamplePrices(lasts: map<string, Price>)
      requires TrackedMaps(tradingStates, contracts, currentLast)
      modifies this`previousLast, this`currentLast
      ensures TrackedMaps(tradingStates, contracts, currentLast)
      ensures previousLast.Keys == old(previousLast).Keys + contracts.Keys
      ensures currentLast.Keys == old(currentLast).Keys
      ensures forall s | s in contracts :: previousLast[s] == old(currentLast)[s] && currentLast[s] == PriceOf(lasts, s)
      ensures forall s | s in old(previousLast) && s !in contracts :: previousLast[s] == old(previousLast)[s]
      ensures forall s | s in old(currentLast) && s !in contracts :: currentLast[s] == old(currentLast)[s]
    {
      var pending := contracts.Keys;
      ghost var done: set<string> := {};
      while pending != {}
        invariant pending == contracts.Keys - done && done <= contracts.Keys
        invariant previousLast.Keys == old(previousLast).Keys + done
        invariant currentLast.Keys == old(currentLast).Keys
        invariant forall s | s in done :: previousLast[s] == old(currentLast)[s] && currentLast[s] == PriceOf(lasts, s)
        invariant forall s | s in old(previousLast) && s !in done :: previousLast[s] == old(previousLast)[s]
        invariant forall s | s in old(currentLast) && s !in done :: currentLast[s] == old(currentLast)[s]
        decreases pending
      {
        var symbol :| symbol in pending;
        previousLast := previousLast[symbol := currentLast[symbol]];
        currentLast := currentLast[symbol := PriceOf(lasts, symbol)];
        done, pending := done + {symbol}, pending - {symbol};
      }
    }

    // ----------------------------------------------------------- new bars

    /**
     * Lines 397-410: take the pending new-bar symbols and look each one up;
     * `row` is left at the last symbol's instruction row.  A symbol missing
     * from the instructions, the contracts or the bar streams raises, and the
     * pending set is lost.
     */
    method HandleNewBars() returns (flow: Flow)
      modifies this`newBars, this`row
      ensures newBars == {} && flow != Exited
      ensures flow == Normal <==> old(newBars) <= instructions.Keys && old(newBars) <= contracts.Keys && old(newBars) <= orthBars
      ensures row != old(row) ==> row.Some? && exists s :: s in old(newBars) && s in instructions && row.value == instructions[s]
      ensures flow == Normal && old(newBars) != {} ==>
        row.Some? && exists s :: s in old(newBars) && s in instructions && row.value == instructions[s]
    {
      flow := Normal;
      var pending := newBars;
      newBars := {};
      ghost var done: set<string> := {};
      while pending != {}
        invariant pending == old(newBars) - done && done <= old(newBars) && newBars == {}
        invariant done <= instructions.Keys && done <= contracts.Keys && done <= orthBars
        invariant row != old(row) ==> row.Some? && exists s :: s in done && s in instructions && row.value == instructions[s]
        invariant done != {} ==> row.Some? && exists s :: s in done && s in instructions && row.value == instructions[s]
        decreases pending
      {
        var symbol :| symbol in pending;
        if symbol !in instructions {
          flow := Raised;
          return;
        }
        row := Some(instructions[symbol]);
        if symbol !in contracts || symbol !in orthBars {
          flow := Raised;
          return;
        }
        done, pending := done + {symbol}, pending - {symbol};
      }
    }


    // -------------------------------------------------------- instructions

    /**
     * Lines 300-317: when the file's modification time differs from the last
     * one seen, read it again; duplicate symbols keep their first row.  A
     * file that cannot be read raises, and is not read again until it changes.
     */
    method ReadInstructions(mtime: int, sheet: Option<seq<Row>>) returns (flow: Flow, reread: Option<seq<Row>>)
      requires Valid()
      modifies this`sheetVersion, this`instructions
      ensures Valid()
      ensures sheetVersion == Some(mtime) && flow != Exited
      ensures old(sheetVersion) == Some(mtime) ==> flow == Normal && reread == None && instructions == old(instructions)
      ensures old(sheetVersion) != Some(mtime) && sheet.None? ==>
        flow == Raised && reread == None && instructions == old(instructions)
      ensures old(sheetVersion) != Some(mtime) && sheet.Some? ==>
        flow == Normal && reread == Some(FirstOccurrences(sheet.value)) && instructions == SheetMap(sheet.value)
    {
      flow, reread := Normal, None;
      if sheetVersion == Some(mtime) {
        return;
      }
      sheetVersion := Some(mtime);
      if sheet.None? {
        flow := Raised;
        return;
      }
      instructions := SheetMap(sheet.value);
      reread := Some(FirstOccurrences(sheet.value));
    }

    /** Lines 334-336: fetch the market rule of every id not cached yet. */
    method CacheRules(ids: seq<int>, answers: map<int, Orders.MarketRule>)
      modifies this`rules
      ensures rules.Keys == old(rules).Keys + SeqElements(ids)
      ensures forall id | id in old(rules) :: rules[id] == old(rules)[id]
      ensures forall id | id in rules && id !in old(rules) :: rules[id] == RuleAnswer(answers, id)
    {
      for k := 0 to |ids|
        invariant rules.Keys == old(rules).Keys + SeqElements(ids[..k])
        invariant forall id | id in old(rules) :: rules[id] == old(rules)[id]
        invariant forall id | id in rules && id !in old(rules) :: rules[id] == RuleAnswer(answers, id)
      {
        assert ids[..k + 1] == ids[..k] + [ids[k]];
        SeqElementsSnoc(ids[..k], ids[k]);
        if ids[k] !in rules {
          rules := rules[ids[k] := RuleAnswer(answers, ids[k])];
        }
      }
    }

    /**
     * Lines 332-336: parse the comma-separated market rule ids of a stock
     * and cache the rule of each; a part that is not a number raises before
     * anything is fetched.
     */
    method CacheRuleIds(text: string, answers: map<int, Orders.MarketRule>) returns (parsed: bool)
      modifies this`rules
      ensures parsed <==> ParseInts(Split(text, ',')).Some?
      ensures !parsed ==> rules == old(rules)
      ensures parsed ==> rules.Keys == old(rules).Keys + SeqElements(ParseInts(Split(text, ',')).value)
      ensures forall id | id in old(rules) :: id in rules && rules[id] == old(rules)[id]
      ensures forall id | id in rules && id !in old(rules) :: rules[id] == RuleAnswer(answers, id)
    {
      var ids := ParseInts(Split(text, ','));
      if ids.None? {
        return false;
      }
      CacheRules(ids.value, answers);
      return true;
    }

    /**
     * Lines 323-336 for a valid row of a new symbol: ask the broker for the
     * stock; unless it is matched exactly once, keep its details and cache
     * the market rules its ids name.
     */
    method Qualify(symbol: string, stocks: map<string, seq<StockDetails>>, ruleAnswers: map<int, Orders.MarketRule>)
      returns (flow: Flow, qualified: Option<StockDetails>)
      modifies this`details, this`rules
      ensures flow != Exited && (qualified.Some? ==> flow == Normal)
      ensures |StockAnswer(stocks, symbol)| != 1 ==> flow == Normal && qualified == None && rules == old(rules)
      ensures |StockAnswer(stocks, symbol)| == 1 ==>
        (flow == Normal <==> Qualifies(stocks, symbol)) && (flow == Normal ==> qualified == Some(StockAnswer(stocks, symbol)[0]))
      ensures QualifyEffect(old(details), details, old(rules), rules, stocks, symbol, ruleAnswers)
    {
      flow, qualified := Normal, None;
      var answers := StockAnswer(stocks, symbol);
      if |answers| != 1 {
        return;
      }
      details := details[symbol := answers[0]];
      var parsed := CacheRuleIds(answers[0].marketRuleIds, ruleAnswers);
      if !parsed {
        return Raised, None;
      }
      qualified := Some(answers[0]);
    }

    /**
     * Lines 337-348: request the daily bars and the ticker of a new symbol,
     * then its outside-hours bars.  When the bar size has no name the last
     * request fails: the failure is counted, and it raises in fail-fast mode,
     * past 100 exceptions or once stopping.
     */
    method RequestStreams(symbol: string) returns (flow: Flow)
      modifies this`dailyBars, this`tickers, this`orthBars, this`nExceptions
      ensures flow != Exited
      ensures tickers == old(tickers) + {symbol} && dailyBars == old(dailyBars) + {symbol}
      ensures barSizeName.Some? ==> flow == Normal && nExceptions == old(nExceptions) && orthBars == old(orthBars) + {symbol}
      ensures barSizeName.None? ==>
        nExceptions == old(nExceptions) + 1 && orthBars == old(orthBars)
        && (flow == Raised <==> Reraises(failFast, nExceptions, alive))
    {
      flow := Normal;
      dailyBars := dailyBars + {symbol};
      tickers := tickers + {symbol};
      if barSizeName.None? {
        nExceptions := nExceptions + 1;
        if failFast || nExceptions > MaxExceptions || !alive {
          flow := Raised;
        }
        return;
      }
      orthBars := orthBars + {symbol};
    }

    /** Lines 355-357: a symbol whose data streams started is traded, IDLE, with its first last price. */
    method Track(symbol: string, localSymbol: string, last: Price)
      requires TrackedMaps(tradingStates, contracts, currentLast) && CoveredMaps(tradingStates, stopTrades, sizes)
      modifies this`tradingStates, this`contracts, this`currentLast
      ensures TrackedMaps(tradingStates, contracts, currentLast) && CoveredMaps(tradingStates, stopTrades, sizes)
      ensures contracts == old(contracts)[symbol := localSymbol]
      ensures tradingStates == old(tradingStates)[symbol := Idle]
      ensures currentLast == old(currentLast)[symbol := last]
    {
      TrackedAdd(tradingStates, contracts, currentLast, symbol, Idle, localSymbol, last);
      CoveredLeave(tradingStates, stopTrades, sizes, symbol, Idle, Cleared);
      tradingStates, contracts, currentLast := tradingStates[symbol := Idle], contracts[symbol := localSymbol], currentLast[symbol := last];
    }

    /**
     * Lines 337-357 once a symbol is qualified: start its data streams and,
     * when they all started, trade it.
     */
    method Start(symbol: string, localSymbol: string, last: Price) returns (flow: Flow)
      requires TrackedMaps(tradingStates, contracts, currentLast) && CoveredMaps(tradingStates, stopTrades, sizes)
      modifies this`dailyBars, this`tickers, this`orthBars, this`tradingStates, this`contracts, this`currentLast,
               this`nExceptions
      ensures TrackedMaps(tradingStates, contracts, currentLast) && CoveredMaps(tradingStates, stopTrades, sizes)
      ensures flow != Exited
      ensures tickers == old(tickers) + {symbol} && dailyBars == old(dailyBars) + {symbol}
      ensures barSizeName.Some? ==>
        flow == Normal && nExceptions == old(nExceptions) && orthBars == old(orthBars) + {symbol}
        && contracts == old(contracts)[symbol := localSymbol] && tradingStates == old(tradingStates)[symbol := Idle]
        && currentLast == old(currentLast)[symbol := last]
      ensures barSizeName.None? ==>
        nExceptions == old(nExceptions) + 1 && orthBars == old(orthBars)
        && (flow == Raised <==> Reraises(failFast, nExceptions, alive))
        && contracts == old(contracts) && tradingStates == old(tradingStates) && currentLast == old(currentLast)
    {
      flow := RequestStreams(symbol);
      if barSizeName.Some? {
        Track(symbol, localSymbol, last);
      }
    }

    /**
     * Lines 323-357 for a valid row of a new symbol: qualify it, then start
     * its data and trade it.
     */
    method Join(symbol: string, stocks: map<string, seq<StockDetails>>,
                ruleAnswers: map<int, Orders.MarketRule>, last: Price) returns (flow: Flow)
      requires TrackedMaps(tradingStates, contracts, currentLast) && CoveredMaps(tradingStates, stopTrades, sizes)
      modifies this`details, this`rules, this`dailyBars, this`tickers, this`orthBars,
               this`tradingStates, this`contracts, this`currentLast, this`nExceptions
      ensures TrackedMaps(tradingStates, contracts, currentLast) && CoveredMaps(tradingStates, stopTrades, sizes)
      ensures flow != Exited
      ensures if Qualifies(stocks, symbol) && barSizeName.Some? then
          flow == Normal
          && contracts == old(contracts)[symbol := StockAnswer(stocks, symbol)[0].localSymbol]
          && tradingStates == old(tradingStates)[symbol := Idle]
          && currentLast == old(currentLast)[symbol := last]
          && symbol in tickers && symbol in dailyBars && symbol in orthBars
        else contracts == old(contracts) && tradingStates == old(tradingStates) && currentLast == old(currentLast)
      ensures details == KeptDetails(old(details), stocks, symbol)
      ensures RulesKept(old(rules), rules, ruleAnswers)
      ensures nExceptions >= old(nExceptions)
      ensures flow == Normal && nExceptions > old(nExceptions) ==> nExceptions <= MaxExceptions
      ensures old(tickers) <= tickers && old(dailyBars) <= dailyBars && old(orthBars) <= orthBars
    {
      var qualified;
      flow, qualified := Qualify(symbol, stocks, ruleAnswers);
      if qualified.None? {
        return;
      }
      ghost var kept, cached := details, rules;
      flow := Start(symbol, qualified.value.localSymbol, last);
      assert details == kept && rules == cached;
    }

    /**
     * Lines 321-363 for one row of the sheet: a symbol already traded is
     * skipped, an invalid row raises, and a new symbol is qualified and its
     * data started.
     */
    method OnboardRow(r: Row, stocks: map<string, seq<StockDetails>>,
                      ruleAnswers: map<int, Orders.MarketRule>, lasts: map<string, Price>) returns (flow: Flow)
      requires TrackedMaps(tradingStates, contracts, currentLast) && CoveredMaps(tradingStates, stopTrades, sizes)
      modifies this`row, this`details, this`rules, this`dailyBars, this`tickers, this`orthBars,
               this`tradingStates, this`contracts, this`currentLast, this`nExceptions
      ensures TrackedMaps(tradingStates, contracts, currentLast) && CoveredMaps(tradingStates, stopTrades, sizes)
      ensures flow != Exited && row == Some(r)
      ensures r.symbol in old(contracts) ==> flow == Normal
      ensures flow == Normal && r.symbol !in old(contracts) ==> ValidRow(r)
      ensures Tracking(tradingStates, contracts, currentLast)
           == OnboardStep(old(Tracking(tradingStates, contracts, currentLast)), r, stocks, lasts, barSizeName)
      ensures contracts.Keys - old(contracts).Keys <= tickers * dailyBars * orthBars
      ensures details == if r.symbol !in old(contracts) && ValidRow(r) then KeptDetails(old(details), stocks, r.symbol) else old(details)
      ensures nExceptions >= old(nExceptions)
      ensures flow == Normal && nExceptions > old(nExceptions) ==> nExceptions <= MaxExceptions
      ensures old(tickers) <= tickers && old(dailyBars) <= dailyBars && old(orthBars) <= orthBars
      ensures RulesKept(old(rules), rules, ruleAnswers)
    {
      flow := Normal;
      row := Some(r);
      if r.symbol in contracts {
        return;
      }
      if !ValidRow(r) {
        return Raised;
      }
      flow := Join(r.symbol, stocks, ruleAnswers, PriceOf(lasts, r.symbol));
    }

    /**
     * Lines 320-363: qualify every new symbol of the (deduplicated) sheet and
     * start its data, row by row, until a row raises.  The module-level `row`
     * is left at the last row visited.
     */
    method Onboard(rows: seq<Row>, stocks: map<string, seq<StockDetails>>,
                   ruleAnswers: map<int, Orders.MarketRule>, lasts: map<string, Price>)
      returns (flow: Flow, ghost visited: nat)
      requires TrackedMaps(tradingStates, contracts, currentLast) && CoveredMaps(tradingStates, stopTrades, sizes)
      modifies this`row, this`details, this`rules, this`dailyBars, this`tickers, this`orthBars,
               this`tradingStates, this`contracts, this`currentLast, this`nExceptions
      ensures TrackedMaps(tradingStates, contracts, currentLast) && CoveredMaps(tradingStates, stopTrades, sizes)
      ensures flow != Exited
      ensures flow == Normal ==>
        Tracking(tradingStates, contracts, currentLast)
        == Onboarded(old(Tracking(tradingStates, contracts, currentLast)), rows, stocks, lasts, barSizeName)
        && row == if |rows| > 0 then Some(rows[|rows| - 1]) else old(row)
      ensures flow == Raised ==>
        visited < |rows| && row == Some(rows[visited])
        && Tracking(tradingStates, contracts, currentLast)
           == Onboarded(old(Tracking(tradingStates, contracts, currentLast)), rows[..visited + 1], stocks, lasts, barSizeName)
      ensures contracts.Keys - old(contracts).Keys <= tickers * dailyBars * orthBars
      ensures nExceptions >= old(nExceptions)
      ensures flow == Normal && nExceptions > old(nExceptions) ==> nExceptions <= MaxExceptions
      ensures old(tickers) <= tickers && old(dailyBars) <= dailyBars && old(orthBars) <= orthBars
      ensures RulesKept(old(rules), rules, ruleAnswers)
      ensures DetailsKept(old(contracts).Keys, contracts.Keys, old(details), details, stocks)
    {
      flow := Normal;
      ghost var start := Tracking(tradingStates, contracts, currentLast);
      for i := 0 to |rows|
        invariant TrackedMaps(tradingStates, contracts, currentLast) && CoveredMaps(tradingStates, stopTrades, sizes)
        invariant flow == Normal && row == if i > 0 then Some(rows[i - 1]) else old(row)
        invariant Tracking(tradingStates, contracts, currentLast) == Onboarded(start, rows[..i], stocks, lasts, barSizeName)
        invariant contracts.Keys - old(contracts).Keys <= tickers * dailyBars * orthBars
        invariant nExceptions >= old(nExceptions)
        invariant nExceptions > old(nExceptions) ==> nExceptions <= MaxExceptions
        invariant old(tickers) <= tickers && old(dailyBars) <= dailyBars && old(orthBars) <= orthBars
        invariant RulesKept(old(rules), rules, ruleAnswers)
        invariant DetailsKept(old(contracts).Keys, contracts.Keys, old(details), details, stocks)
      {
        assert rows[..i + 1][..i] == rows[..i];
        ghost var t, started, cached, kept := Tracking(tradingStates, contracts, currentLast), tickers * dailyBars * orthBars, rules, details;
        flow := OnboardRow(rows[i], stocks, ruleAnswers, lasts);
        NewKeysStarted(old(contracts).Keys, t.contracts.Keys, contracts.Keys, started, tickers * dailyBars * orthBars);
        RulesKeptTrans(old(rules), cached, rules, ruleAnswers);
        DetailsKeptRow(old(contracts).Keys, t, rows[i], stocks, lasts, barSizeName, old(details), kept, details);
        if flow == Raised {
          return flow, i;
        }
      }
      assert rows[..|rows|] == rows;
      visited := |rows|;
    }

    // ---------------------------------------------------------- entries

    /** `switch_trading_state`: only the symbol's own state changes. */
    method SwitchTradingState(symbol: string, dest: TradingState)
      requires symbol in tradingStates
      modifies this`tradingStates
      ensures tradingStates == old(tradingStates)[symbol := dest]
    {
      tradingStates := tradingStates[symbol := dest];
    }

    /**
     * Lines 487-574 for a qualified option: size the entry from its quote,
     * record the size, compute the exit prices with the tick of `rule` and
     * place the orders.
     */
    method EnterContract(symbol: string, own: Row, option: OptionContract, rule: Option<Orders.MarketRule>,
                         tag: OrderTag, market: OptionMarket) returns (outcome: EntryOutcome)
      requires TrackedMaps(tradingStates, contracts, currentLast) && CoveredMaps(tradingStates, stopTrades, sizes) && marketClose.Some? && symbol in tradingStates && tradingStates[symbol] == Idle
      modifies this`tradingStates, this`sizes, this`stopTrades
      ensures TrackedMaps(tradingStates, contracts, currentLast) && CoveredMaps(tradingStates, stopTrades, sizes)
      ensures outcome == ContractEntry(symbol, own, option, rule, marketClose.value, market, name, tag)
      ensures tradingStates == StatesAfter(old(tradingStates), symbol, outcome)
      ensures sizes == SizesAfter(old(sizes), symbol, outcome)
      ensures stopTrades == StopsAfter(old(stopTrades), symbol, outcome)
    {
      var quote := QuoteOf(market, option.localSymbol);
      var sizing := SizeEntry(quote, option.multiplier, own.amount, own.stop);
      if sizing.SizingRaises? {
        return Raises(None);
      }
      if !sizing.Sized? {
        return NotSized(sizing);
      }
      sizes := sizes[symbol := sizing.size];
      outcome := PlaceExits(symbol, own, option, rule, quote.ask.value, sizing.size, tag);
    }

    /**
     * Lines 509-574, once the size of the entry is recorded: compute the
     * exit prices with the tick of `rule`, place the orders and put the
     * symbol in position.
     */
    method PlaceExits(symbol: string, own: Row, option: OptionContract, rule: Option<Orders.MarketRule>, ask: int,
                      size: int, tag: OrderTag) returns (outcome: EntryOutcome)
      requires TrackedMaps(tradingStates, contracts, currentLast) && CoveredMaps(tradingStates, stopTrades, sizes)
      requires marketClose.Some? && symbol in tradingStates && tradingStates[symbol] == Idle && symbol in sizes
      modifies this`tradingStates, this`stopTrades
      ensures TrackedMaps(tradingStates, contracts, currentLast) && CoveredMaps(tradingStates, stopTrades, sizes)
      ensures outcome == ExitsEntry(symbol, own, option, rule, ask, size, marketClose.value, name, tag)
      ensures SizeRecorded(outcome) == Some(size)
      ensures tradingStates == StatesAfter(old(tradingStates), symbol, outcome)
      ensures stopTrades == StopsAfter(old(stopTrades), symbol, outcome)
    {
      if rule.None? {
        return Raises(Some(size));
      }
      var rawStop, rawTarget := RawStop(ask, own.stop), RawTarget(ask, own.target);
      var minTick := Orders.SelectTick(rule.value, rawStop, rawTarget);
      if minTick.None? {
        return Raises(Some(size));
      }
      var exits := Exits(minTick.value, RoundPrice(rawStop, minTick.value), RoundPrice(rawTarget, minTick.value));
      assert ExitPrices(ask, own.stop, own.target, rule.value) == Some(exits);
      var orders := BuildEntryOrders(option, size, exits, ExitTime(marketClose.value, own), name, symbol, tag);
      stopTrades := stopTrades[symbol := Placed(orders.stop.orderRef)];
      SwitchTradingState(symbol, InPosition);
      return Entered(size, orders);
    }

    /**
     * Lines 450-486 for one symbol with a signal and an OPTIONS row: request
     * the option, fetch the market rules it names, and give up on the symbol
     * when the broker cannot qualify it.
     */
    method EnterOption(symbol: string, own: Row, side: Side, tag: OrderTag, market: OptionMarket) returns (outcome: EntryOutcome)
      requires TrackedMaps(tradingStates, contracts, currentLast) && CoveredMaps(tradingStates, stopTrades, sizes) && marketClose.Some? && symbol in tradingStates && tradingStates[symbol] == Idle
      modifies this`tradingStates, this`sizes, this`stopTrades
      ensures TrackedMaps(tradingStates, contracts, currentLast) && CoveredMaps(tradingStates, stopTrades, sizes)
      ensures outcome == OptionEntry(symbol, own, side, marketClose.value, market, name, tag)
      ensures tradingStates == StatesAfter(old(tradingStates), symbol, outcome)
      ensures sizes == SizesAfter(old(sizes), symbol, outcome)
      ensures stopTrades == StopsAfter(old(stopTrades), symbol, outcome)
    {
      var answers := DetailsOf(market, OptionFor(symbol, own, side));
      if |answers| == 0 {
        return Raises(None);
      }
      var fetched := FetchMarketRule(Split(answers[0].marketRuleIds, ','), market.rules);
      if fetched.FetchRaised? {
        return Raises(None);
      }
      if answers[0].contract.None? {
        SwitchTradingState(symbol, DoneNoValidOption);
        return NoValidOption;
      }
      outcome := EnterContract(symbol, own, answers[0].contract.value, fetched.rule, tag, market);
    }

    /**
     * Lines 416-449 for one symbol: it must be IDLE, before its exit time,
     * with a crossing signal, and the stale `row` must say OPTIONS.
     */
    method TryEntry(symbol: string, now: int, tag: OrderTag, market: OptionMarket) returns (outcome: EntryOutcome)
      requires TimesKnown() && TrackedMaps(tradingStates, contracts, currentLast) && CoveredMaps(tradingStates, stopTrades, sizes) && globalState == Active && symbol in contracts && symbol in previousLast
      modifies this`tradingStates, this`sizes, this`stopTrades
      ensures TrackedMaps(tradingStates, contracts, currentLast) && CoveredMaps(tradingStates, stopTrades, sizes)
      ensures outcome == EntryFor(EntryView(marketClose, instructions, previousLast, currentLast, row), symbol,
                                  old(tradingStates)[symbol], now, tag, market, name)
      ensures tradingStates == StatesAfter(old(tradingStates), symbol, outcome)
      ensures sizes == SizesAfter(old(sizes), symbol, outcome)
      ensures stopTrades == StopsAfter(old(stopTrades), symbol, outcome)
    {
      if tradingStates[symbol] != Idle {
        return NotIdle;
      }
      if symbol !in instructions {
        return Raises(None);
      }
      var own := instructions[symbol];
      if now >= ExitTime(marketClose.value, own) {
        return TooLate;
      }
      var action := EntryAction(own, previousLast[symbol], currentLast[symbol]);
      if action.None? {
        return NoSignal;
      }
      if row.None? {
        return Raises(None);
      }
      if row.value.trading != "OPTIONS" {
        return NotOptions;
      }
      outcome := EnterOption(symbol, own, action.value, tag, market);
    }

    /**
     * One symbol of the entry phase: its entry is tried from the state the
     * phase started in, and its outcome is added to those of the symbols
     * tried before it.
     */
    method EntryStep(symbol: string, now: int, tag: OrderTag, market: OptionMarket,
                     ghost states0: map<string, TradingState>, ghost sizes0: map<string, int>,
                     ghost stops0: map<string, StopTrade>, ghost decisions: map<string, EntryOutcome>,
                     ghost outcomes: map<string, EntryOutcome>, placed: seq<EntryOrders>, pending: set<string>)
      returns (raised: bool, placed': seq<EntryOrders>, ghost outcomes': map<string, EntryOutcome>, pending': set<string>)
      requires TimesKnown() && TrackedMaps(tradingStates, contracts, currentLast) && CoveredMaps(tradingStates, stopTrades, sizes)
      requires globalState == Active && symbol in pending && contracts.Keys <= previousLast.Keys
      requires Fit(decisions, EntryView(marketClose, instructions, previousLast, currentLast, row), states0, now, tag, market, name)
      requires Progress(tradingStates, sizes, stopTrades, placed, states0, sizes0, stops0, decisions, outcomes, pending)
      requires NoRaise(outcomes)
      modifies this`tradingStates, this`sizes, this`stopTrades
      ensures TrackedMaps(tradingStates, contracts, currentLast) && CoveredMaps(tradingStates, stopTrades, sizes)
      ensures Progress(tradingStates, sizes, stopTrades, placed', states0, sizes0, stops0, decisions, outcomes', pending')
      ensures pending' == pending - {symbol} && (NoRaise(outcomes') <==> !raised)
    {
      assert tradingStates[symbol] == states0[symbol];
      var outcome := TryEntry(symbol, now, tag, market);
      ProgressOneMore(old(tradingStates), old(sizes), old(stopTrades), placed, states0, sizes0, stops0, decisions, outcomes,
                      pending, symbol, outcome);
      NoRaiseOneMore(outcomes, symbol, outcome);
      placed' := if outcome.Entered? then placed + [outcome.orders] else placed;
      outcomes', pending' := outcomes[symbol := outcome], pending - {symbol};
      raised := outcome.Raises?;
    }

    /**
     * Lines 415-574 during the ACTIVE state: try an entry for every traded
     * symbol, each from its own state at the start of the phase, in any
     * order.  An exception stops the phase with the symbols tried before it
     * done; `outcomes` holds the outcome of every symbol tried.
     */
    method TryEntries(now: int, tag: OrderTag, market: OptionMarket, ghost decisions: map<string, EntryOutcome>)
      returns (flow: Flow, placed: seq<EntryOrders>, ghost outcomes: map<string, EntryOutcome>, ghost untried: set<string>)
      requires TimesKnown() && TrackedMaps(tradingStates, contracts, currentLast) && CoveredMaps(tradingStates, stopTrades, sizes)
      requires globalState == Active && contracts.Keys <= previousLast.Keys
      requires Fit(decisions, EntryView(marketClose, instructions, previousLast, currentLast, row), tradingStates,
                   now, tag, market, name)
      modifies this`tradingStates, this`sizes, this`stopTrades
      ensures TrackedMaps(tradingStates, contracts, currentLast) && CoveredMaps(tradingStates, stopTrades, sizes)
      ensures flow != Exited && (flow == Normal <==> NoRaise(outcomes))
      ensures flow == Normal ==> untried == {}
      ensures Progress(tradingStates, sizes, stopTrades, placed, old(tradingStates), old(sizes), old(stopTrades), decisions, outcomes,
                       untried)
    {
      ghost var states0, sizes0, stops0 := tradingStates, sizes, stopTrades;
      flow, placed, outcomes := Normal, [], map[];
      var pending := contracts.Keys;
      ProgressStart(states0, sizes0, stops0, decisions);
      while pending != {}
        invariant TrackedMaps(tradingStates, contracts, currentLast) && CoveredMaps(tradingStates, stopTrades, sizes)
        invariant Progress(tradingStates, sizes, stopTrades, placed, states0, sizes0, stops0, decisions, outcomes, pending)
        invariant NoRaise(outcomes)
        decreases pending
      {
        var symbol :| symbol in pending;
        var raised;
        raised, placed, outcomes, pending := EntryStep(symbol, now, tag, market, states0, sizes0, stops0, decisions, outcomes, placed, pending);
        if raised {
          flow, untried := Raised, pending;
          return;
        }
      }
      untried := {};
    }

    /** Lines 415-574: the entries are tried only while the global state is ACTIVE. */
    method EntryPhase(now: int, tag: OrderTag, market: OptionMarket)
      returns (flow: Flow, placed: seq<EntryOrders>, ghost outcomes: map<string, EntryOutcome>)
      requires TimesKnown() && TrackedMaps(tradingStates, contracts, currentLast) && CoveredMaps(tradingStates, stopTrades, sizes) && contracts.Keys <= previousLast.Keys
      modifies this`tradingStates, this`sizes, this`stopTrades
      ensures TrackedMaps(tradingStates, contracts, currentLast) && CoveredMaps(tradingStates, stopTrades, sizes) && flow != Exited
      ensures globalState != Active ==> flow == Normal && placed == [] && outcomes == map[]
      ensures globalState == Active ==>
        outcomes.Keys <= contracts.Keys && (flow == Normal ==> outcomes.Keys == contracts.Keys)
        && (flow == Normal <==> NoRaise(outcomes))
      ensures Within(outcomes, EntryDecisions(EntryView(marketClose, instructions, previousLast, currentLast, row),
                                              old(tradingStates), now, tag, market, name))
      ensures tradingStates == StatesAfterAll(old(tradingStates), outcomes) && sizes == SizesAfterAll(old(sizes), outcomes)
      ensures stopTrades == StopsAfterAll(old(stopTrades), outcomes)
      ensures SeqElements(placed) == PlacedOrders(outcomes)
    {
      ghost var states0, sizes0, stops0 := tradingStates, sizes, stopTrades;
      if globalState != Active {
        flow, placed, outcomes := Normal, [], map[];
        PlacedNone();
      } else {
        ghost var view := EntryView(marketClose, instructions, previousLast, currentLast, row);
        EntryDecisionsFit(view, tradingStates, now, tag, market, name);
        ghost var untried;
        flow, placed, outcomes, untried := TryEntries(now, tag, market, EntryDecisions(view, tradingStates, now, tag, market, name));
      }
      AppliedAfterAll(tradingStates, sizes, stopTrades, states0, sizes0, stops0, outcomes);
    }

    // --------------------------------------------------------------- stops

    /**
     * Lines 580-593 for one symbol: a symbol in position, during the ACTIVE
     * state, whose stop order has filled its whole size goes back to IDLE and
     * its stop order is cleared.
     */
    method CheckStop(symbol: string, filled: map<string, int>) returns (hit: bool)
      requires TrackedMaps(tradingStates, contracts, currentLast) && CoveredMaps(tradingStates, stopTrades, sizes) && symbol in tradingStates
      modifies this`tradingStates, this`stopTrades
      ensures TrackedMaps(tradingStates, contracts, currentLast) && CoveredMaps(tradingStates, stopTrades, sizes)
      ensures hit == StopHit(globalState, old(tradingStates)[symbol], Get(old(stopTrades), symbol), Get(sizes, symbol), filled)
      ensures tradingStates == (if hit then old(tradingStates)[symbol := Idle] else old(tradingStates))
      ensures stopTrades == (if hit then old(stopTrades)[symbol := Cleared] else old(stopTrades))
    {
      if tradingStates[symbol] != InPosition || globalState != Active {
        return false;
      }
      hit := FilledOf(filled, stopTrades[symbol].orderRef) == sizes[symbol];
      if hit {
        SwitchTradingState(symbol, Idle);
        stopTrades := stopTrades[symbol := Cleared];
      }
    }

    /** Lines 578-593: the stop check for every traded symbol. */
    method StopPhase(filled: map<string, int>)
      requires TrackedMaps(tradingStates, contracts, currentLast) && CoveredMaps(tradingStates, stopTrades, sizes)
      modifies this`tradingStates, this`stopTrades
      ensures TrackedMaps(tradingStates, contracts, currentLast) && CoveredMaps(tradingStates, stopTrades, sizes)
      ensures tradingStates == StatesStopped(globalState, old(tradingStates), old(stopTrades), sizes, filled, {})
      ensures stopTrades == StopsStopped(globalState, old(tradingStates), old(stopTrades), sizes, filled, {})
    {
      ghost var states0, stops0 := tradingStates, stopTrades;
      var pending := contracts.Keys;
      StoppedNone(globalState, states0, stops0, sizes, filled, pending);
      while pending != {}
        invariant TrackedMaps(tradingStates, contracts, currentLast) && CoveredMaps(tradingStates, stopTrades, sizes)
        invariant tradingStates == StatesStopped(globalState, states0, stops0, sizes, filled, pending)
        invariant stopTrades == StopsStopped(globalState, states0, stops0, sizes, filled, pending)
        invariant pending <= states0.Keys
        decreases pending
      {
        var symbol :| symbol in pending;
        StatesStoppedOneMore(globalState, states0, stops0, sizes, filled, pending, symbol);
        StopsStoppedOneMore(globalState, states0, stops0, sizes, filled, pending, symbol);
        var hit := CheckStop(symbol, filled);
        pending := pending - {symbol};
      }
    }

    // ------------------------------------------------------ global state

    /** Lines 595-605: advance the global state; reaching DONE ends the program. */
    method AdvanceGlobal(now: int) returns (flow: Flow)
      requires TimesKnown()
      modifies this`globalState
      ensures TimesKnown()
      ensures old(globalState) == Init ==> globalState == Init && flow == Normal
      ensures old(globalState) != Init ==> globalState == NextGlobal(old(globalState), now, marketOpen.value, marketClose.value)
      ensures flow == Exited <==> globalState == Done && old(globalState) != Done
      ensures flow != Raised
    {
      flow := Normal;
      if globalState == WaitMarketOpen && now >= marketOpen.value {
        globalState := Active;
      }
      if globalState == Active && now >= marketClose.value {
        globalState := Done;
        flow := Exited;
      }
    }

    // ----------------------------------------------------------- recovery

    /**
     * Lines 614-649: after an unexpected exception, re-raise in fail-fast
     * mode, past 100 exceptions or once stopping; otherwise count it, drop
     * the streams of a live connection, and drop the connection.
     */
    method Recover() returns (reraise: bool)
      modifies this`nExceptions, this`tickers, this`dailyBars, this`orthBars, this`connected
      ensures reraise == Reraises(failFast, old(nExceptions), alive)
      ensures reraise ==> nExceptions == old(nExceptions) && connected == old(connected)
                          && tickers == old(tickers) && dailyBars == old(dailyBars) && orthBars == old(orthBars)
      ensures !reraise ==> nExceptions == old(nExceptions) + 1 <= MaxExceptions + 1 && !connected
      ensures !reraise && old(connected) ==> tickers == {} && dailyBars == {} && orthBars == {}
      ensures !reraise && !old(connected) ==> tickers == old(tickers) && dailyBars == old(dailyBars) && orthBars == old(orthBars)
    {
      if failFast || nExceptions > MaxExceptions || !alive {
        return true;
      }
      nExceptions := nExceptions + 1;
      if connected {
        tickers, dailyBars, orthBars := {}, {}, {};
      }
      connected := false;
      return false;
    }

    // ------------------------------------------------------------ the loop

    /** Lines 236-297: connect if there is no connection, then settle the session times while INIT. */
    method Open(w: World) returns (flow: Flow)
      requires Valid()
      modifies this`connected, this`account, this`alive, this`marketOpen, this`marketClose, this`globalState
      ensures Valid() && flow != Exited && connected
      ensures account == if !old(connected) && w.connects && old(account) == "0" && |w.accounts| > 0 then w.accounts[0]
                         else old(account)
      ensures old(globalState) != Init ==> globalState == old(globalState)
                                           && marketOpen == old(marketOpen) && marketClose == old(marketClose)
      ensures old(globalState) == Init ==> globalState == Init || (globalState == WaitMarketOpen && flow == Normal)
      ensures flow == Normal ==> globalState != Init
      ensures old(globalState) == Init && flow == Normal ==>
        InitStep(w.Now(), testRightNow, w.InitCalendar()).times == Some((marketOpen.value, marketClose.value))
    {
      flow := Connect(w.connects, w.accounts);
      if flow != Normal || globalState != Init {
        return;
      }
      flow := StartUp(w);
    }

    /** Lines 298-363: read the instructions again if they changed, and start the new symbols. */
    method Reread(w: World) returns (flow: Flow)
      requires Valid()
      modifies this`sheetVersion, this`instructions, this`row, this`details, this`rules, this`dailyBars, this`tickers,
               this`orthBars, this`tradingStates, this`contracts, this`currentLast, this`nExceptions
      ensures Valid() && flow != Exited
      ensures sheetVersion == Some(w.mtime)
      ensures nExceptions >= old(nExceptions)
    {
      var reread;
      flow, reread := ReadInstructions(w.mtime, w.sheet);
      if flow == Normal && reread.Some? {
        ghost var visited;
        flow, visited := Onboard(reread.value, w.stocks, w.market.rules, w.lasts);
      }
    }

    /** Lines 365-387: restart the streams the broker dropped, then record the new fills. */
    method Refeed(w: World) returns (flow: Flow)
      requires Valid()
      modifies this`tickers, this`dailyBars, this`orthBars, this`seenCommissions, this`commissions
      ensures Valid() && flow != Exited
      ensures flow == Normal ==>
        tickers == old(tickers) + contracts.Keys
        && seenCommissions == old(seenCommissions) + FillIds(w.fills)
        && commissions == old(commissions) + NewFillRecords(old(seenCommissions), w.fills)
      ensures flow == Raised ==> seenCommissions == old(seenCommissions) && commissions == old(commissions)
    {
      flow := Resubscribe();
      if flow == Normal {
        RecordFills(w.fills);
      }
    }

    /** Lines 390-410: sample the last prices, then act on the symbols with a new bar. */
    method Sample(w: World) returns (flow: Flow)
      requires Valid()
      modifies this`previousLast, this`currentLast, this`newBars, this`row
      ensures Valid() && flow != Exited
      ensures contracts.Keys <= previousLast.Keys
      ensures forall s | s in contracts :: previousLast[s] == old(currentLast)[s] && currentLast[s] == PriceOf(w.lasts, s)
      ensures newBars == {}
      ensures flow == Normal <==> old(newBars) <= instructions.Keys && old(newBars) <= contracts.Keys && old(newBars) <= orthBars
      ensures flow == Normal && old(newBars) != {} ==>
        row.Some? && exists s :: s in old(newBars) && s in instructions && row.value == instructions[s]
    {
      SamplePrices(w.lasts);
      assert Valid();
      flow := HandleNewBars();
    }

    /** Lines 412-605: the entries, then the stop exits and the global state. */
    method Trade(w: World) returns (flow: Flow, ghost outcomes: map<string, EntryOutcome>)
      requires Valid() && globalState != Init && contracts.Keys <= previousLast.Keys
      modifies this`tradingStates, this`sizes, this`stopTrades, this`globalState
      ensures Valid()
      ensures old(globalState) != Active ==> outcomes == map[]
      ensures outcomes.Keys <= contracts.Keys
      ensures sizes == SizesAfterAll(old(sizes), outcomes)
      ensures flow == Raised ==>
        globalState == old(globalState)
        && tradingStates == StatesAfterAll(old(tradingStates), outcomes) && stopTrades == StopsAfterAll(old(stopTrades), outcomes)
      ensures flow != Raised ==>
        globalState == NextGlobal(old(globalState), w.Now(), marketOpen.value, marketClose.value)
        && tradingStates == StatesStopped(old(globalState), StatesAfterAll(old(tradingStates), outcomes),
                                          StopsAfterAll(old(stopTrades), outcomes), sizes, w.filled, {})
        && stopTrades == StopsStopped(old(globalState), StatesAfterAll(old(tradingStates), outcomes),
                                      StopsAfterAll(old(stopTrades), outcomes), sizes, w.filled, {})
      ensures flow == Exited <==> globalState == Done && old(globalState) != Done
    {
      var now, tag := w.Now(), OrderTag(account, Market.ReferenceStamp(w.clock));
      var placed;
      flow, placed, outcomes := EntryPhase(now, tag, w.market);
      if flow != Normal {
        return;
      }
      flow := Settle(w.filled, now);
    }

    /** Lines 577-605: the stop exits, then the global state. */
    method Settle(filled: map<string, int>, now: int) returns (flow: Flow)
      requires Valid() && globalState != Init
      modifies this`tradingStates, this`stopTrades, this`globalState
      ensures Valid()
      ensures tradingStates == StatesStopped(old(globalState), old(tradingStates), old(stopTrades), sizes, filled, {})
      ensures stopTrades == StopsStopped(old(globalState), old(tradingStates), old(stopTrades), sizes, filled, {})
      ensures globalState == NextGlobal(old(globalState), now, marketOpen.value, marketClose.value)
      ensures flow != Raised && (flow == Exited <==> globalState == Done && old(globalState) != Done)
    {
      StopPhase(filled);
      assert Valid();
      flow := AdvanceGlobal(now);
    }

    /** Lines 236-363: connect, settle the session times, and take in the instructions. */
    method Ready(w: World) returns (flow: Flow)
      requires Valid()
      modifies this`connected, this`account, this`alive, this`marketOpen, this`marketClose, this`globalState,
               this`sheetVersion, this`instructions, this`row, this`details, this`rules, this`dailyBars, this`tickers,
               this`orthBars, this`tradingStates, this`contracts, this`currentLast, this`nExceptions
      ensures Valid() && flow != Exited
      ensures nExceptions >= old(nExceptions)
      ensures old(globalState) != Init ==>
        globalState == old(globalState) && marketOpen == old(marketOpen) && marketClose == old(marketClose)
      ensures old(globalState) == Init ==> globalState == Init || globalState == WaitMarketOpen
      ensures flow == Normal ==> globalState != Init
    {
      flow := Open(w);
      if flow != Normal {
        return;
      }
      flow := Reread(w);
    }

    /** Lines 365-410: the streams, the fills, the prices and the new bars. */
    method Watch(w: World) returns (flow: Flow)
      requires Valid()
      modifies this`tickers, this`dailyBars, this`orthBars, this`seenCommissions, this`commissions,
               this`previousLast, this`currentLast, this`newBars, this`row
      ensures Valid() && flow != Exited
      ensures flow == Normal ==> contracts.Keys <= previousLast.Keys
    {
      flow := Refeed(w);
      if flow != Normal {
        return;
      }
      flow := Sample(w);
    }

    /**
     * Lines 235-612: one pass of the body of the trading loop, with `w`
     * giving what the broker, the clock and the file system answer.  A phase
     * that raises ends the pass; reaching DONE ends the program.
     */
    method Iterate(w: World) returns (flow: Flow)
      requires Valid()
      modifies this
      ensures Valid()
      ensures Rank(old(globalState)) <= Rank(globalState)
      ensures flow == Exited <==> globalState == Done && old(globalState) != Done
      ensures flow == Normal && old(globalState) != Init ==>
        globalState == NextGlobal(old(globalState), w.Now(), marketOpen.value, marketClose.value)
      ensures nExceptions >= old(nExceptions)
    {
      flow := Ready(w);
      if flow != Normal {
        return;
      }
      flow := Watch(w);
      if flow != Normal {
        return;
      }
      NextGlobalForward(globalState, w.Now(), marketOpen.value, marketClose.value);
      ghost var outcomes;
      flow, outcomes := Trade(w);
    }

    /**
     * One turn of `while c.alive`: the body, and after an unexpected
     * exception the recovery of lines 614-649.  `Raised` means the exception
     * leaves the program; `Exited` that the program ended at the close;
     * `recovered` that an exception was counted and the loop goes on.
     */
    method Step(w: World) returns (flow: Flow, recovered: bool)
      requires Valid()
      modifies this
      ensures Valid()
      ensures Rank(old(globalState)) <= Rank(globalState)
      ensures flow == Exited <==> globalState == Done && old(globalState) != Done
      ensures flow == Raised ==> Reraises(failFast, nExceptions, alive)
      ensures nExceptions >= old(nExceptions) + (if recovered then 1 else 0)
      ensures recovered ==> flow == Normal && nExceptions <= MaxExceptions + 1
    {
      recovered := false;
      flow := Iterate(w);
      if flow == Raised {
        var reraise := Recover();
        flow := if reraise then Raised else Normal;
        recovered := !reraise;
      }
    }

    /**
     * Lines 234-649: `while c.alive`, one turn per world in `worlds`.  Each
     * recovered exception counts one more, and an exception past
     * `MaxExceptions` re-raises, so at most `MaxExceptions + 1 - nExceptions`
     * turns recover.
     */
    method Run(worlds: seq<World>) returns (flow: Flow, turns: nat, recoveries: nat)
      requires Valid()
      modifies this
      ensures Valid()
      ensures turns <= |worlds| && recoveries <= turns
      ensures flow == Normal ==> !alive || turns == |worlds|
      ensures flow == Raised ==> Reraises(failFast, nExceptions, alive)
      ensures flow == Exited ==> globalState == Done
      ensures old(nExceptions) + recoveries <= nExceptions
      ensures recoveries > 0 ==> old(nExceptions) + recoveries <= MaxExceptions + 1
      ensures Rank(old(globalState)) <= Rank(globalState)
    {
      flow, turns, recoveries := Normal, 0, 0;
      while turns < |worlds| && alive && flow == Normal
        invariant Valid()
        invariant turns <= |worlds| && recoveries <= turns
        invariant flow == Raised ==> Reraises(failFast, nExceptions, alive)
        invariant flow == Exited ==> globalState == Done
        invariant old(nExceptions) + recoveries <= nExceptions
        invariant recoveries > 0 ==> old(nExceptions) + recoveries <= MaxExceptions + 1
        invariant Rank(old(globalState)) <= Rank(globalState)
        decreases |worlds| - turns
      {
        var recovered;
        flow, recovered := Step(worlds[turns]);
        turns := turns + 1;
        if recovered {
          recoveries := recoveries + 1;
        }
      }
    }
  }
}
