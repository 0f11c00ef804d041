/** The HitAndRun playbook (neobabix/playbooks/hitandrun.py): it enters at
    market and brackets the position at fixed percentages of the entry price,
    a take-profit limit order and a stop order whose limit sits STOP_LIMIT_DIFF
    further out, all prices truncated to PRICE_DECIMAL_PLACES. */
module HitAndRun {
  import opened Common
  import opened Precision
  import opened Playbooks

  // ---------------------------------------------------------------------------
  // Configuration

  /** The validated environment. PRICE_DECIMAL_PLACES is kept as the text it was
      configured as, the form in which exit() hands it to the exchange. */
  datatype HitConfig = HitConfig(takeProfit: real, stopPercent: real, modalDuid: string, decimals: string, stopLimitDiff: real)

  /** A required environment variable: missing or empty raises NotImplementedError. */
  function Required(v: Option<string>, name: string): (r: Result<string>)
    ensures r.Ok? <==> v.Some? && v.value != ""
    ensures r.Ok? ==> r.value == v.value
    ensures r.Err? ==> r.error == NotImplementedError("Required env var " + name + " must be set")
  {
    if v.None? || v.value == "" then Err(NotImplementedError("Required env var " + name + " must be set")) else Ok(v.value)
  }

  /** The constructor's checks, in source order: each variable must be set and
      non-empty, and the three numeric ones are read with float() as soon as they pass. */
  function HitSettings(takeProfit: Option<string>, stopPercent: Option<string>, modalDuid: Option<string>,
                       decimals: Option<string>, stopLimitDiff: Option<string>): (r: Result<HitConfig>)
    ensures r.Ok? <==>
      Required(takeProfit, "TAKE_PROFIT_IN_PERCENT").Ok? && PyFloat(takeProfit.value).Ok? &&
      Required(stopPercent, "STOP_IN_PERCENT").Ok? && PyFloat(stopPercent.value).Ok? &&
      Required(modalDuid, "MODAL_DUID").Ok? && Required(decimals, "PRICE_DECIMAL_PLACES").Ok? &&
      Required(stopLimitDiff, "STOP_LIMIT_DIFF").Ok? && PyFloat(stopLimitDiff.value).Ok?
    ensures r.Ok? ==> r.value == HitConfig(PyFloat(takeProfit.value).value, PyFloat(stopPercent.value).value,
                                           modalDuid.value, decimals.value, PyFloat(stopLimitDiff.value).value)
    ensures r.Err? ==> r.error == ValueError || r.error.NotImplementedError?
  {
    var tpText :- Required(takeProfit, "TAKE_PROFIT_IN_PERCENT");
    var tp :- PyFloat(tpText);
    var stopText :- Required(stopPercent, "STOP_IN_PERCENT");
    var stop :- PyFloat(stopText);
    var duid :- Required(modalDuid, "MODAL_DUID");
    var places :- Required(decimals, "PRICE_DECIMAL_PLACES");
    var diffText :- Required(stopLimitDiff, "STOP_LIMIT_DIFF");
    var diff :- PyFloat(diffText);
    Ok(HitConfig(tp, stop, duid, places, diff))
  }

  /** Any of the five variables missing or empty makes construction raise. */
  lemma HitSettingsNeedsAll(takeProfit: Option<string>, stopPercent: Option<string>, modalDuid: Option<string>,
                            decimals: Option<string>, stopLimitDiff: Option<string>)
    requires exists v :: v in [takeProfit, stopPercent, modalDuid, decimals, stopLimitDiff] && (v.None? || v.value == "")
    ensures HitSettings(takeProfit, stopPercent, modalDuid, decimals, stopLimitDiff).Err?
  {
  }

  /** Whole-number settings written in decimal are read back as configured. */
  lemma HitSettingsAccepts(tp: int, stop: int, duid: string, places: string, diff: int)
    requires duid != "" && places != ""
    ensures HitSettings(Some(IntToString(tp)), Some(IntToString(stop)), Some(duid), Some(places), Some(IntToString(diff))) ==
      Ok(HitConfig(tp as real, stop as real, duid, places, diff as real))
  {
    ParseDecimalOfInt(tp);
    ParseDecimalOfInt(stop);
    ParseDecimalOfInt(diff);
  }

  // ---------------------------------------------------------------------------
  // Bracket prices

  /** entry * (pct + 100) / 100: the entry price raised by pct percent. */
  function Raised(entry: real, pct: real): real { entry * (pct + 100.0) / 100.0 }

  /** entry * (100 - pct) / 100: the entry price lowered by pct percent. */
  function Lowered(entry: real, pct: real): real { entry * (100.0 - pct) / 100.0 }

  lemma PercentMoves(entry: real, pct: real)
    requires entry > 0.0 && pct > 0.0
    ensures Raised(entry, pct) > entry && Lowered(entry, pct) < entry
  {
    assert Raised(entry, pct) == entry + entry * pct / 100.0;
    assert Lowered(entry, pct) == entry - entry * pct / 100.0;
    assert entry * pct > 0.0;
  }

  /** The three prices of a bracket: take-profit, stop trigger and the stop's limit. */
  datatype Bracket = Bracket(exit: real, stop: real, stopLimit: real)

  /** The LONG bracket: take profit tp percent above the entry, stop stop% below
      it, the stop's sell limit STOP_LIMIT_DIFF below the untruncated stop. */
  function LongBracket(entry: real, tp: real, stopPct: real, diff: real, p: int): Bracket
  {
    var stop := Lowered(entry, stopPct);
    Bracket(Trunc(Raised(entry, tp), p), Trunc(stop, p), Trunc(stop - diff, p))
  }

  /** The SHORT bracket as written: take profit tp percent below the entry, and
      the stop tp percent above it, computed from TAKE_PROFIT_IN_PERCENT;
      STOP_IN_PERCENT plays no part. The stop's buy limit is STOP_LIMIT_DIFF
      above the untruncated stop. */
  function ShortBracket(entry: real, tp: real, stopPct: real, diff: real, p: int): Bracket
  {
    var stop := Raised(entry, tp);
    Bracket(Trunc(Lowered(entry, tp), p), Trunc(stop, p), Trunc(stop + diff, p))
  }

  /** A price below a positive entry stays below it once truncated. */
  lemma TruncBelow(x: real, entry: real, p: int)
    requires x < entry && entry > 0.0
    ensures Trunc(x, p) < entry
  {
    if x >= 0.0 {
      TruncBounds(x, p);
    } else {
      TruncBoundsNegative(x, p);
    }
  }

  /** A price at or above an entry on the grid stays at or above it once truncated. */
  lemma TruncAtLeast(x: real, entry: real, p: int)
    requires entry <= x && OnGrid(entry, p)
    ensures Trunc(x, p) >= entry
  {
    TruncMonotone(entry, x, p);
    TruncOnGridPrice(entry, p);
  }

  /** For a positive entry and positive percentages the LONG take-profit is
      above the entry before truncation and, for an entry on the price grid, also
      after it; the stop is below the entry; a non-negative STOP_LIMIT_DIFF puts
      the stop's limit at or below the stop. */
  lemma LongBracketSides(entry: real, tp: real, stopPct: real, diff: real, p: int)
    requires entry > 0.0 && tp > 0.0 && stopPct > 0.0
    ensures Raised(entry, tp) > entry && Lowered(entry, stopPct) < entry
    ensures OnGrid(entry, p) ==> LongBracket(entry, tp, stopPct, diff, p).exit >= entry
    ensures LongBracket(entry, tp, stopPct, diff, p).stop < entry
    ensures diff >= 0.0 ==> LongBracket(entry, tp, stopPct, diff, p).stopLimit <= LongBracket(entry, tp, stopPct, diff, p).stop
  {
    PercentMoves(entry, tp);
    PercentMoves(entry, stopPct);
    var b := LongBracket(entry, tp, stopPct, diff, p);
    var x, stop := Raised(entry, tp), Lowered(entry, stopPct);
    assert b == Bracket(Trunc(x, p), Trunc(stop, p), Trunc(stop - diff, p));
    if OnGrid(entry, p) {
      TruncAtLeast(x, entry, p);
    }
    TruncBelow(stop, entry, p);
    if diff >= 0.0 {
      TruncMonotone(stop - diff, stop, p);
    }
  }

  /** For a positive entry and take-profit the SHORT take-profit is below the
      entry, the stop above it before truncation and, for an entry on the grid,
      at or above it after; a non-negative STOP_LIMIT_DIFF puts the stop's limit
      at or above the stop. */
  lemma ShortBracketSides(entry: real, tp: real, stopPct: real, diff: real, p: int)
    requires entry > 0.0 && tp > 0.0
    ensures Lowered(entry, tp) < entry && Raised(entry, tp) > entry
    ensures ShortBracket(entry, tp, stopPct, diff, p).exit < entry
    ensures OnGrid(entry, p) ==> ShortBracket(entry, tp, stopPct, diff, p).stop >= entry
    ensures diff >= 0.0 ==> ShortBracket(entry, tp, stopPct, diff, p).stopLimit >= ShortBracket(entry, tp, stopPct, diff, p).stop
  {
    PercentMoves(entry, tp);
    var b := ShortBracket(entry, tp, stopPct, diff, p);
    var x, stop := Lowered(entry, tp), Raised(entry, tp);
    assert b == Bracket(Trunc(x, p), Trunc(stop, p), Trunc(stop + diff, p));
    TruncBelow(x, entry, p);
    if OnGrid(entry, p) {
      TruncAtLeast(stop, entry, p);
    }
    if diff >= 0.0 {
      TruncMonotone(stop, stop + diff, p);
    }
  }

  /** The SHORT stop is placed where a LONG with the same settings would take profit, whatever STOP_IN_PERCENT says. */
  lemma ShortStopUsesTakeProfit(entry: real, tp: real, stopPct: real, otherStopPct: real, diff: real, p: int)
    ensures ShortBracket(entry, tp, stopPct, diff, p) == ShortBracket(entry, tp, otherStopPct, diff, p)
    ensures ShortBracket(entry, tp, stopPct, diff, p).stop == LongBracket(entry, tp, stopPct, diff, p).exit
  {
  }

  /** The orders exit() places for an entry order: both for the amount the entry
      order filled, take-profit first. A LONG sells and a SHORT buys; without a
      side nothing is placed. The stop order is given no base price.
      hitandrun.py passes the PRICE_DECIMAL_PLACES text to decimal_to_precision
      unchanged. The model reads that text as the integer it denotes and treats
      any other text as a ValueError; what ccxt does with a text precision is not
      modelled. */
  function HitBracketOrders(action: Action, symbol: string, entry: Option<Order>, config: HitConfig): Result<seq<Event>>
  {
    if action == Nothing then Ok([])
    else if entry.None? then Err(NoAttribute("HitAndRun", "order_entry"))
    else if entry.value.price.None? then Err(DecimalOfNone)
    else if ParseInt(config.decimals).None? then Err(ValueError)
    else
      var price, p := entry.value.price.value, ParseInt(config.decimals).value;
      var amount := OptionValue(entry.value.filled);
      if action == Long then
        var b := LongBracket(price, config.takeProfit, config.stopPercent, config.stopLimitDiff, p);
        Ok([LimitSell(symbol, amount, Num(b.exit)), StopSell(symbol, amount, Num(b.stop), Num(b.stopLimit), NoneValue)])
      else
        var b := ShortBracket(price, config.takeProfit, config.stopPercent, config.stopLimitDiff, p);
        Ok([LimitBuy(symbol, amount, Num(b.exit)), StopBuy(symbol, amount, Num(b.stop), Num(b.stopLimit), NoneValue)])
  }

  /** With a side and a priced entry order, exit() places exactly two orders,
      take-profit then stop, both for the entry order's filled amount, at the
      bracket prices of the entry price. */
  lemma HitBracketOrdersShape(action: Action, symbol: string, entry: Order, config: HitConfig, p: int)
    requires action != Nothing && entry.price.Some? && ParseInt(config.decimals) == Some(p)
    ensures var r := HitBracketOrders(action, symbol, Some(entry), config);
      var b := if action == Long
        then LongBracket(entry.price.value, config.takeProfit, config.stopPercent, config.stopLimitDiff, p)
        else ShortBracket(entry.price.value, config.takeProfit, config.stopPercent, config.stopLimitDiff, p);
      r.Ok? && |r.value| == 2 && Placements(r.value) == 2 &&
      r.value[0].amount == OptionValue(entry.filled) && r.value[1].amount == OptionValue(entry.filled) &&
      r.value[0].price == Num(b.exit) && r.value[1].stopPrice == Num(b.stop) && r.value[1].limitPrice == Num(b.stopLimit) &&
      (action == Long <==> r.value[0].LimitSell? && r.value[1].StopSell?) &&
      (action == Short ==> r.value[0].LimitBuy? && r.value[1].StopBuy?)
  {
    var r := HitBracketOrders(action, symbol, Some(entry), config).value;
    assert r[..1][..0] == [];
    assert r[..|r| - 1] == [r[0]];
  }

  /** Without a side exit() places nothing; otherwise a never-assigned entry
      order and an entry order without a price each raise before any order is
      placed. The ValueError for PRICE_DECIMAL_PLACES text that is not an integer
      is the model's reading of that text (see HitBracketOrders). */
  lemma HitBracketOrdersFailures(action: Action, symbol: string, entry: Option<Order>, config: HitConfig)
    ensures action == Nothing ==> HitBracketOrders(action, symbol, entry, config) == Ok([])
    ensures action != Nothing && entry.None? ==>
      HitBracketOrders(action, symbol, entry, config) == Err(NoAttribute("HitAndRun", "order_entry"))
    ensures action != Nothing && entry.Some? && entry.value.price.None? ==>
      HitBracketOrders(action, symbol, entry, config) == Err(DecimalOfNone)
    ensures action != Nothing && entry.Some? && entry.value.price.Some? && ParseInt(config.decimals).None? ==>
      HitBracketOrders(action, symbol, entry, config) == Err(ValueError)
  {
  }

  // ---------------------------------------------------------------------------
  // The playbook object

  class HitAndRun {
    const base: Playbook
    const action: Action
    const config: HitConfig
    const leverage: Option<int>
    var orderEntry: Option<Order>
    var orderExit: Option<Order>
    var orderStop: Option<Order>

    constructor (base: Playbook, action: Action, config: HitConfig, leverage: Option<int>)
      ensures this.base == base && this.action == action && this.config == config && this.leverage == leverage
      ensures orderEntry.None? && orderExit.None? && orderStop.None?
    {
      this.base := base;
      this.action := action;
      this.config := config;
      this.leverage := leverage;
      orderEntry, orderExit, orderStop := None, None, None;
    }

    /** __init__: the playbook base takes the trade lock, then the environment is
        checked; a failed check leaves the lock taken. */
    static method Build(action: Action, lock: TradeLock, symbol: string, timeframe: string, recursive: bool,
                        marketOrders: bool, leverage: Option<int>,
                        takeProfit: Option<string>, stopPercent: Option<string>, modalDuid: Option<string>,
                        decimals: Option<string>, stopLimitDiff: Option<string>)
      returns (r: Result<HitAndRun>)
      modifies lock
      ensures lock.locked
      ensures var c := HitSettings(takeProfit, stopPercent, modalDuid, decimals, stopLimitDiff);
        (c.Err? ==> r == Err(c.error)) &&
        (c.Ok? ==> (r.Ok? && fresh(r.value) && fresh(r.value.base) && r.value.config == c.value && r.value.action == action &&
          r.value.base.lock == lock && r.value.base.symbol == symbol && r.value.base.marketOrders == marketOrders &&
          r.value.base.recursive == recursive && r.value.base.trace == (if old(lock.locked) then [] else [LockAcquired]) &&
          r.value.orderEntry.None?))
    {
      var base := new Playbook(lock, symbol, timeframe, recursive, marketOrders);
      var c := HitSettings(takeProfit, stopPercent, modalDuid, decimals, stopLimitDiff);
      if c.Err? {
        return Err(c.error);
      }
      var h := new HitAndRun(base, action, c.value, leverage);
      r := Ok(h);
    }

    function Amount(): Value
    {
      Text(config.modalDuid)
    }

    /** entry(): the market entry for MODAL_DUID (Playbook.OpenPosition). */
    method Entry(fill: Order) returns (o: Outcome)
      modifies this, base
      ensures base.trace == old(base.trace) + (if leverage.Some? then [LeverageSet(leverage.value)] else []) +
        (match action
         case Long => if base.marketOrders then [MarketBuy(base.symbol, Amount())] else []
         case Short => [MarketSell(base.symbol, Amount())]
         case Nothing => [])
      ensures o == if action == Long && !base.marketOrders
        then Fail(AttributeError("The selected exchange does not support market orders")) else Pass
      ensures orderEntry == if action == Short || (action == Long && base.marketOrders) then Some(fill) else old(orderEntry)
      ensures orderExit == old(orderExit) && orderStop == old(orderStop)
    {
      var entry;
      o, entry := base.OpenPosition(action, leverage, Amount(), fill);
      if entry.Some? {
        orderEntry := entry;
      }
    }

    /** after_entry(): the entry notification with MODAL_DUID (Playbook.AnnounceEntry). */
    method AfterEntry() returns (o: Outcome)
      modifies base
      ensures orderEntry.None? ==> o == Fail(NoAttribute("HitAndRun", "order_entry")) && base.trace == old(base.trace)
      ensures orderEntry.Some? ==> o == Pass && base.trace == old(base.trace) + [EntryNotice(OptionValue(orderEntry.value.price), Amount())]
    {
      o := base.AnnounceEntry(orderEntry, Amount(), NoAttribute("HitAndRun", "order_entry"));
    }

    /** exit(): the two bracket orders of HitBracketOrders; the replies become the exit and stop orders. */
    method Exit(exitReply: Order, stopReply: Order) returns (o: Outcome)
      modifies this, base
      ensures orderEntry == old(orderEntry)
      ensures var r := HitBracketOrders(action, base.symbol, orderEntry, config);
        (r.Err? ==> o == Fail(r.error) && base.trace == old(base.trace) && orderExit == old(orderExit) && orderStop == old(orderStop)) &&
        (r.Ok? ==> o == Pass && base.trace == old(base.trace) + r.value) &&
        (r.Ok? && action != Nothing ==> orderExit == Some(exitReply) && orderStop == Some(stopReply)) &&
        (action == Nothing ==> orderExit == old(orderExit) && orderStop == old(orderStop))
    {
      if action == Nothing {
        return Pass;
      }
      if orderEntry.None? {
        return Fail(NoAttribute("HitAndRun", "order_entry"));
      }
      var entry := orderEntry.value;
      if entry.price.None? {
        return Fail(DecimalOfNone);
      }
      var places := ParseInt(config.decimals);
      if places.None? {
        return Fail(ValueError);
      }
      var amount := OptionValue(entry.filled);
      if action == Long {
        var b := LongBracket(entry.price.value, config.takeProfit, config.stopPercent, config.stopLimitDiff, places.value);
        var e := base.LimitSellOrder(amount, Num(b.exit), exitReply);
        orderExit := Some(e);
        var s := base.LimitStopSellOrder(amount, Num(b.stop), Num(b.stopLimit), NoneValue, stopReply);
        orderStop := Some(s);
      } else {
        var b := ShortBracket(entry.price.value, config.takeProfit, config.stopPercent, config.stopLimitDiff, places.value);
        var e := base.LimitBuyOrder(amount, Num(b.exit), exitReply);
        orderExit := Some(e);
        var s := base.LimitStopBuyOrder(amount, Num(b.stop), Num(b.stopLimit), NoneValue, stopReply);
        orderStop := Some(s);
      }
      o := Pass;
    }

    /** The first half of play(): the entry and after_entry hooks. */
    method PlayEntry(fill: Order) returns (o: Outcome)
      modifies this, base
      ensures orderExit == old(orderExit) && orderStop == old(orderStop)
      ensures action == Long && !base.marketOrders ==>
        o == Fail(AttributeError("The selected exchange does not support market orders")) &&
        base.trace == old(base.trace) + [HookStarted(EntryHook)] + (if leverage.Some? then [LeverageSet(leverage.value)] else [])
      ensures action == Nothing && old(orderEntry).None? ==> o == Fail(NoAttribute("HitAndRun", "order_entry"))
      ensures action == Short || (action == Long && base.marketOrders) ==>
        o == Pass && orderEntry == Some(fill) &&
        base.trace == old(base.trace) + [HookStarted(EntryHook)] + (if leverage.Some? then [LeverageSet(leverage.value)] else []) +
          [if action == Long then MarketBuy(base.symbol, Amount()) else MarketSell(base.symbol, Amount())] +
          [HookStarted(AfterEntryHook), EntryNotice(OptionValue(fill.price), Amount())]
    {
      var _ := base.StartHook(EntryHook, None);
      o := Entry(fill);
      if o.Fail? {
        return;
      }
      var _ := base.StartHook(AfterEntryHook, None);
      o := AfterEntry();
    }

    /** The second half of play(): the exit and after_exit hooks, then the lock release. */
    method PlayExit(exitReply: Order, stopReply: Order) returns (o: Outcome)
      modifies this, base, base.lock
      ensures orderEntry == old(orderEntry)
      ensures action != Nothing && HitBracketOrders(action, base.symbol, orderEntry, config).Err? ==>
        o == Fail(HitBracketOrders(action, base.symbol, orderEntry, config).error) && base.lock.locked == old(base.lock.locked)
      ensures action != Nothing && HitBracketOrders(action, base.symbol, orderEntry, config).Ok? ==>
        orderEntry.Some? &&
        base.trace == old(base.trace) + [HookStarted(ExitHook)] + HitBracketOrders(action, base.symbol, orderEntry, config).value +
          [HookStarted(AfterExitHook),
           ExitNotice(OptionValue(orderEntry.value.price), OptionValue(exitReply.price), OptionValue(stopReply.price), Amount(), false, NoPnl)] +
          (if !base.recursive && old(base.lock.locked) then [LockReleased] else []) &&
        o == (if base.recursive || old(base.lock.locked) then Pass else Fail(RuntimeError("Lock is not acquired."))) &&
        orderExit == Some(exitReply) && orderStop == Some(stopReply) &&
        base.lock.locked == (base.recursive && old(base.lock.locked))
    {
      var _ := base.StartHook(ExitHook, None);
      o := Exit(exitReply, stopReply);
      if o.Fail? {
        return;
      }
      if action != Nothing {
        assert orderEntry.Some?;
      }
      var _ := base.StartHook(AfterExitHook, None);
      o := AfterExit();
      if o.Fail? {
        return;
      }
      o := base.Finish();
    }

    /** play() with HitAndRun's own hooks. A LONG entry without market orders
        raises at once; a NOTHING trade without an entry order raises in
        after_entry; a bracket that cannot be priced raises in exit. In each case
        the lock stays as it was. A completed run places the market entry, announces
        the fill, places the bracket priced from the fill, announces the
        unsettled exit and releases the lock unless the playbook is recursive. */
    method Play(fill: Order, exitReply: Order, stopReply: Order) returns (o: Outcome)
      modifies this, base, base.lock
      ensures action == Long && !base.marketOrders ==>
        o == Fail(AttributeError("The selected exchange does not support market orders")) &&
        base.trace == old(base.trace) + [HookStarted(EntryHook)] + (if leverage.Some? then [LeverageSet(leverage.value)] else []) &&
        base.lock.locked == old(base.lock.locked)
      ensures action == Nothing && old(orderEntry).None? ==>
        o == Fail(NoAttribute("HitAndRun", "order_entry")) && base.lock.locked == old(base.lock.locked)
      ensures (action == Short || (action == Long && base.marketOrders)) && HitBracketOrders(action, base.symbol, Some(fill), config).Err? ==>
        o == Fail(HitBracketOrders(action, base.symbol, Some(fill), config).error) && base.lock.locked == old(base.lock.locked)
      ensures (action == Short || (action == Long && base.marketOrders)) && HitBracketOrders(action, base.symbol, Some(fill), config).Ok? ==>
        base.trace == old(base.trace) + [HookStarted(EntryHook)] + (if leverage.Some? then [LeverageSet(leverage.value)] else []) +
          [if action == Long then MarketBuy(base.symbol, Amount()) else MarketSell(base.symbol, Amount())] +
          [HookStarted(AfterEntryHook), EntryNotice(OptionValue(fill.price), Amount())] +
          [HookStarted(ExitHook)] + HitBracketOrders(action, base.symbol, Some(fill), config).value +
          [HookStarted(AfterExitHook),
           ExitNotice(OptionValue(fill.price), OptionValue(exitReply.price), OptionValue(stopReply.price), Amount(), false, NoPnl)] +
          (if !base.recursive && old(base.lock.locked) then [LockReleased] else []) &&
        o == (if base.recursive || old(base.lock.locked) then Pass else Fail(RuntimeError("Lock is not acquired."))) &&
        orderEntry == Some(fill) && orderExit == Some(exitReply) && orderStop == Some(stopReply) &&
        base.lock.locked == (base.recursive && old(base.lock.locked))
    {
      o := PlayEntry(fill);
      if o.Fail? {
        return;
      }
      o := PlayExit(exitReply, stopReply);
    }

    /** after_exit(): exactly one exit notification, unsettled and without pnl,
        carrying the prices the exchange reported for the three orders; no
        polling and no cancellation. The orders are read in the order of the
        notification's arguments, and the first never assigned raises. */
    method AfterExit() returns (o: Outcome)
      modifies base
      ensures orderEntry.Some? && orderExit.Some? && orderStop.Some? ==> (o == Pass &&
        base.trace == old(base.trace) + [ExitNotice(OptionValue(orderEntry.value.price), OptionValue(orderExit.value.price),
                                                     OptionValue(orderStop.value.price), Amount(), false, NoPnl)])
      ensures !(orderEntry.Some? && orderExit.Some? && orderStop.Some?) ==> (base.trace == old(base.trace) &&
        o == Fail(NoAttribute("HitAndRun", if orderEntry.None? then "order_entry" else if orderExit.None? then "order_exit" else "order_stop")))
    {
      if orderEntry.None? {
        return Fail(NoAttribute("HitAndRun", "order_entry"));
      }
      if orderExit.None? {
        return Fail(NoAttribute("HitAndRun", "order_exit"));
      }
      if orderStop.None? {
        return Fail(NoAttribute("HitAndRun", "order_stop"));
      }
      base.Notify(ExitNotice(OptionValue(orderEntry.value.price), OptionValue(orderExit.value.price),
                             OptionValue(orderStop.value.price), Amount(), false, NoPnl));
      o := Pass;
    }
  }
}
