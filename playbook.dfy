/** The playbook base (neobabix/playbooks/playbook.py): the trade lock it takes
    when it is built, the fixed order in which play() runs the four hooks, the
    release of the lock afterwards, and the order helpers every playbook uses.
    Every effect on a collaborator (the lock, the exchange, the notification
    channel) is appended to the playbook's trace, so that order and number of
    effects can be stated. */
module Playbooks {
  import opened Common

  /** The process-wide asyncio.Lock that app.py creates and every playbook shares. */
  class TradeLock {
    var locked: bool

    constructor ()
      ensures !locked
    {
      locked := false;
    }
  }

  /** The four abstract hooks of a playbook, in the order play() runs them. */
  datatype Hook = EntryHook | AfterEntryHook | ExitHook | AfterExitHook

  /** A hook that raises, and what it raises. */
  datatype HookFailure = HookFailure(hook: Hook, error: Error)

  /** An order as the exchange reports it: its id, price, filled amount and status. */
  datatype Order = Order(id: string, price: Option<real>, filled: Option<real>, status: string)

  /** The pnl_in_percent field of an exit notification: absent, 'n/a', or a percentage. */
  datatype Pnl = NoPnl | NotApplicable | Percent(pct: real)

  /** An effect of a playbook on one of its collaborators. */
  datatype Event =
    | LockAcquired
    | LockReleased
    | HookStarted(hook: Hook)
    | LeverageSet(leverage: int)
    | MarketBuy(symbol: string, amount: Value)
    | MarketSell(symbol: string, amount: Value)
    | LimitBuy(symbol: string, amount: Value, price: Value)
    | LimitSell(symbol: string, amount: Value, price: Value)
    | StopBuy(symbol: string, amount: Value, stopPrice: Value, limitPrice: Value, basePrice: Value)
    | StopSell(symbol: string, amount: Value, stopPrice: Value, limitPrice: Value, basePrice: Value)
    | Cancelled(orderId: string)
    | EntryNotice(entryPrice: Value, amount: Value)
    | ExitNotice(entryPrice: Value, exitPrice: Value, stopPrice: Value, amount: Value, settled: bool, pnl: Pnl)

  /** Events that place an order at the exchange. */
  predicate IsPlacement(e: Event)
  {
    e.MarketBuy? || e.MarketSell? || e.LimitBuy? || e.LimitSell? || e.StopBuy? || e.StopSell?
  }

  /** The number of orders a trace places. */
  function Placements(t: seq<Event>): (n: nat)
    ensures n <= |t|
    ensures n == 0 <==> forall i :: 0 <= i < |t| ==> !IsPlacement(t[i])
  {
    if t == [] then 0 else Placements(t[..|t| - 1]) + (if IsPlacement(t[|t| - 1]) then 1 else 0)
  }

  /** The ids of the orders a trace cancels, in order. */
  function Cancellations(t: seq<Event>): (ids: seq<string>)
    ensures |ids| <= |t|
    ensures (forall i :: 0 <= i < |t| ==> !t[i].Cancelled?) ==> ids == []
  {
    if t == [] then []
    else Cancellations(t[..|t| - 1]) + (if t[|t| - 1].Cancelled? then [t[|t| - 1].orderId] else [])
  }

  /** The number of times an event occurs in a trace. */
  function Occurrences(t: seq<Event>, e: Event): (n: nat)
    ensures n <= |t|
  {
    if t == [] then 0 else Occurrences(t[..|t| - 1], e) + (if t[|t| - 1] == e then 1 else 0)
  }

  lemma {:induction false} OccurrencesAppend(a: seq<Event>, b: seq<Event>, e: Event)
    ensures Occurrences(a + b, e) == Occurrences(a, e) + Occurrences(b, e)
  {
    if b != [] {
      assert (a + b)[..|a + b| - 1] == a + b[..|b| - 1];
      OccurrencesAppend(a, b[..|b| - 1], e);
    } else {
      assert a + b == a;
    }
  }

  /** The hook markers play() leaves when every hook returns. */
  function AllHooks(): seq<Event>
  {
    [HookStarted(EntryHook), HookStarted(AfterEntryHook), HookStarted(ExitHook), HookStarted(AfterExitHook)]
  }

  function HookIndex(h: Hook): (i: nat)
    ensures i < 4 && AllHooks()[i] == HookStarted(h)
  {
    match h
    case EntryHook => 0
    case AfterEntryHook => 1
    case ExitHook => 2
    case AfterExitHook => 3
  }

  /** The hooks that have started when play() stops: all four, or those up to the one that raised. */
  function HooksRun(failure: Option<HookFailure>): seq<Event>
  {
    match failure
    case None => AllHooks()
    case Some(f) => AllHooks()[..HookIndex(f.hook) + 1]
  }

  lemma {:induction false} OccurrencesInPrefix(k: nat, h: Hook)
    requires k <= 4
    ensures Occurrences(AllHooks()[..k], HookStarted(h)) == (if HookIndex(h) < k then 1 else 0)
  {
    if k > 0 {
      var pre := AllHooks()[..k];
      assert pre[..|pre| - 1] == AllHooks()[..k - 1];
      OccurrencesInPrefix(k - 1, h);
      assert pre[|pre| - 1] == HookStarted(h) <==> HookIndex(h) == k - 1;
    }
  }

  /** play() starts each hook exactly once, and a hook starts only after every earlier one. */
  lemma HooksRunOnceInOrder(failure: Option<HookFailure>, h: Hook)
    ensures Occurrences(HooksRun(failure), HookStarted(h)) == (if failure.None? || HookIndex(h) <= HookIndex(failure.value.hook) then 1 else 0)
    ensures forall i, j :: 0 <= i < j < |HooksRun(failure)| ==> HooksRun(failure)[i] != HooksRun(failure)[j]
  {
    var k := if failure.None? then 4 else HookIndex(failure.value.hook) + 1;
    assert HooksRun(failure) == AllHooks()[..k];
    OccurrencesInPrefix(k, h);
  }

  class Playbook {
    const lock: TradeLock
    const symbol: string
    const timeframe: string
    const recursive: bool
    /** Whether the exchange reports the createMarketOrder capability. */
    const marketOrders: bool
    var trace: seq<Event>

    /** Building a playbook takes the trade lock if, and only if, it is free.
        The source calls acquire() without awaiting it, so the coroutine never
        runs; the model follows the intent the comment at line 24 states. */
    constructor (lock: TradeLock, symbol: string, timeframe: string, recursive: bool, marketOrders: bool)
      modifies lock
      ensures this.lock == lock && this.symbol == symbol && this.timeframe == timeframe
      ensures this.recursive == recursive && this.marketOrders == marketOrders
      ensures lock.locked
      ensures trace == if old(lock.locked) then [] else [LockAcquired]
      ensures Placements(trace) == 0
    {
      this.lock := lock;
      this.symbol := symbol;
      this.timeframe := timeframe;
      this.recursive := recursive;
      this.marketOrders := marketOrders;
      trace := [];
      new;
      if !lock.locked {
        lock.locked := true;
        trace := [LockAcquired];
      }
    }

    /** release_trade_lock(): asyncio's release raises RuntimeError when the lock is not held. */
    method ReleaseTradeLock() returns (o: Outcome)
      modifies this, lock
      ensures !lock.locked
      ensures o == if old(lock.locked) then Pass else Fail(RuntimeError("Lock is not acquired."))
      ensures trace == old(trace) + (if old(lock.locked) then [LockReleased] else [])
    {
      if lock.locked {
        lock.locked := false;
        trace := trace + [LockReleased];
        o := Pass;
      } else {
        o := Fail(RuntimeError("Lock is not acquired."));
      }
    }

    /** The tail of play(): release the lock unless the playbook is recursive. */
    method Finish() returns (o: Outcome)
      modifies this, lock
      ensures recursive ==> o == Pass && lock.locked == old(lock.locked) && trace == old(trace)
      ensures !recursive ==> !lock.locked
      ensures !recursive ==> o == (if old(lock.locked) then Pass else Fail(RuntimeError("Lock is not acquired.")))
      ensures !recursive ==> trace == old(trace) + (if old(lock.locked) then [LockReleased] else [])
    {
      o := Pass;
      if !recursive {
        o := ReleaseTradeLock();
      }
    }

    /** Marks the start of a hook; reports whether this hook is the one that raises. */
    method StartHook(h: Hook, failure: Option<HookFailure>) returns (raised: bool)
      modifies this
      ensures trace == old(trace) + [HookStarted(h)]
      ensures raised == (failure.Some? && failure.value.hook == h)
    {
      trace := trace + [HookStarted(h)];
      raised := failure.Some? && failure.value.hook == h;
    }

    /** play() with the hooks left abstract, as playbook.py declares them: entry,
        after_entry, exit and after_exit run once each, in that order; then the
        lock is released unless the playbook is recursive. A hook that raises
        ends play() at once, so the later hooks never run and the lock stays as it was. */
    method Play(failure: Option<HookFailure>) returns (o: Outcome)
      modifies this, lock
      ensures failure.Some? ==> o == Fail(failure.value.error) && lock.locked == old(lock.locked)
      ensures failure.Some? || recursive ==> trace == old(trace) + HooksRun(failure)
      ensures failure.Some? || recursive ==> lock.locked == old(lock.locked)
      ensures failure.None? && !recursive ==> !lock.locked
      ensures failure.None? && !recursive ==>
        trace == old(trace) + AllHooks() + (if old(lock.locked) then [LockReleased] else [])
      ensures failure.None? ==> o == (if recursive || old(lock.locked) then Pass else Fail(RuntimeError("Lock is not acquired.")))
    {
      var raised := StartHook(EntryHook, failure);
      if raised { return Fail(failure.value.error); }
      raised := StartHook(AfterEntryHook, failure);
      if raised { return Fail(failure.value.error); }
      raised := StartHook(ExitHook, failure);
      if raised { return Fail(failure.value.error); }
      raised := StartHook(AfterExitHook, failure);
      if raised { return Fail(failure.value.error); }
      o := Finish();
    }

    /** market_buy_order(): refuses, placing nothing, when the exchange has no market orders. */
    method MarketBuyOrder(amount: Value, reply: Order) returns (r: Result<Order>)
      modifies this
      ensures marketOrders ==> r == Ok(reply) && trace == old(trace) + [MarketBuy(symbol, amount)]
      ensures !marketOrders ==> r == Err(AttributeError("The selected exchange does not support market orders"))
      ensures !marketOrders ==> trace == old(trace)
    {
      if !marketOrders {
        return Err(AttributeError("The selected exchange does not support market orders"));
      }
      trace := trace + [MarketBuy(symbol, amount)];
      r := Ok(reply);
    }

    /** limit_buy_order(): forwards symbol, amount and price; returns the exchange's order. */
    method LimitBuyOrder(amount: Value, price: Value, reply: Order) returns (o: Order)
      modifies this
      ensures o == reply && trace == old(trace) + [LimitBuy(symbol, amount, price)]
    {
      trace := trace + [LimitBuy(symbol, amount, price)];
      o := reply;
    }

    /** limit_sell_order(): forwards symbol, amount and price; returns the exchange's order. */
    method LimitSellOrder(amount: Value, price: Value, reply: Order) returns (o: Order)
      modifies this
      ensures o == reply && trace == old(trace) + [LimitSell(symbol, amount, price)]
    {
      trace := trace + [LimitSell(symbol, amount, price)];
      o := reply;
    }

    // The subclasses call the following exchange effects, which playbook.py
    // does not define; each is recorded with the arguments it is given.

    method MarketSellOrder(amount: Value, reply: Order) returns (o: Order)
      modifies this
      ensures o == reply && trace == old(trace) + [MarketSell(symbol, amount)]
    {
      trace := trace + [MarketSell(symbol, amount)];
      o := reply;
    }

    method LimitStopSellOrder(amount: Value, stopPrice: Value, limitPrice: Value, basePrice: Value, reply: Order)
      returns (o: Order)
      modifies this
      ensures o == reply && trace == old(trace) + [StopSell(symbol, amount, stopPrice, limitPrice, basePrice)]
    {
      trace := trace + [StopSell(symbol, amount, stopPrice, limitPrice, basePrice)];
      o := reply;
    }

    method LimitStopBuyOrder(amount: Value, stopPrice: Value, limitPrice: Value, basePrice: Value, reply: Order)
      returns (o: Order)
      modifies this
      ensures o == reply && trace == old(trace) + [StopBuy(symbol, amount, stopPrice, limitPrice, basePrice)]
    {
      trace := trace + [StopBuy(symbol, amount, stopPrice, limitPrice, basePrice)];
      o := reply;
    }

    method SetLeverage(leverage: int)
      modifies this
      ensures trace == old(trace) + [LeverageSet(leverage)]
    {
      trace := trace + [LeverageSet(leverage)];
    }

    method CancelOrder(id: string)
      modifies this
      ensures trace == old(trace) + [Cancelled(id)]
    {
      trace := trace + [Cancelled(id)];
    }

    /** The entry hook FractalismFibo and HitAndRun share: set the leverage when
        one is configured, then buy at market for a LONG or sell at market for a
        SHORT; without a side nothing is ordered. The order placed, if any, is returned. */
    method OpenPosition(action: Action, leverage: Option<int>, amount: Value, fill: Order) returns (o: Outcome, entry: Option<Order>)
      modifies this
      ensures trace == old(trace) + (if leverage.Some? then [LeverageSet(leverage.value)] else []) +
        (match action
         case Long => if marketOrders then [MarketBuy(symbol, amount)] else []
         case Short => [MarketSell(symbol, amount)]
         case Nothing => [])
      ensures o == if action == Long && !marketOrders
        then Fail(AttributeError("The selected exchange does not support market orders")) else Pass
      ensures entry == if action == Short || (action == Long && marketOrders) then Some(fill) else None
    {
      o, entry := Pass, None;
      if leverage.Some? {
        SetLeverage(leverage.value);
      }
      if action == Long {
        var r := MarketBuyOrder(amount, fill);
        if r.Err? {
          return Fail(r.error), None;
        }
        entry := Some(r.value);
      } else if action == Short {
        var order := MarketSellOrder(amount, fill);
        entry := Some(order);
      }
    }

    /** The after_entry hook FractalismFibo and HitAndRun share: one entry
        notification with the entry order's price and the amount; reading the
        price of an entry order that was never placed raises missing. */
    method AnnounceEntry(entry: Option<Order>, amount: Value, missing: Error) returns (o: Outcome)
      modifies this
      ensures entry.None? ==> o == Fail(missing) && trace == old(trace)
      ensures entry.Some? ==> o == Pass && trace == old(trace) + [EntryNotice(OptionValue(entry.value.price), amount)]
    {
      if entry.None? {
        return Fail(missing);
      }
      Notify(EntryNotice(OptionValue(entry.value.price), amount));
      o := Pass;
    }

    /** Hands a notification to the notification channel. */
    method Notify(e: Event)
      requires e.EntryNotice? || e.ExitNotice?
      modifies this
      ensures trace == old(trace) + [e]
    {
      trace := trace + [e];
    }
  }
}
