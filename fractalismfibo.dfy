/** The FractalismFibo playbook (neobabix/playbooks/fractalismfibo.py): it enters
    at market, takes profit at a Fibonacci level of the recent highs, places its
    stop at the last valid fractal, and settles the bracket once one side fills.
    The price properties are pure functions of the playbook's state; the hooks
    are methods that append their exchange and notification effects to the
    trace of the underlying playbook. */
module FractalismFibo {
  import opened Common
  import opened Precision
  import opened Playbooks
  import BillWilliams

  // ---------------------------------------------------------------------------
  // Configuration

  /** The validated environment: MODAL_DUID (kept as the text it is), PRICE_DECIMAL_PLACES, EXIT_LEVEL_UP. */
  datatype FiboConfig = FiboConfig(modalDuid: string, decimals: int, exitLevelUp: int)

  /** The constructor's checks, in source order. MODAL_DUID must be set and
      non-empty; PRICE_DECIMAL_PLACES must be an integer, and any integer,
      0 included, passes the check after it; EXIT_LEVEL_UP must be a non-zero integer. */
  function FiboSettings(modalDuid: Option<string>, decimals: Option<string>, exitLevelUp: Option<string>): (r: Result<FiboConfig>)
    ensures (modalDuid.None? || modalDuid.value == "") ==> r == Err(NotImplementedError("Required env var MODAL_DUID must be set"))
    ensures r.Ok? <==> modalDuid.Some? && modalDuid.value != "" && PyInt(decimals).Ok? && PyInt(exitLevelUp).Ok? && PyInt(exitLevelUp).value != 0
    ensures r.Ok? ==> r.value == FiboConfig(modalDuid.value, PyInt(decimals).value, PyInt(exitLevelUp).value)
    ensures modalDuid.Some? && modalDuid.value != "" && PyInt(decimals).Err? ==> r == Err(PyInt(decimals).error)
    ensures modalDuid.Some? && modalDuid.value != "" && PyInt(decimals).Ok? && PyInt(exitLevelUp).Err? ==>
      r == Err(PyInt(exitLevelUp).error)
    ensures modalDuid.Some? && modalDuid.value != "" && PyInt(decimals).Ok? && PyInt(exitLevelUp) == Ok(0) ==>
      r == Err(NotImplementedError("Required env var EXIT_LEVEL_UP must be set"))
  {
    if modalDuid.None? || modalDuid.value == "" then Err(NotImplementedError("Required env var MODAL_DUID must be set"))
    else
      var decimals :- PyInt(decimals);
      var level :- PyInt(exitLevelUp);
      if level == 0 then Err(NotImplementedError("Required env var EXIT_LEVEL_UP must be set"))
      else Ok(FiboConfig(modalDuid.value, decimals, level))
  }

  /** Any non-empty MODAL_DUID, any decimal places and any non-zero exit level written in decimal are accepted as given. */
  lemma FiboSettingsAccepts(duid: string, decimals: int, level: int)
    requires duid != "" && level != 0
    ensures FiboSettings(Some(duid), Some(IntToString(decimals)), Some(IntToString(level))) == Ok(FiboConfig(duid, decimals, level))
  {
    PyIntOfIntToString(decimals);
    PyIntOfIntToString(level);
  }

  /** EXIT_LEVEL_UP = 0 is refused. */
  lemma FiboSettingsRefusesLevelZero(duid: string, decimals: int)
    requires duid != ""
    ensures FiboSettings(Some(duid), Some(IntToString(decimals)), Some("0")) == Err(NotImplementedError("Required env var EXIT_LEVEL_UP must be set"))
  {
    PyIntOfIntToString(decimals);
    assert ParseInt("0") == Some(0);
  }

  // ---------------------------------------------------------------------------
  // Fibonacci levels

  function MaxOf(s: seq<real>): (m: real)
    requires |s| > 0
    ensures m in s && forall i :: 0 <= i < |s| ==> s[i] <= m
  {
    if |s| == 1 then s[0]
    else
      var rest := MaxOf(s[1..]);
      assert forall i :: 1 <= i < |s| ==> s[i] == s[1..][i - 1];
      if s[0] >= rest then s[0] else rest
  }

  function MinOf(s: seq<real>): (m: real)
    requires |s| > 0
    ensures m in s && forall i :: 0 <= i < |s| ==> m <= s[i]
  {
    if |s| == 1 then s[0]
    else
      var rest := MinOf(s[1..]);
      assert forall i :: 1 <= i < |s| ==> s[i] == s[1..][i - 1];
      if s[0] <= rest then s[0] else rest
  }

  /** The keys of fibo_levels. */
  const LevelKeys: set<string> := {"1000", "786", "650", "618", "500", "382", "236", "0"}

  /** fibo_levels: '1000' is the highest high and '0' the lowest low; every other
      level is its fraction of the highest high, not of the high-low range.
      max() and min() of an empty series raise ValueError. */
  function FiboLevels(highs: seq<real>, lows: seq<real>): (r: Result<map<string, real>>)
    ensures r.Ok? <==> |highs| > 0 && |lows| > 0
    ensures r.Err? ==> r.error == ValueError
    ensures r.Ok? ==> r.value.Keys == LevelKeys
    ensures r.Ok? ==> r.value["1000"] == MaxOf(highs) && r.value["0"] == MinOf(lows)
    ensures r.Ok? ==> r.value["1000"] in highs && forall i :: 0 <= i < |highs| ==> highs[i] <= r.value["1000"]
    ensures r.Ok? ==> r.value["0"] in lows && forall i :: 0 <= i < |lows| ==> r.value["0"] <= lows[i]
    ensures r.Ok? ==> var top := r.value["1000"];
      r.value["786"] == 0.786 * top && r.value["650"] == 0.65 * top && r.value["618"] == 0.618 * top &&
      r.value["500"] == 0.5 * top && r.value["382"] == 0.382 * top && r.value["236"] == 0.236 * top
  {
    if |highs| == 0 || |lows| == 0 then Err(ValueError)
    else
      var highest := MaxOf(highs);
      var lowest := MinOf(lows);
      Ok(map["1000" := highest, "786" := 0.786 * highest, "650" := 0.65 * highest, "618" := 0.618 * highest,
             "500" := 0.5 * highest, "382" := 0.382 * highest, "236" := 0.236 * highest, "0" := lowest])
  }

  /** With a positive highest high the levels from '236' to '1000' rise strictly. */
  lemma FiboLevelsOrdered(highs: seq<real>, lows: seq<real>)
    requires |highs| > 0 && |lows| > 0 && MaxOf(highs) > 0.0
    ensures var l := FiboLevels(highs, lows).value;
      l["236"] < l["382"] < l["500"] < l["618"] < l["650"] < l["786"] < l["1000"]
  {
  }

  /** A range from 100 to 200 puts the '500' level at 100, half the high, not at the midpoint 150. */
  lemma FiboLevelsNotOfRange()
    ensures FiboLevels([200.0], [100.0]) == Ok(map["1000" := 200.0, "786" := 157.2, "650" := 130.0, "618" := 123.6,
                                                 "500" := 100.0, "382" := 76.4, "236" := 47.2, "0" := 100.0])
  {
  }

  // ---------------------------------------------------------------------------
  // The last valid fractal

  /** f is a fractal strictly beyond the current price: above it, or below it. */
  predicate Beyond(f: Option<real>, current: real, above: bool)
  {
    f.Some? && (if above then f.value > current else f.value < current)
  }

  /** The last entry of fs beyond the current price, if any. */
  function LastBeyond(fs: seq<Option<real>>, current: real, above: bool): (r: Option<real>)
    ensures r.Some? ==> exists i :: (0 <= i < |fs| && fs[i] == r && Beyond(fs[i], current, above) &&
      forall j :: i < j < |fs| ==> !Beyond(fs[j], current, above))
    ensures r.None? <==> forall i :: 0 <= i < |fs| ==> !Beyond(fs[i], current, above)
  {
    if fs == [] then None
    else if Beyond(fs[|fs| - 1], current, above) then fs[|fs| - 1]
    else
      var r := LastBeyond(fs[..|fs| - 1], current, above);
      assert forall i :: 0 <= i < |fs| - 1 ==> fs[i] == fs[..|fs| - 1][i];
      r
  }

  /** last_valid_up_fractal: the last up fractal above the latest close; closes[-1] of no candles raises. */
  function LastValidUpFractal(ups: seq<Option<real>>, closes: seq<real>): (r: Result<Option<real>>)
    ensures r.Ok? <==> |closes| > 0
    ensures r.Err? ==> r.error == IndexError
    ensures r.Ok? && r.value.Some? ==> r.value.value > closes[|closes| - 1] && Some(r.value.value) in ups
  {
    if |closes| == 0 then Err(IndexError) else Ok(LastBeyond(ups, closes[|closes| - 1], true))
  }

  /** last_valid_down_fractal: the last down fractal below the latest close. */
  function LastValidDownFractal(downs: seq<Option<real>>, closes: seq<real>): (r: Result<Option<real>>)
    ensures r.Ok? <==> |closes| > 0
    ensures r.Err? ==> r.error == IndexError
    ensures r.Ok? && r.value.Some? ==> r.value.value < closes[|closes| - 1] && Some(r.value.value) in downs
  {
    if |closes| == 0 then Err(IndexError) else Ok(LastBeyond(downs, closes[|closes| - 1], false))
  }

  /** Over the up fractals the indicator produces there is never a valid up fractal. */
  lemma NoValidUpFractal(highs: seq<real>, closes: seq<real>)
    requires |closes| > 0
    ensures LastValidUpFractal(BillWilliams.UpFractal(highs), closes) == Ok(None)
  {
    var ups := BillWilliams.UpFractal(highs);
    forall i | 0 <= i < |ups| ensures !Beyond(ups[i], closes[|closes| - 1], true) {
      BillWilliams.UpFractalNeverMarks(highs, i);
    }
  }

  // ---------------------------------------------------------------------------
  // Stop prices

  /** decimal_to_precision(n, TRUNCATE, p) of a fractal; a missing fractal makes Decimal('None') fail. */
  function TruncFractal(f: Option<real>, p: int): (r: Result<Option<real>>)
    ensures r.Ok? <==> f.Some?
    ensures r.Ok? ==> r.value == Some(Trunc(f.value, p))
  {
    match f
    case None => Err(InvalidOperation)
    case Some(x) => Ok(Some(Trunc(x, p)))
  }

  /** stop_price: the last valid down fractal (LONG) or up fractal (SHORT), truncated. */
  function StopPrice(action: Action, entry: Option<real>, ups: seq<Option<real>>, downs: seq<Option<real>>,
                     closes: seq<real>, p: int): Result<Option<real>>
  {
    if entry.None? then Ok(None)
    else
      match action
      case Long =>
        var f :- LastValidDownFractal(downs, closes);
        TruncFractal(f, p)
      case Short =>
        var f :- LastValidUpFractal(ups, closes);
        TruncFractal(f, p)
      case Nothing => Ok(None)
  }

  /** The price of the stop's limit order: 10 below the down fractal (LONG) or 10 above the up fractal (SHORT), truncated.
      Arithmetic on a missing fractal raises TypeError. */
  function StopActionPrice(action: Action, entry: Option<real>, ups: seq<Option<real>>, downs: seq<Option<real>>,
                           closes: seq<real>, p: int): Result<Option<real>>
  {
    if entry.None? then Ok(None)
    else
      match action
      case Long =>
        var f :- LastValidDownFractal(downs, closes);
        if f.None? then Err(TypeError("unsupported operand type(s) for -: 'NoneType' and 'float'"))
        else Ok(Some(Trunc(f.value - 10.0, p)))
      case Short =>
        var f :- LastValidUpFractal(ups, closes);
        if f.None? then Err(TypeError("unsupported operand type(s) for +: 'NoneType' and 'float'"))
        else Ok(Some(Trunc(f.value + 10.0, p)))
      case Nothing => Ok(None)
  }

  /** The LONG stop: with a valid down fractal d, the stop is d truncated and its
      limit is d - 10 truncated; the limit is never above the stop, and for a
      non-negative d the stop is never above d, so it lies below the latest close. */
  lemma LongStops(entry: real, ups: seq<Option<real>>, downs: seq<Option<real>>, closes: seq<real>, p: int)
    requires LastValidDownFractal(downs, closes).Ok? && LastValidDownFractal(downs, closes).value.Some?
    ensures var d := LastValidDownFractal(downs, closes).value.value;
      StopPrice(Long, Some(entry), ups, downs, closes, p) == Ok(Some(Trunc(d, p))) &&
      StopActionPrice(Long, Some(entry), ups, downs, closes, p) == Ok(Some(Trunc(d - 10.0, p))) &&
      Trunc(d - 10.0, p) <= Trunc(d, p) &&
      (d >= 0.0 ==> Trunc(d, p) < closes[|closes| - 1])
  {
    var d := LastValidDownFractal(downs, closes).value.value;
    TruncMonotone(d - 10.0, d, p);
    if d >= 0.0 {
      TruncBounds(d, p);
    }
  }

  /** Without a valid down fractal a LONG stop cannot be priced. */
  lemma LongStopsNeedFractal(entry: real, ups: seq<Option<real>>, downs: seq<Option<real>>, closes: seq<real>, p: int)
    requires |closes| > 0 && LastValidDownFractal(downs, closes) == Ok(None)
    ensures StopPrice(Long, Some(entry), ups, downs, closes, p) == Err(InvalidOperation)
    ensures StopActionPrice(Long, Some(entry), ups, downs, closes, p).Err?
  {
  }

  /** With the up fractals the indicator produces, a SHORT trade can never price its stop. */
  lemma ShortStopsUnavailable(entry: real, highs: seq<real>, downs: seq<Option<real>>, closes: seq<real>, p: int)
    requires |closes| > 0
    ensures StopPrice(Short, Some(entry), BillWilliams.UpFractal(highs), downs, closes, p) == Err(InvalidOperation)
    ensures StopActionPrice(Short, Some(entry), BillWilliams.UpFractal(highs), downs, closes, p).Err?
  {
    NoValidUpFractal(highs, closes);
  }

  // ---------------------------------------------------------------------------
  // Exit price

  /** exit_price: the Fibonacci level EXIT_LEVEL_UP selects, not truncated.
      Levels above 4 are refused for both sides; a LONG level below 1 gives None;
      a SHORT level outside 1..3 is refused. */
  function ExitPrice(action: Action, entry: Option<real>, level: int, highs: seq<real>, lows: seq<real>): Result<Option<real>>
  {
    if entry.None? then Ok(None)
    else if level > 4 then Err(NotImplementedError("The exit level up requested is not supported"))
    else
      match action
      case Long =>
        if level < 1 then Ok(None)
        else
          var levels :- FiboLevels(highs, lows);
          if level == 1 then Ok(Some(levels["618"]))
          else if level == 2 then Ok(Some(levels["650"]))
          else if level == 3 then Ok(Some(levels["786"]))
          else Ok(Some(levels["1000"]))
      case Short =>
        if level < 1 || level > 3 then Err(TypeError("Shorts can only have maximum of 3 levels up"))
        else
          var levels :- FiboLevels(highs, lows);
          if level == 1 then Ok(Some(levels["382"]))
          else if level == 2 then Ok(Some(levels["236"]))
          else Ok(Some(levels["0"]))
      case Nothing => Ok(None)
  }

  /** LONG levels 1, 2, 3, 4 exit at 61.8%, 65%, 78.6% and 100% of the highest high. */
  /** The LONG take-profit is a fraction of the highest high, not a price above the
      entry: entering at 90 under a high of 100, level 1 sells at 61.8. */
  lemma LongTakeProfitBelowEntry()
    ensures ExitPrice(Long, Some(90.0), 1, [100.0], [80.0]) == Ok(Some(61.8)) && 61.8 < 90.0
  {
    ExitPriceLong(90.0, [100.0], [80.0]);
  }

  /** For every entry above 0.618 of the highest high, level 1 takes profit below the entry. */
  lemma LongTakeProfitBelowHighEntries(entry: real, highs: seq<real>, lows: seq<real>)
    requires |highs| > 0 && |lows| > 0 && entry > 0.618 * MaxOf(highs)
    ensures ExitPrice(Long, Some(entry), 1, highs, lows).Ok?
    ensures ExitPrice(Long, Some(entry), 1, highs, lows).value == Some(0.618 * MaxOf(highs))
    ensures 0.618 * MaxOf(highs) < entry
  {
    ExitPriceLong(entry, highs, lows);
  }

  /** The LONG stop is bounded by the latest close only, not by the entry: a fill at
      50 with the last valid down fractal at 80 under a close of 100 stops at 80. */
  lemma LongStopAboveEntry()
    ensures StopPrice(Long, Some(50.0), [], [Some(80.0)], [100.0], 0) == Ok(Some(80.0)) && 80.0 > 50.0
  {
    assert LastValidDownFractal([Some(80.0)], [100.0]) == Ok(Some(80.0));
    assert Scale(0) == 1.0 && OnGrid(80.0, 0);
    TruncOnGridPrice(80.0, 0);
  }

  lemma ExitPriceLong(entry: real, highs: seq<real>, lows: seq<real>)
    requires |highs| > 0 && |lows| > 0
    ensures ExitPrice(Long, Some(entry), 1, highs, lows) == Ok(Some(0.618 * MaxOf(highs)))
    ensures ExitPrice(Long, Some(entry), 2, highs, lows) == Ok(Some(0.65 * MaxOf(highs)))
    ensures ExitPrice(Long, Some(entry), 3, highs, lows) == Ok(Some(0.786 * MaxOf(highs)))
    ensures ExitPrice(Long, Some(entry), 4, highs, lows) == Ok(Some(MaxOf(highs)))
  {
    var t := FiboLevels(highs, lows).value;
    assert ExitPrice(Long, Some(entry), 1, highs, lows) == Ok(Some(t["618"]));
    assert ExitPrice(Long, Some(entry), 2, highs, lows) == Ok(Some(t["650"]));
    assert ExitPrice(Long, Some(entry), 3, highs, lows) == Ok(Some(t["786"]));
    assert ExitPrice(Long, Some(entry), 4, highs, lows) == Ok(Some(t["1000"]));
    assert t["618"] == 0.618 * MaxOf(highs) && t["650"] == 0.65 * MaxOf(highs);
    assert t["786"] == 0.786 * MaxOf(highs) && t["1000"] == MaxOf(highs);
  }

  /** SHORT levels 1 and 2 exit at 38.2% and 23.6% of the highest high, level 3 at the lowest low. */
  lemma ExitPriceShort(entry: real, highs: seq<real>, lows: seq<real>)
    requires |highs| > 0 && |lows| > 0
    ensures ExitPrice(Short, Some(entry), 1, highs, lows) == Ok(Some(0.382 * MaxOf(highs)))
    ensures ExitPrice(Short, Some(entry), 2, highs, lows) == Ok(Some(0.236 * MaxOf(highs)))
    ensures ExitPrice(Short, Some(entry), 3, highs, lows) == Ok(Some(MinOf(lows)))
  {
    var t := FiboLevels(highs, lows).value;
    assert ExitPrice(Short, Some(entry), 1, highs, lows) == Ok(Some(t["382"]));
    assert ExitPrice(Short, Some(entry), 2, highs, lows) == Ok(Some(t["236"]));
    assert ExitPrice(Short, Some(entry), 3, highs, lows) == Ok(Some(t["0"]));
    assert t["382"] == 0.382 * MaxOf(highs) && t["236"] == 0.236 * MaxOf(highs) && t["0"] == MinOf(lows);
  }

  /** The refused levels: above 4 for either side, and 4 or below 1 for a SHORT. */
  lemma ExitPriceRefusals(action: Action, entry: real, level: int, highs: seq<real>, lows: seq<real>)
    ensures level > 4 ==> (ExitPrice(action, Some(entry), level, highs, lows) ==
      Err(NotImplementedError("The exit level up requested is not supported")))
    ensures (level == 4 || level < 1) && action == Short ==>
      ExitPrice(action, Some(entry), level, highs, lows) == Err(TypeError("Shorts can only have maximum of 3 levels up"))
    ensures level < 1 && action == Long ==> ExitPrice(action, Some(entry), level, highs, lows) == Ok(None)
    ensures ExitPrice(action, None, level, highs, lows) == Ok(None)
  {
  }

  /** With a positive highest high, a higher LONG level exits at a higher price. */
  lemma ExitPriceLongRises(entry: real, highs: seq<real>, lows: seq<real>)
    requires |highs| > 0 && |lows| > 0 && MaxOf(highs) > 0.0
    ensures ExitPrice(Long, Some(entry), 1, highs, lows).value.value < ExitPrice(Long, Some(entry), 2, highs, lows).value.value
    ensures ExitPrice(Long, Some(entry), 2, highs, lows).value.value < ExitPrice(Long, Some(entry), 3, highs, lows).value.value
    ensures ExitPrice(Long, Some(entry), 3, highs, lows).value.value < ExitPrice(Long, Some(entry), 4, highs, lows).value.value
  {
    ExitPriceLong(entry, highs, lows);
  }

  // ---------------------------------------------------------------------------
  // Profit and loss

  /** a / b * 100 - 100 in Decimal arithmetic: dividing by zero raises, 0/0 as InvalidOperation. */
  function PercentChange(a: real, b: real): (r: Result<real>)
    ensures r.Ok? <==> b != 0.0
    ensures r.Ok? ==> r.value == a / b * 100.0 - 100.0
    ensures b == 0.0 ==> r == Err(if a == 0.0 then InvalidOperation else DivisionByZero)
  {
    if b == 0.0 then Err(if a == 0.0 then InvalidOperation else DivisionByZero) else Ok(a / b * 100.0 - 100.0)
  }

  /** pnl as after_exit computes it. A LONG that won gains exit/entry; a LONG that
      lost reports minus the entry/exit change; a SHORT swaps the roles of entry and exit.
      Without a side, float(None) raises TypeError. */
  function PnlPercent(action: Action, won: bool, entry: real, exit: real): (r: Result<real>)
    ensures action == Nothing ==> r.Err? && r.error.TypeError?
  {
    match action
    case Nothing => Err(TypeError("float() argument must be a string or a real number, not 'NoneType'"))
    case Long =>
      if won then PercentChange(exit, entry)
      else var c :- PercentChange(entry, exit); Ok(-c)
    case Short =>
      if won then PercentChange(entry, exit)
      else var c :- PercentChange(exit, entry); Ok(-c)
  }

  /** Entry 100 and exit 110 for a LONG that won is a 10% gain. */
  lemma PnlLongWonExample()
    ensures PnlPercent(Long, true, 100.0, 110.0) == Ok(10.0)
  {
  }

  /** Entry 100 and exit 90: a SHORT that won gains 100/90 - 1, about 11.11%,
      and a LONG that lost reports the same amount negated, not 10%. */
  lemma PnlNinetyExamples()
    ensures PnlPercent(Short, true, 100.0, 90.0) == Ok(100.0 / 9.0)
    ensures PnlPercent(Long, false, 100.0, 90.0) == Ok(-100.0 / 9.0)
  {
  }

  /** A SHORT's pnl is a LONG's with entry and exit exchanged. */
  lemma PnlShortMirrorsLong(won: bool, entry: real, exit: real)
    ensures PnlPercent(Short, won, entry, exit) == PnlPercent(Long, won, exit, entry)
  {
  }

  /** The pnl is defined exactly when the side is set and the price it divides by is not zero. */
  lemma PnlDefined(action: Action, won: bool, entry: real, exit: real)
    ensures PnlPercent(action, won, entry, exit).Ok? <==>
      action != Nothing && (if (action == Long) == won then entry != 0.0 else exit != 0.0)
  {
  }

  lemma RatioAboveOne(a: real, b: real)
    requires a > 0.0 && b > 0.0
    ensures a / b * 100.0 - 100.0 > 0.0 <==> a > b
    ensures a / b * 100.0 - 100.0 == 0.0 <==> a == b
  {
    var q := a / b;
    assert q * b == a;
    assert (q - 1.0) * b == a - b;
    SignOfProduct(q - 1.0, b);
  }

  lemma SignOfProduct(x: real, b: real)
    requires b > 0.0
    ensures x > 0.0 <==> x * b > 0.0
    ensures x == 0.0 <==> x * b == 0.0
  {
    if x < 0.0 {
      assert (-x) * b > 0.0;
    }
  }

  /** For positive prices the pnl is positive exactly when the price moved the
      trade's way (up for a LONG, down for a SHORT), whichever order filled,
      and zero exactly when entry and exit agree. */
  lemma PnlSign(action: Action, won: bool, entry: real, exit: real)
    requires action != Nothing && entry > 0.0 && exit > 0.0
    ensures PnlPercent(action, won, entry, exit).Ok?
    ensures PnlPercent(action, won, entry, exit).value > 0.0 <==> (if action == Long then exit > entry else exit < entry)
    ensures PnlPercent(action, won, entry, exit).value == 0.0 <==> exit == entry
  {
    RatioAboveOne(exit, entry);
    RatioAboveOne(entry, exit);
  }

  // ---------------------------------------------------------------------------
  // Bracket orders and settlement

  /** The two orders exit() places once the three prices it logs are known: the
      take-profit limit order at the exit price, then the stop order with its
      limit at the stop-action price and the entry price as base. A LONG closes
      by selling, a SHORT by buying; without a side there is no order method to call. */
  function BracketOrders(action: Action, symbol: string, amount: Value, entry: Option<real>,
                         exitP: Result<Option<real>>, stopP: Result<Option<real>>, stopActionP: Result<Option<real>>)
    : Result<seq<Event>>
  {
    var x :- exitP;
    var s :- stopP;
    var a :- stopActionP;
    match action
    case Long => Ok([LimitSell(symbol, amount, OptionValue(x)), StopSell(symbol, amount, OptionValue(s), OptionValue(a), OptionValue(entry))])
    case Short => Ok([LimitBuy(symbol, amount, OptionValue(x)), StopBuy(symbol, amount, OptionValue(s), OptionValue(a), OptionValue(entry))])
    case Nothing => Err(TypeError("'NoneType' object is not callable"))
  }

  /** exit() places two orders of the same amount, take-profit first, both on the closing side,
      and refuses a playbook without a side; a price that fails stops it before either order. */
  lemma BracketOrdersShape(action: Action, symbol: string, amount: Value, entry: Option<real>,
                           exitP: Result<Option<real>>, stopP: Result<Option<real>>, stopActionP: Result<Option<real>>)
    ensures var r := BracketOrders(action, symbol, amount, entry, exitP, stopP, stopActionP);
      (r.Ok? <==> exitP.Ok? && stopP.Ok? && stopActionP.Ok? && action != Nothing) &&
      (r.Ok? ==> (|r.value| == 2 && Placements(r.value) == 2 &&
        r.value[0].amount == amount && r.value[1].amount == amount &&
        r.value[0].price == OptionValue(exitP.value) && r.value[1].stopPrice == OptionValue(stopP.value) &&
        r.value[1].limitPrice == OptionValue(stopActionP.value) && r.value[1].basePrice == OptionValue(entry) &&
        (action == Long ==> r.value[0].LimitSell? && r.value[1].StopSell?) &&
        (action == Short ==> r.value[0].LimitBuy? && r.value[1].StopBuy?)))
  {
    var r := BracketOrders(action, symbol, amount, entry, exitP, stopP, stopActionP);
    if r.Ok? {
      assert r.value[..1][..0] == [];
      assert r.value[..1] == [r.value[0]];
      assert r.value[..|r.value| - 1] == [r.value[0]];
    }
  }

  /** How after_exit ends: the effects it had, whether it got as far as storing
      the polled orders, and whether it returned or raised. */
  datatype Run = Run(events: seq<Event>, polled: bool, outcome: Outcome)

  /** A settled exit notification. */
  function SettledNotice(entry: Option<real>, exitP: Option<real>, stopP: Option<real>, amount: Value, pnl: Pnl): Event
  {
    ExitNotice(OptionValue(entry), OptionValue(exitP), OptionValue(stopP), amount, true, pnl)
  }

  /** The end of after_exit once a side has filled: the pnl notification, or the error computing the pnl raised. */
  function Report(t: seq<Event>, pnl: Result<real>, entry: Option<real>, exitP: Option<real>, stopP: Option<real>, amount: Value): Run
  {
    match pnl
    case Err(e) => Run(t, true, Fail(e))
    case Ok(v) => Run(t + [SettledNotice(entry, exitP, stopP, amount, Percent(v))], true, Pass)
  }

  /** after_exit, given the properties it reads and the orders polling returns.
      It announces the bracket unsettled, polls, and settles: when the exit order
      has closed, the stop order is cancelled and the trade won at the exit price;
      otherwise, when the stop order has closed, the exit order is cancelled and
      the trade lost at the stop price; when neither has closed, nothing is
      cancelled and a settled notification with pnl 'n/a' ends the hook. */
  function AfterExitRun(action: Action, amount: Value, entry: Option<real>, exitP: Result<Option<real>>,
                        stopP: Result<Option<real>>, exitOrder: Order, stopOrder: Order): Run
  {
    if exitP.Err? then Run([], false, Fail(exitP.error))
    else if stopP.Err? then Run([], false, Fail(stopP.error))
    else
      var x, s := exitP.value, stopP.value;
      var first := ExitNotice(OptionValue(entry), OptionValue(x), OptionValue(s), amount, false, NoPnl);
      if entry.None? then Run([first], true, Fail(DecimalOfNone))
      else if exitOrder.status == "closed" then
        var t := [first, Cancelled(stopOrder.id)];
        if x.None? then Run(t, true, Fail(DecimalOfNone))
        else Report(t, PnlPercent(action, true, entry.value, x.value), entry, x, s, amount)
      else if stopOrder.status == "closed" then
        if s.None? then Run([first], true, Fail(DecimalOfNone))
        else Report([first, Cancelled(exitOrder.id)], PnlPercent(action, false, entry.value, s.value), entry, x, s, amount)
      else Run([first, SettledNotice(entry, x, s, amount, NotApplicable)], true, Pass)
  }

  /** The unsettled notification after_exit sends before polling. */
  function UnsettledNotice(entry: Option<real>, exitP: Option<real>, stopP: Option<real>, amount: Value): Event
  {
    ExitNotice(OptionValue(entry), OptionValue(exitP), OptionValue(stopP), amount, false, NoPnl)
  }

  /** A closed exit order settles the trade as won, whatever the stop order's
      status: the stop order alone is cancelled and the pnl is taken at the exit price. */
  lemma SettleOnExitFill(action: Action, amount: Value, entry: real, x: real, s: Option<real>, exitOrder: Order, stopOrder: Order)
    requires exitOrder.status == "closed" && PnlPercent(action, true, entry, x).Ok?
    ensures AfterExitRun(action, amount, Some(entry), Ok(Some(x)), Ok(s), exitOrder, stopOrder) ==
      Run([UnsettledNotice(Some(entry), Some(x), s, amount), Cancelled(stopOrder.id),
           SettledNotice(Some(entry), Some(x), s, amount, Percent(PnlPercent(action, true, entry, x).value))], true, Pass)
  {
  }

  /** A closed stop order with an open exit order settles the trade as lost: the
      exit order alone is cancelled and the pnl is taken at the stop price. */
  lemma SettleOnStopFill(action: Action, amount: Value, entry: real, x: Option<real>, s: real, exitOrder: Order, stopOrder: Order)
    requires exitOrder.status != "closed" && stopOrder.status == "closed" && PnlPercent(action, false, entry, s).Ok?
    ensures AfterExitRun(action, amount, Some(entry), Ok(x), Ok(Some(s)), exitOrder, stopOrder) ==
      Run([UnsettledNotice(Some(entry), x, Some(s), amount), Cancelled(exitOrder.id),
           SettledNotice(Some(entry), x, Some(s), amount, Percent(PnlPercent(action, false, entry, s).value))], true, Pass)
  {
  }

  /** With neither order closed nothing is cancelled and the trade is reported settled with pnl 'n/a'. */
  lemma SettleNeither(action: Action, amount: Value, entry: real, x: Option<real>, s: Option<real>, exitOrder: Order, stopOrder: Order)
    requires exitOrder.status != "closed" && stopOrder.status != "closed"
    ensures AfterExitRun(action, amount, Some(entry), Ok(x), Ok(s), exitOrder, stopOrder) ==
      Run([UnsettledNotice(Some(entry), x, s, amount), SettledNotice(Some(entry), x, s, amount, NotApplicable)], true, Pass)
  {
  }

  /** In every run after_exit cancels at most one order, and only the sibling of
      a closed order: the stop order when the exit order closed, else the exit
      order when the stop order closed. A run that returns normally sends exactly
      two notifications, the unsettled one first and a settled one last. */
  lemma {:induction false} AfterExitCancelsSibling(action: Action, amount: Value, entry: Option<real>, exitP: Result<Option<real>>,
                                                   stopP: Result<Option<real>>, exitOrder: Order, stopOrder: Order)
    ensures var run := AfterExitRun(action, amount, entry, exitP, stopP, exitOrder, stopOrder);
      var c := Cancellations(run.events);
      (c == [] || (c == [stopOrder.id] && exitOrder.status == "closed") ||
                  (c == [exitOrder.id] && exitOrder.status != "closed" && stopOrder.status == "closed")) &&
      (run.outcome == Pass ==> (|run.events| >= 2 && run.events[0].ExitNotice? && !run.events[0].settled &&
        run.events[|run.events| - 1].ExitNotice? && run.events[|run.events| - 1].settled &&
        forall i :: 0 < i < |run.events| - 1 ==> run.events[i].Cancelled?)) &&
      (run.polled <==> exitP.Ok? && stopP.Ok?)
  {
    if exitP.Ok? && stopP.Ok? {
      var x, s := exitP.value, stopP.value;
      var first := UnsettledNotice(entry, x, s, amount);
      if entry.Some? {
        var last := SettledNotice(entry, x, s, amount, NotApplicable);
        if exitOrder.status == "closed" {
          if x.Some? && PnlPercent(action, true, entry.value, x.value).Ok? {
            last := SettledNotice(entry, x, s, amount, Percent(PnlPercent(action, true, entry.value, x.value).value));
          }
          CancellationsBetweenNotices(first, stopOrder.id, last);
        } else if stopOrder.status == "closed" {
          if s.Some? && PnlPercent(action, false, entry.value, s.value).Ok? {
            last := SettledNotice(entry, x, s, amount, Percent(PnlPercent(action, false, entry.value, s.value).value));
          }
          CancellationsBetweenNotices(first, exitOrder.id, last);
        } else {
          CancellationsBetweenNotices(first, "", last);
        }
      } else {
        CancellationsBetweenNotices(first, "", first);
      }
    }
  }

  /** The cancellations of the short traces after_exit leaves. */
  lemma CancellationsBetweenNotices(a: Event, id: string, b: Event)
    requires !a.Cancelled? && !b.Cancelled?
    ensures Cancellations([a]) == [] && Cancellations([a, b]) == []
    ensures Cancellations([a, Cancelled(id)]) == [id] && Cancellations([a, Cancelled(id), b]) == [id]
  {
    assert [a, Cancelled(id), b][..2] == [a, Cancelled(id)];
    assert [a, Cancelled(id)][..1] == [a];
    assert [a, b][..1] == [a];
    assert [a][..0] == [];
  }

  // ---------------------------------------------------------------------------
  // The playbook object

  /** A FractalismFibo playbook: the playbook base it extends, its side, the
      validated configuration, the candles it was built with, the fractals
      computed then, and the three orders its hooks assign. */
  class FractalismFibo {
    const base: Playbook
    const action: Action
    const config: FiboConfig
    const leverage: Option<int>
    const highs: seq<real>
    const lows: seq<real>
    const closes: seq<real>
    const ups: seq<Option<real>>
    const downs: seq<Option<real>>
    var orderEntry: Option<Order>
    var orderExit: Option<Order>
    var orderStop: Option<Order>

    constructor (base: Playbook, action: Action, config: FiboConfig, leverage: Option<int>,
                 highs: seq<real>, lows: seq<real>, closes: seq<real>, downs: seq<Option<real>>)
      ensures this.base == base && this.action == action && this.config == config && this.leverage == leverage
      ensures this.highs == highs && this.lows == lows && this.closes == closes
      ensures this.ups == BillWilliams.UpFractal(highs) && this.downs == downs
      ensures orderEntry.None? && orderExit.None? && orderStop.None?
    {
      this.base := base;
      this.action := action;
      this.config := config;
      this.leverage := leverage;
      this.highs := highs;
      this.lows := lows;
      this.closes := closes;
      this.ups := BillWilliams.UpFractal(highs);
      this.downs := downs;
      orderEntry, orderExit, orderStop := None, None, None;
    }

    /** __init__: the playbook base takes the trade lock first, then the
        environment is checked and the down fractals are computed; if either
        raises, the lock stays taken. */
    static method Build(action: Action, lock: TradeLock, symbol: string, timeframe: string, recursive: bool,
                        marketOrders: bool, leverage: Option<int>,
                        modalDuid: Option<string>, decimals: Option<string>, exitLevelUp: Option<string>,
                        highs: seq<real>, lows: seq<real>, closes: seq<real>)
      returns (r: Result<FractalismFibo>)
      modifies lock
      ensures lock.locked
      ensures r.Ok? <==> FiboSettings(modalDuid, decimals, exitLevelUp).Ok? && BillWilliams.DownFractal(lows).Ok?
      ensures FiboSettings(modalDuid, decimals, exitLevelUp).Err? ==> r == Err(FiboSettings(modalDuid, decimals, exitLevelUp).error)
      ensures FiboSettings(modalDuid, decimals, exitLevelUp).Ok? && BillWilliams.DownFractal(lows).Err? ==> r == Err(IndexError)
      ensures r.Ok? ==> fresh(r.value) && fresh(r.value.base) && r.value.base.lock == lock
      ensures r.Ok? ==> r.value.action == action && r.value.config == FiboSettings(modalDuid, decimals, exitLevelUp).value
      ensures r.Ok? ==> r.value.downs == BillWilliams.DownFractal(lows).value && r.value.ups == BillWilliams.UpFractal(highs)
      ensures r.Ok? ==> r.value.base.trace == (if old(lock.locked) then [] else [LockAcquired])
      ensures r.Ok? ==> r.value.base.symbol == symbol && r.value.base.marketOrders == marketOrders && r.value.base.recursive == recursive
      ensures r.Ok? ==> r.value.orderEntry.None? && r.value.orderExit.None? && r.value.orderStop.None?
    {
      var base := new Playbook(lock, symbol, timeframe, recursive, marketOrders);
      var config := FiboSettings(modalDuid, decimals, exitLevelUp);
      if config.Err? {
        return Err(config.error);
      }
      var downs := BillWilliams.DownFractal(lows);
      if downs.Err? {
        return Err(downs.error);
      }
      var f := new FractalismFibo(base, action, config.value, leverage, highs, lows, closes, downs.value);
      r := Ok(f);
    }

    /** The entry_price the hooks read: the entry order's price. */
    function EntryPrice(): Option<real>
      reads this`orderEntry
    {
      match orderEntry
      case None => None
      case Some(o) => o.price
    }

    /** MODAL_DUID, passed to the exchange and to notifications as the text it was configured as. */
    function Amount(): Value
    {
      Text(config.modalDuid)
    }

    function CurrentExitPrice(): Result<Option<real>>
      reads this`orderEntry
    {
      ExitPrice(action, EntryPrice(), config.exitLevelUp, highs, lows)
    }

    function CurrentStopPrice(): Result<Option<real>>
      reads this`orderEntry
    {
      StopPrice(action, EntryPrice(), ups, downs, closes, config.decimals)
    }

    function CurrentStopActionPrice(): Result<Option<real>>
      reads this`orderEntry
    {
      StopActionPrice(action, EntryPrice(), ups, downs, closes, config.decimals)
    }

    /** entry(): the market entry every playbook with a side shares (Playbook.OpenPosition), for MODAL_DUID. */
    method Entry(fill: Order) returns (o: Outcome)
      modifies this, base
      ensures base.trace == old(base.trace) + (if leverage.Some? then [LeverageSet(leverage.value)] else []) +
        (match action
         case Long => if base.marketOrders then [MarketBuy(base.symbol, Amount())] else []
         case Short => [MarketSell(base.symbol, Amount())]
         case Nothing => [])
      ensures o == if action == Long && !base.marketOrders
        then Fail(AttributeError("The selected exchange does not support market orders")) else Pass
      ensures orderEntry == if action == Short || (action == Long && base.marketOrders) then Some(fill) else old(orderEntry)
      ensures orderExit == old(orderExit) && orderStop == old(orderStop)
    {
      var entry;
      o, entry := base.OpenPosition(action, leverage, Amount(), fill);
      if entry.Some? {
        orderEntry := entry;
      }
    }

    /** after_entry(): the entry notification (Playbook.AnnounceEntry) with MODAL_DUID. */
    method AfterEntry() returns (o: Outcome)
      modifies base
      ensures orderEntry.None? ==> o == Fail(NoAttribute("FractalismFibo", "order_entry")) && base.trace == old(base.trace)
      ensures orderEntry.Some? ==> o == Pass && base.trace == old(base.trace) + [EntryNotice(OptionValue(orderEntry.value.price), Amount())]
    {
      o := base.AnnounceEntry(orderEntry, Amount(), NoAttribute("FractalismFibo", "order_entry"));
    }

    /** exit(): the bracket orders; the replies become the exit and stop orders. */
    method Exit(exitReply: Order, stopReply: Order) returns (o: Outcome)
      modifies this, base
      ensures orderEntry == old(orderEntry)
      ensures var r := BracketOrders(action, base.symbol, Amount(), EntryPrice(), CurrentExitPrice(), CurrentStopPrice(), CurrentStopActionPrice());
        (r.Ok? ==> o == Pass && base.trace == old(base.trace) + r.value && orderExit == Some(exitReply) && orderStop == Some(stopReply)) &&
        (r.Err? ==> o == Fail(r.error) && base.trace == old(base.trace) && orderExit == old(orderExit) && orderStop == old(orderStop))
    {
      var entry := EntryPrice();
      var x := CurrentExitPrice();
      if x.Err? { return Fail(x.error); }
      var s := CurrentStopPrice();
      if s.Err? { return Fail(s.error); }
      var a := CurrentStopActionPrice();
      if a.Err? { return Fail(a.error); }
      match action
      case Long =>
        var e := base.LimitSellOrder(Amount(), OptionValue(x.value), exitReply);
        orderExit := Some(e);
        var st := base.LimitStopSellOrder(Amount(), OptionValue(s.value), OptionValue(a.value), OptionValue(entry), stopReply);
        orderStop := Some(st);
        o := Pass;
      case Short =>
        var e := base.LimitBuyOrder(Amount(), OptionValue(x.value), exitReply);
        orderExit := Some(e);
        var st := base.LimitStopBuyOrder(Amount(), OptionValue(s.value), OptionValue(a.value), OptionValue(entry), stopReply);
        orderStop := Some(st);
        o := Pass;
      case Nothing =>
        o := Fail(TypeError("'NoneType' object is not callable"));
    }

    /** after_exit(): see AfterExitRun; the polled orders are inputs. */
    method AfterExit(polledExit: Order, polledStop: Order) returns (o: Outcome)
      modifies this, base
      ensures orderEntry == old(orderEntry)
      ensures var run := AfterExitRun(action, Amount(), EntryPrice(), CurrentExitPrice(), CurrentStopPrice(), polledExit, polledStop);
        base.trace == old(base.trace) + run.events && o == run.outcome &&
        orderExit == (if run.polled then Some(polledExit) else old(orderExit)) &&
        orderStop == (if run.polled then Some(polledStop) else old(orderStop))
    {
      var x := CurrentExitPrice();
      if x.Err? { return Fail(x.error); }
      var s := CurrentStopPrice();
      if s.Err? { return Fail(s.error); }
      var entry := EntryPrice();
      base.Notify(UnsettledNotice(entry, x.value, s.value, Amount()));
      orderExit := Some(polledExit);
      orderStop := Some(polledStop);
      if entry.None? {
        return Fail(DecimalOfNone);
      }
      o := Settle(entry.value, x.value, s.value, polledExit, polledStop);
    }

    /** The part of after_exit after polling, for a known entry price: cancel the
        sibling of the closed order and send the settled notification. Its events
        are those of AfterExitRun after the unsettled notification. */
    method Settle(entry: real, x: Option<real>, s: Option<real>, polledExit: Order, polledStop: Order) returns (o: Outcome)
      modifies base
      ensures var run := AfterExitRun(action, Amount(), Some(entry), Ok(x), Ok(s), polledExit, polledStop);
        |run.events| >= 1 && base.trace == old(base.trace) + run.events[1..] && o == run.outcome
    {
      var exitPrice: real;
      var won: bool;
      if polledExit.status == "closed" {
        base.CancelOrder(polledStop.id);
        if x.None? {
          return Fail(DecimalOfNone);
        }
        exitPrice, won := x.value, true;
      } else if polledStop.status == "closed" {
        if s.None? {
          return Fail(DecimalOfNone);
        }
        exitPrice := s.value;
        base.CancelOrder(polledExit.id);
        won := false;
      } else {
        base.Notify(SettledNotice(Some(entry), x, s, Amount(), NotApplicable));
        return Pass;
      }
      var pnl := PnlPercent(action, won, entry, exitPrice);
      if pnl.Err? {
        return Fail(pnl.error);
      }
      base.Notify(SettledNotice(Some(entry), x, s, Amount(), Percent(pnl.value)));
      o := Pass;
    }
  }
}
