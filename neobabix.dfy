/** The bot's entry points (neobabix/__init__.py): the exchange client choice,
    the split of OHLCV candle rows into columns, the strategy registry, and the
    inputs a tick hands to the strategy. The ccxt library is represented by the
    set of exchange names it provides and by the replies of its calls. */
module Neobabix {
  import opened Common

  const Timeframe: string := "1h"
  const Symbol: string := "BTC/USD"

  /** environ.get(name, default). */
  function EnvOr(v: Option<string>, default: string): (s: string)
    ensures v.Some? ==> s == v.value
    ensures v.None? ==> s == default
  {
    match v
    case None => default
    case Some(x) => x
  }

  /** A Python string's truth value. */
  predicate Truthy(v: Option<string>)
  {
    v.Some? && v.value != ""
  }

  /** The client get_ccxt_client builds: the exchange class and, when given, its credentials. */
  datatype Client = Client(exchange: string, credentials: Option<(string, string)>)

  /** get_ccxt_client(exchange, api_key, api_secret): an exchange ccxt does not
      provide raises AttributeError; the credentials are passed only when the
      key and the secret are both non-empty. */
  function GetCcxtClient(ccxtExchanges: set<string>, exchange: string, apiKey: Option<string>, apiSecret: Option<string>)
    : (r: Result<Client>)
    ensures r.Ok? <==> exchange in ccxtExchanges
    ensures r.Err? ==> r.error == AttributeError("The exchange " + exchange + " is not supported")
    ensures r.Ok? ==> r.value.exchange == exchange
    ensures r.Ok? ==> (r.value.credentials.Some? <==> Truthy(apiKey) && Truthy(apiSecret))
    ensures r.Ok? && r.value.credentials.Some? ==> r.value.credentials.value == (apiKey.value, apiSecret.value)
  {
    if exchange !in ccxtExchanges then Err(AttributeError("The exchange " + exchange + " is not supported"))
    else if Truthy(apiKey) && Truthy(apiSecret) then Ok(Client(exchange, Some((apiKey.value, apiSecret.value))))
    else Ok(Client(exchange, None))
  }

  /** The five columns fetch_candles returns. */
  datatype Candles = Candles(opens: seq<real>, highs: seq<real>, lows: seq<real>, closes: seq<real>, volumes: seq<real>)

  /** Field k of every row. */
  function Column(rows: seq<seq<real>>, k: nat): (c: seq<real>)
    requires forall i :: 0 <= i < |rows| ==> k < |rows[i]|
    ensures |c| == |rows|
    ensures forall i :: 0 <= i < |rows| ==> c[i] == rows[i][k]
  {
    seq(|rows|, i requires 0 <= i < |rows| => rows[i][k])
  }

  /** Lines 46-50 of fetch_candles: fields 1 to 5 of each [timestamp, open,
      high, low, close, volume] row become the columns and the timestamp is
      dropped. A row with fewer than six fields raises IndexError. */
  function CandleColumns(rows: seq<seq<real>>): (r: Result<Candles>)
    ensures r.Ok? <==> forall i :: 0 <= i < |rows| ==> |rows[i]| >= 6
    ensures r.Err? ==> r.error == IndexError
    ensures r.Ok? ==> (
      var c := r.value;
      |c.opens| == |c.highs| == |c.lows| == |c.closes| == |c.volumes| == |rows| &&
      forall i :: 0 <= i < |rows| ==>
        c.opens[i] == rows[i][1] && c.highs[i] == rows[i][2] && c.lows[i] == rows[i][3] &&
        c.closes[i] == rows[i][4] && c.volumes[i] == rows[i][5])
  {
    if exists i :: 0 <= i < |rows| && |rows[i]| < 6 then Err(IndexError)
    else Ok(Candles(Column(rows, 1), Column(rows, 2), Column(rows, 3), Column(rows, 4), Column(rows, 5)))
  }

  /** Rebuilding the rows from the columns, each behind its timestamp, gives the
      rows back: the split loses nothing but the reply's extra fields. */
  lemma CandleColumnsLossless(rows: seq<seq<real>>, stamps: seq<real>)
    requires forall i :: 0 <= i < |rows| ==> |rows[i]| == 6
    requires |stamps| == |rows| && forall i :: 0 <= i < |rows| ==> rows[i][0] == stamps[i]
    ensures var c := CandleColumns(rows).value;
      rows == seq(|rows|, i requires 0 <= i < |rows| =>
        [stamps[i], c.opens[i], c.highs[i], c.lows[i], c.closes[i], c.volumes[i]])
  {
    var c := CandleColumns(rows).value;
    var rebuilt := seq(|rows|, i requires 0 <= i < |rows| =>
      [stamps[i], c.opens[i], c.highs[i], c.lows[i], c.closes[i], c.volumes[i]]);
    forall i | 0 <= i < |rows| ensures rebuilt[i] == rows[i] {
      assert rebuilt[i] == [rows[i][0], rows[i][1], rows[i][2], rows[i][3], rows[i][4], rows[i][5]];
    }
  }

  /** fetch_candles(symbol, exchange): a client without credentials, refused
      when its exchange cannot fetch OHLCV data; rows is its reply to
      fetch_ohlcv for 50 candles. */
  function FetchCandles(ccxtExchanges: set<string>, exchange: string, hasFetchOhlcv: bool, rows: seq<seq<real>>)
    : (r: Result<Candles>)
    ensures exchange !in ccxtExchanges ==> r == Err(AttributeError("The exchange " + exchange + " is not supported"))
    ensures exchange in ccxtExchanges && !hasFetchOhlcv ==>
      r == Err(TypeError("The exchange " + exchange + " does not let candles to be retrieved"))
    ensures exchange in ccxtExchanges && hasFetchOhlcv ==> r == CandleColumns(rows)
  {
    var client :- GetCcxtClient(ccxtExchanges, exchange, None, None);
    if !hasFetchOhlcv then Err(TypeError("The exchange " + exchange + " does not let candles to be retrieved"))
    else CandleColumns(rows)
  }

  /** The strategies the registry holds. */
  datatype StrategyKind = WiseWilliamsStrategy

  /** get_strategy(name): only "WiseWilliams" is registered; any other name
      raises AttributeError. */
  function GetStrategy(name: string): (r: Result<StrategyKind>)
    ensures r.Ok? <==> name == "WiseWilliams"
    ensures r.Ok? ==> r.value == WiseWilliamsStrategy
    ensures r.Err? ==> r.error == AttributeError("Strategy is not supported")
  {
    if name != "WiseWilliams" then Err(AttributeError("Strategy is not supported")) else Ok(WiseWilliamsStrategy)
  }

  /** What tick hands to the strategy's constructor. */
  datatype StrategyInputs = StrategyInputs(kind: StrategyKind, opens: seq<real>, highs: seq<real>, lows: seq<real>,
                                           closes: seq<real>, volumes: seq<real>)

  /** tick() up to the construction of the strategy: the candles are fetched
      first, then the strategy is looked up, and the strategy receives the lows
      column in place of the opens. */
  function Tick(ccxtExchanges: set<string>, candlesExchange: Option<string>, strategy: Option<string>,
                hasFetchOhlcv: bool, rows: seq<seq<real>>): (r: Result<StrategyInputs>)
    ensures var f := FetchCandles(ccxtExchanges, EnvOr(candlesExchange, "bitfinex"), hasFetchOhlcv, rows);
      (f.Err? ==> r == Err(f.error)) &&
      (f.Ok? ==> r.Ok? == GetStrategy(EnvOr(strategy, "WiseWilliams")).Ok?) &&
      (f.Ok? && GetStrategy(EnvOr(strategy, "WiseWilliams")).Err? ==> r == Err(GetStrategy(EnvOr(strategy, "WiseWilliams")).error)) &&
      (r.Ok? ==> r.value.opens == f.value.lows && r.value.lows == f.value.lows && r.value.highs == f.value.highs &&
                 r.value.closes == f.value.closes && r.value.volumes == f.value.volumes)
    ensures r.Ok? ==> r.value.kind == WiseWilliamsStrategy
  {
    var candles :- FetchCandles(ccxtExchanges, EnvOr(candlesExchange, "bitfinex"), hasFetchOhlcv, rows);
    var kind :- GetStrategy(EnvOr(strategy, "WiseWilliams"));
    Ok(StrategyInputs(kind, candles.lows, candles.highs, candles.lows, candles.closes, candles.volumes))
  }

  /** Unconfigured, a tick reads bitfinex candles into WiseWilliams, whose opens
      are the rows' lows. */
  lemma TickDefaults(ccxtExchanges: set<string>, rows: seq<seq<real>>)
    requires "bitfinex" in ccxtExchanges
    requires forall i :: 0 <= i < |rows| ==> |rows[i]| >= 6
    ensures var r := Tick(ccxtExchanges, None, None, true, rows);
      r.Ok? && r.value.kind == WiseWilliamsStrategy && |r.value.opens| == |rows| &&
      forall i :: 0 <= i < |rows| ==> r.value.opens[i] == rows[i][3]
  {
  }
}
