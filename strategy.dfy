/** The SMA strategy of main.py: `get_balance` and `margin_trade`, which reads the balance,
    gives up below the minimum, fetches candles, compares the last close with the last SMA and
    places at most one isolated-margin market order. */
module Strategy {
  import opened Basics
  import Text
  import opened Json
  import opened Http
  import Ohlcv
  import Signer
  import IsolatedBalance

  /** The smallest balance `margin_trade` trades with. */
  const MinimumBalance: real := 2.0

  datatype Side = Buy | Sell

  function SideText(side: Side): string {
    match side
    case Buy => "buy"
    case Sell => "sell"
  }

  /** The close-versus-SMA rule. `None` stands for a NaN (an SMA over fewer candles than its
      window, or a missing cell); every comparison with NaN is false, so it means no trade. */
  function Decide(lastClose: Option<real>, lastSma: Option<real>): (d: Option<Side>)
    ensures d == Some(Buy) <==> lastClose.Some? && lastSma.Some? && lastClose.value > lastSma.value
    ensures d == Some(Sell) <==> lastClose.Some? && lastSma.Some? && lastClose.value < lastSma.value
    ensures d.None? <==> lastClose.None? || lastSma.None? || lastClose.value == lastSma.value
  {
    if lastClose.Some? && lastSma.Some? && lastClose.value > lastSma.value then Some(Buy)
    else if lastClose.Some? && lastSma.Some? && lastClose.value < lastSma.value then Some(Sell)
    else None
  }

  /** The rule is symmetric: exchanging close and SMA turns a buy into a sell and back, and
      leaves "no trade" as it is. */
  lemma DecideMirror(close: Option<real>, sma: Option<real>)
    ensures Decide(close, sma) == Some(Buy) <==> Decide(sma, close) == Some(Sell)
    ensures Decide(close, sma).None? <==> Decide(sma, close).None?
  {
  }

  /** `get_balance(symbol)`: the float the helper returns. The helper catches every exception
      itself (its model has no error result), so the `except` branch here is never taken. */
  method GetBalance(symbol: string, env: IsolatedBalance.Env, nowMillis: nat, hmac: (string, string) -> string,
                    parseFloat: string -> Option<real>, send: Headers -> Option<HttpResponse>)
    returns (balance: real)
    ensures balance == IsolatedBalance.IsolatedMarginBalance(symbol, env, nowMillis, hmac, parseFloat, send)
    ensures balance != 0.0 ==> env.apiSecret.Some? && env.apiPassphrase.Some?
  {
    balance := IsolatedBalance.GetIsolatedMarginBalanceHttp(symbol, env, nowMillis, hmac, parseFloat, send);
    if balance != 0.0 {
      IsolatedBalance.NonZeroMeansFound(symbol, env, nowMillis, hmac, parseFloat, send);
    }
  }

  /** The credentials loaded at start-up (present and non-empty, or the script stops). */
  datatype Credentials = Credentials(apiKey: string, apiSecret: string, apiPassphrase: string)

  function CredentialsEnv(creds: Credentials): IsolatedBalance.Env {
    IsolatedBalance.Env(Some(creds.apiKey), Some(creds.apiSecret), Some(creds.apiPassphrase))
  }

  /** The computations the script takes from libraries: HMAC-SHA256 then base64, `float()` of
      text, `str()` of a float, `json.dumps` of a body, and the last value of
      `SMAIndicator(close, window=20)`. */
  datatype Primitives = Primitives(
    hmac: (string, string) -> string,
    parseFloat: string -> Option<real>,
    formatFloat: real -> string,
    dumps: seq<Field> -> string,
    lastSma: Ohlcv.Frame -> Option<real>)

  /** The services `margin_trade` calls, each answering the request it is given. */
  datatype Exchange = Exchange(
    balanceEndpoint: Headers -> Option<HttpResponse>,
    klineClient: Ohlcv.CandleQuery -> Ohlcv.ClientReply,
    orderEndpoint: Signer.OrderRequest -> Option<HttpResponse>)

  /** The clock readings: milliseconds for the balance GET, seconds for the candle window,
      milliseconds for the order POST. */
  datatype Clock = Clock(balanceMillis: nat, candleSeconds: int, orderMillis: nat)

  /** The calls made to the exchange, in order. */
  datatype Step =
    | BalanceLookup(symbol: string)
    | CandleFetch(query: Ohlcv.CandleQuery)
    | OrderSubmit(request: Signer.OrderRequest)

  datatype TradeFailure = CandlesUnavailable(fetch: Ohlcv.FetchError) | OrderFailed(order: Signer.OrderError)

  datatype TradeOutcome =
    | InsufficientBalance(balance: real)
    | NoTrade
    | Ordered(side: Side, response: Json)
    | Failed(failure: TradeFailure)

  function BalanceFor(symbol: string, creds: Credentials, prims: Primitives, clock: Clock, ex: Exchange): real {
    IsolatedBalance.IsolatedMarginBalance(symbol, CredentialsEnv(creds), clock.balanceMillis, prims.hmac,
                                          prims.parseFloat, ex.balanceEndpoint)
  }

  function CandlesFor(symbol: string, clock: Clock, ex: Exchange): Result<Ohlcv.Frame, Ohlcv.FetchError> {
    Ohlcv.FetchOhlcv(symbol, Ohlcv.DefaultGranularity, Ohlcv.DefaultLimit, clock.candleSeconds, ex.klineClient)
  }

  /** The query `fetch_ohlcv(symbol)` sends: 15-minute candles over the last 50 periods. */
  function CandleQueryFor(symbol: string, clock: Clock): (q: Ohlcv.CandleQuery)
    ensures q.symbol == symbol
    ensures q.klineType == "15min" && q.end == clock.candleSeconds && q.end - q.start == 50 * 900
  {
    var w := Ohlcv.CandleWindow(Ohlcv.DefaultLimit, Ohlcv.DefaultGranularity, clock.candleSeconds);
    Ohlcv.GranularityLabels(Ohlcv.DefaultGranularity);
    Ohlcv.CandleQuery(symbol, Ohlcv.GranularityMap[Ohlcv.DefaultGranularity], w.start, w.end)
  }

  /** The body of the order `margin_trade` places: no client id given, so the fresh one, and
      `autoRepay` left at false. */
  function OrderBodyFor(symbol: string, side: Side, size: real, leverage: int, prims: Primitives, freshOid: string): string {
    prims.dumps(Signer.OrderFields(symbol, SideText(side), prims.formatFloat(size), Text.IntToString(leverage), freshOid, false))
  }

  /** The request is the signed POST of the market order for `side`: the body `margin_trade`
      asks for, signed with the secret over the POST line and that very body, at the order clock. */
  predicate IsOrderFor(request: Signer.OrderRequest, symbol: string, side: Side, size: real, leverage: int,
                       creds: Credentials, prims: Primitives, clock: Clock, freshOid: string)
  {
    var headers := request.headers;
    && request.url == Signer.OrderUrl
    && request.body == OrderBodyFor(symbol, side, size, leverage, prims, freshOid)
    && headers.Keys == Signer.SignedHeaderNames
    && headers[Signer.KeyHeader] == creds.apiKey
    && headers[Signer.TimestampHeader] == Text.NatToString(clock.orderMillis)
    && headers[Signer.SignHeader]
       == prims.hmac(creds.apiSecret, Signer.StringToSign(headers[Signer.TimestampHeader], Signer.OrderMethod,
                                                         Signer.OrderEndpoint, request.body))
    && headers[Signer.PassphraseHeader] == prims.hmac(creds.apiSecret, creds.apiPassphrase)
    && headers[Signer.KeyVersionHeader] == "2"
    && headers[Signer.ContentTypeHeader] == "application/json"
  }

  /** How the order call ends the run: its data on success, a caught failure otherwise. */
  function PlacedOutcome(side: Side, placed: Result<Json, Signer.OrderError>): TradeOutcome {
    match placed
    case Ok(data) => Ordered(side, data)
    case Err(e) => Failed(OrderFailed(e))
  }

  /** The same, read off the reply to the POST (`None` when sending raises). */
  function OrderOutcome(side: Side, reply: Option<HttpResponse>): TradeOutcome {
    match reply
    case None => Failed(OrderFailed(Signer.SendFailed))
    case Some(resp) => PlacedOutcome(side, Signer.ClassifyOrderResponse(resp))
  }

  /** The order branch of `margin_trade`: `place_isolated_margin_order(signer, symbol, side,
      size=size, leverage=leverage)` with every other argument at its default, its exception
      caught. A signer made from the credentials sends exactly the order `IsOrderFor` describes. */
  method PlaceOrder(signer: Signer.KuCoinSigner, symbol: string, side: Side, size: real, leverage: int,
                    creds: Credentials, prims: Primitives, clock: Clock, freshOid: string,
                    send: Signer.OrderRequest -> Option<HttpResponse>)
    returns (request: Signer.OrderRequest, outcome: TradeOutcome)
    requires signer.apiKey == creds.apiKey && signer.apiSecret == creds.apiSecret && signer.hmac == prims.hmac
    requires signer.apiPassphrase == prims.hmac(creds.apiSecret, creds.apiPassphrase)
    ensures IsOrderFor(request, symbol, side, size, leverage, creds, prims, clock, freshOid)
    ensures outcome == OrderOutcome(side, send(request))
  {
    request := Signer.BuildOrderRequest(signer, symbol, SideText(side), size, leverage, None, false, "limit",
                                        freshOid, prims.dumps, prims.formatFloat, clock.orderMillis);
    var placed := Signer.PlaceIsolatedMarginOrder(signer, symbol, SideText(side), size, leverage, None, false, "limit",
                                                  freshOid, prims.dumps, prims.formatFloat, clock.orderMillis, send);
    outcome := PlacedOutcome(side, placed);
  }

  /** The part of `margin_trade` after the balance check: fetch the candles, compare the last
      close with the last SMA and place at most one order. */
  method TradeOnCandles(symbol: string, size: real, leverage: int, creds: Credentials, prims: Primitives,
                        clock: Clock, freshOid: string, ex: Exchange)
    returns (outcome: TradeOutcome, steps: seq<Step>)
    ensures 1 <= |steps| <= 2 && steps[0] == CandleFetch(CandleQueryFor(symbol, clock))
    ensures |steps| == 2 ==> steps[1].OrderSubmit?
    ensures !outcome.InsufficientBalance?
    ensures var candles := CandlesFor(symbol, clock, ex);
      candles.Err? ==> outcome == Failed(CandlesUnavailable(candles.error)) && |steps| == 1
    ensures var candles := CandlesFor(symbol, clock, ex);
      candles.Ok? ==>
        var decision := Decide(Ohlcv.LastClose(candles.value), prims.lastSma(candles.value));
        && (decision.None? ==> outcome == NoTrade && |steps| == 1)
        && (decision.Some? ==>
              && |steps| == 2
              && IsOrderFor(steps[1].request, symbol, decision.value, size, leverage, creds, prims, clock, freshOid)
              && outcome == OrderOutcome(decision.value, ex.orderEndpoint(steps[1].request)))
  {
    var candles := Ohlcv.FetchOhlcv(symbol, Ohlcv.DefaultGranularity, Ohlcv.DefaultLimit, clock.candleSeconds,
                                    ex.klineClient);
    assert candles == CandlesFor(symbol, clock, ex);
    steps := [CandleFetch(CandleQueryFor(symbol, clock))];
    if candles.Err? {
      outcome := Failed(CandlesUnavailable(candles.error));
      return;
    }
    var frame := candles.value;
    var lastClose := Ohlcv.LastClose(frame);
    var lastSma := prims.lastSma(frame);

    var signer := new Signer.KuCoinSigner(creds.apiKey, creds.apiSecret, creds.apiPassphrase, prims.hmac);

    var decision := Decide(lastClose, lastSma);
    if decision.None? {
      outcome := NoTrade;
      return;
    }
    var request;
    var side := decision.value;
    request, outcome := PlaceOrder(signer, symbol, side, size, leverage, creds, prims, clock, freshOid,
                                   ex.orderEndpoint);
    steps := steps + [OrderSubmit(request)];
  }

  /** `margin_trade(symbol, size, leverage)`. Every exception on the way ends the run as
      `Failed`; none escapes. */
  method MarginTrade(symbol: string, size: real, leverage: int, creds: Credentials, prims: Primitives,
                     clock: Clock, freshOid: string, ex: Exchange)
    returns (outcome: TradeOutcome, steps: seq<Step>)
    ensures |steps| >= 1 && steps[0] == BalanceLookup(symbol)
    ensures var balance := BalanceFor(symbol, creds, prims, clock, ex);
      && (balance < MinimumBalance <==> outcome.InsufficientBalance?)
      && (balance < MinimumBalance ==> outcome == InsufficientBalance(balance) && steps == [BalanceLookup(symbol)])
      && (balance >= MinimumBalance ==> |steps| >= 2 && steps[1] == CandleFetch(CandleQueryFor(symbol, clock)))
    ensures |steps| <= 3 && (|steps| == 3 ==> steps[2].OrderSubmit?)
    ensures var candles := CandlesFor(symbol, clock, ex);
      |steps| >= 2 && candles.Err? ==> outcome == Failed(CandlesUnavailable(candles.error)) && |steps| == 2
    ensures var candles := CandlesFor(symbol, clock, ex);
      |steps| >= 2 && candles.Ok? ==>
        var decision := Decide(Ohlcv.LastClose(candles.value), prims.lastSma(candles.value));
        && (decision.None? ==> outcome == NoTrade && |steps| == 2)
        && (decision.Some? ==>
              && |steps| == 3
              && IsOrderFor(steps[2].request, symbol, decision.value, size, leverage, creds, prims, clock, freshOid)
              && outcome == OrderOutcome(decision.value, ex.orderEndpoint(steps[2].request)))
  {
    var balance := GetBalance(symbol, CredentialsEnv(creds), clock.balanceMillis, prims.hmac,
                              prims.parseFloat, ex.balanceEndpoint);
    assert balance == BalanceFor(symbol, creds, prims, clock, ex);
    if balance < MinimumBalance {
      outcome, steps := InsufficientBalance(balance), [BalanceLookup(symbol)];
      return;
    }
    var rest;
    outcome, rest := TradeOnCandles(symbol, size, leverage, creds, prims, clock, freshOid, ex);
    steps := [BalanceLookup(symbol)] + rest;
    assert steps[1..] == rest;
  }
}
