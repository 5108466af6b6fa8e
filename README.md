# cryptobot — a Dafny model of its trading core

cryptobot is a small KuCoin trading script. At start-up it loads three API credentials. Its
`margin_trade` then runs one pass of a simple-moving-average strategy on an isolated-margin
account:

- read the isolated-margin balance of the trading pair, and give up below 2;
- fetch the last 50 fifteen-minute candles;
- compare the last close with the last 20-period SMA;
- place one market order: a buy when the close is above the SMA, a sell when it is below,
  none when they are equal.

Orders and balance requests are signed with KuCoin's API-key version 2 scheme. Every private
request carries:

- the key;
- a base64 HMAC-SHA256 signature of `timestamp + METHOD + endpoint + body`;
- the millisecond timestamp that was signed;
- a signature of the passphrase;
- key version "2".

The model has eight modules in seven files; `Json` and `Http` share one file:

- `Basics`: `Option` and `Result`, which stand for the exceptions the scripts raise or catch.
- `Text`: Python's `str(int)` and an ASCII `str.upper()`, with their round trip and
  injectivity lemmas.
- `Json` and `Http`:
  - parsed JSON values, Python's `float()` of a JSON value, and the body field list with
    dictionary lookup;
  - the response record and the host name.
- `Ohlcv`: `fetch_ohlcv`, which covers:
  - the 13-entry granularity table, checked against an independent unit-label rule;
  - the time window;
  - the column naming of ragged tables;
  - the "no data is an error" rule;
  - the sort by timestamp, proved sorted and a permutation.
- `Signer`: the `KuCoinSigner` class and `place_isolated_margin_order`.
  - The class's fields are set once by its constructor, which replaces the passphrase by its
    signature.
  - The order request and the classification of its reply are functions.
- `IsolatedBalance`: `get_isolated_margin_balance_http`.
  - The sign string and headers are functions.
  - The first-match asset search is a `while` loop proved against a recursive specification.
  - Every error folds to 0.0.
- `Strategy`: `get_balance`, the close-versus-SMA rule, and `margin_trade` as a method. The
  method records the exchange calls it makes, in order, and proves the early return, the single
  order and how that order is signed.

The outside world comes in as parameters:

- the clock readings;
- the client order id that `uuid4` would produce;
- the two HTTP endpoints (the balance GET and the order POST) and the vendor kline client, each
  a function from the request to the reply;
- HMAC-SHA256-then-base64;
- `float()` of text and `str()` of a float;
- `json.dumps` of a body;
- the final value of the SMA indicator.

A NaN (an SMA over too few candles, or a missing cell of a ragged table) is `None`. Every
comparison with NaN is false, so it means "no trade".

## Model

| member | source | states |
|---|---|---|
| `Text.NatToString` | place_isolated_margin_order.py:36 | `str()` of a natural number is a non-empty string of decimal digits with no leading zero |
| `Text.IntToString` | place_isolated_margin_order.py:78 | `str(leverage)` starts with a minus sign exactly when the leverage is negative, followed by the digits of its magnitude |
| `Text.DigitsValueOfNatToString` | place_isolated_margin_order.py:36 | the digits of a timestamp read back as that timestamp |
| `Text.NatToStringInjective` | place_isolated_margin_order.py:36 | different millisecond readings give different timestamp texts |
| `Text.Upper` | place_isolated_margin_order.py:37 | `method.upper()` keeps the length and upper-cases each ASCII letter in place |
| `Text.UpperKeepsCapitals` | place_isolated_margin_order.py:37 | a method name without lower-case letters, such as "GET" or "POST", is unchanged by upper-casing |
| `Signer.StringToSign` | place_isolated_margin_order.py:37 | the text signed for a request: timestamp, upper-cased method, endpoint, body (its layout is proved by `StringToSignLayout`) |
| `Signer.StringToSignLayout` | place_isolated_margin_order.py:37 | the signed text splits into the whole timestamp, then the whole upper-cased method, the whole endpoint and the whole body, in that order, with nothing between them |
| `Json.FloatOf` | kucoin_utils.py:64 | `float()` of a JSON number is that number, of a string its parse, of a boolean 1.0 or 0.0, and of null, a list or a dictionary it raises |
| `Ohlcv.KlineType` | main.py:54-73 | a granularity is accepted exactly when it is one of the 13 values 60 … 604800; its label is the one the independent unit rule writes (`900` → "15min", `86400` → "1day"); any other value is rejected with `ValueError` carrying the value |
| `Ohlcv.GranularityLabels` | main.py:54-68 | every table entry is a positive whole number of minutes whose label is written in its largest whole unit |
| `Ohlcv.CandleWindow` | main.py:76-77 | the window ends at the clock reading and spans exactly `limit * granularity` seconds |
| `Ohlcv.Width` | main.py:83 | the table is as wide as its longest row |
| `Ohlcv.ColumnNames` | main.py:87-91 | a table of width n ≥ 6 gets n names: timestamp, open, close, high, low, volume, then `extra_col_0` … `extra_col_{n-7}`; a narrower one raises `ValueError` |
| `Ohlcv.ColumnNamesDistinct` | main.py:87-89 | no two columns get the same name |
| `Ohlcv.Insert` | main.py:95 | inserting a row into an ordered table keeps it ordered by timestamp and adds exactly that row |
| `Ohlcv.SortByTimestamp` | main.py:95 | the sorted table is in ascending timestamp order, with rows that have no timestamp last, and is a permutation of the input rows |
| `Ohlcv.FetchOhlcv` | main.py:52-99 | an invalid granularity gives `InvalidGranularity`; a table is only produced from a non-empty reply to the query for the window, has at least six named columns starting with the expected six, and holds exactly the reply's rows in timestamp order |
| `Ohlcv.FetchOhlcvCases` | main.py:70-99 | for an accepted granularity: a table exactly when the reply to the window query holds rows at least six columns wide, its columns then being `ColumnNames` of that width (with its `extra_col_i` names); a raising client gives `ClientFailure`; a missing or empty reply gives `NoData`; rows narrower than six give `TooFewColumns` |
| `Ohlcv.RejectedBeforeClient` | main.py:70-80 | an invalid granularity fails the same way whatever the client would answer, so the client is never consulted |
| `Ohlcv.EmptyReplyFails` | main.py:81-99 | a missing or empty kline reply raises instead of giving an empty table |
| `Ohlcv.LastCloseCell` | main.py:160 | in a fetched table, column 2 is "close", and `LastClose` is the close cell of the last row, which holds the latest timestamp; NaN exactly when that row is too short to have one |
| `Ohlcv.LastClose` | main.py:160 | `df["close"].iloc[-1]`: the close cell of the last row, or NaN (`None`) for a padded row (its facts are proved by `LastCloseCell`) |
| `Signer.SignedTextFixesTimestamp` | place_isolated_margin_order.py:36-37 | equal signed texts have equal timestamps and equal method, endpoint and body parts, so the signature fixes the time |
| `Signer.KuCoinSigner.constructor` | place_isolated_margin_order.py:16-19 | the key and secret are stored, and the stored passphrase is the HMAC of the passphrase under the secret |
| `Signer.KuCoinSigner.Sign` | place_isolated_margin_order.py:24-30 | `_sign`: the HMAC-SHA256-then-base64 of the text keyed by the stored secret; the primitive itself is a parameter |
| `Signer.KuCoinSigner.GenerateHeaders` | place_isolated_margin_order.py:32-47 | exactly six headers; the timestamp header is the millisecond reading; the signature is over that timestamp, the upper-cased method, the endpoint and the body, in that order; key, stored passphrase signature, version "2", content type "application/json" |
| `Signer.PassphraseSignedOnce` | place_isolated_margin_order.py:16-44 | the passphrase header is the same signature of the passphrase on every request at every time |
| `Signer.ResolveClientOid` | place_isolated_margin_order.py:70-72 | a supplied client order id is used verbatim; the fresh id only when none is given |
| `Signer.OrderFields` | place_isolated_margin_order.py:74-85 | the order dictionary has exactly ten entries, one under each of symbol, side, size, leverage, tradeType, isIsolated, type, autoBorrow, clientOid, autoRepay, in that insertion order |
| `Signer.OrderFieldsContent` | place_isolated_margin_order.py:74-85 | whatever the arguments, the body says tradeType "MARGIN_TRADE", isIsolated true, type "market" and autoBorrow true, and carries symbol, side, the size and leverage texts, the client id and autoRepay under their own keys |
| `Signer.BuildOrderRequest` | place_isolated_margin_order.py:65-88 | the POST goes to the order URL; its headers are exactly what the signer generates for "POST", `/api/v3/hf/margin/order` and the body (so key, passphrase signature and version "2" too); its body is the serialized order dictionary; its signature is over the timestamp header, "POST", the endpoint and that very body |
| `Signer.ClassifyOrderResponse` | place_isolated_margin_order.py:93-102 | a status other than 200 raises with the status and text; a 200 returns the parsed body exactly when it is JSON, `"msg" in` it does not raise (not a number, boolean or null) and the log line's `response_data['msg']` does not raise (not a list holding "msg", not a string containing "msg"); a dictionary is returned with or without "msg" |
| `Signer.MessageReplies` | place_isolated_margin_order.py:93-99 | a 200 dictionary with "msg" is handed back; a 200 list `["msg"]` or text `"bad msg"` raises `TypeError` at the log line |
| `Signer.PlaceIsolatedMarginOrder` | place_isolated_margin_order.py:50-102 | a POST that raises gives a send failure; a status other than 200 gives `Rejected` with the status and text; the result is `Ok` exactly for a 200 reply with a JSON body on which neither `"msg" in` nor the logged `response_data['msg']` raises, and then it is that JSON |
| `Signer.OrderTypeIgnored` | place_isolated_margin_order.py:50-85 | the `type` argument changes neither the request nor the result |
| `IsolatedBalance.BalanceHeaders` | kucoin_utils.py:20-49 | headers exist exactly when secret and passphrase are set; there are five keys (the key only when it is set) and no Content-Type; the signature is over the timestamp, "GET" and `/api/v1/isolated/accounts` with no body part; the passphrase header is HMAC(secret, passphrase); version "2" |
| `IsolatedBalance.BalanceHeadersAgreeWithSigner` | kucoin_utils.py:32-49 | with all credentials set, the headers are those a `KuCoinSigner` of the same credentials makes for GET of the accounts endpoint with an empty body, less the Content-Type |
| `IsolatedBalance.ProbeAccount` | kucoin_utils.py:63-64 | an asset entry is passed over exactly when it names another symbol, yields the float of its available base balance exactly when it names the symbol and that value converts, and raises otherwise |
| `IsolatedBalance.ScanAssets` | kucoin_utils.py:62-66 | the outcome of the `for` loop over the assets: the first entry that is not passed over decides (its balance, or a raise); a list with only other symbols runs out (proved by `FirstMatchWins`, `FoundIsFirstMatch` and `NoMatchRunsOut`) |
| `IsolatedBalance.FirstMatchWins` | kucoin_utils.py:62-64 | the search returns the balance of the first matching entry when every entry before it names another symbol |
| `IsolatedBalance.FoundIsFirstMatch` | kucoin_utils.py:62-64 | a balance found comes from a matching entry with only non-matching entries before it |
| `IsolatedBalance.NoMatchRunsOut` | kucoin_utils.py:62-66 | a list in which every entry names another symbol runs to its end |
| `IsolatedBalance.AssetList` | kucoin_utils.py:62 | an array under `data.assets` of a JSON object is iterated as that array; a non-empty list is only found there |
| `IsolatedBalance.IsolatedMarginBalance` | kucoin_utils.py:10-70 | the value of `get_isolated_margin_balance_http`: the first matching balance of a 200 reply to the signed GET, 0.0 on every other path (proved by the lemmas that follow) |
| `IsolatedBalance.NonZeroMeansFound` | kucoin_utils.py:10-70 | a non-zero balance comes from a 200 reply to the signed GET and from its first matching asset; every other path ends in 0.0 |
| `IsolatedBalance.FirstMatchIsBalance` | kucoin_utils.py:62-64 | a 200 reply whose entry i matches the symbol, with only other symbols before it, yields the available balance of entry i |
| `IsolatedBalance.NonOkStatusIsZero` | kucoin_utils.py:55-56 | a status other than 200 yields 0.0 |
| `IsolatedBalance.UnknownSymbolIsZero` | kucoin_utils.py:62-66 | a well-formed reply in which no asset names the symbol yields 0.0 |
| `IsolatedBalance.GetIsolatedMarginBalanceHttp` | kucoin_utils.py:10-70 | the loop over the assets, with its early return and its 0.0 fallbacks, returns the balance the specification defines |
| `Strategy.Decide` | main.py:169-176 | buy exactly when the close is above the SMA, sell exactly when it is below, nothing when they are equal or either is NaN |
| `Strategy.DecideMirror` | main.py:169-176 | exchanging close and SMA exchanges buy and sell and keeps "nothing" |
| `Strategy.GetBalance` | main.py:118-133 | the balance is the helper's value, and it is non-zero only when the secret and passphrase are set |
| `Strategy.CandleQueryFor` | main.py:155 | the strategy asks for 15-minute candles of the trading pair itself, over a window ending now and spanning 50 × 900 seconds |
| `Strategy.PlaceOrder` | main.py:166-174 | a signer built from the credentials sends the market order for the chosen side, with size and leverage unchanged, signed over its exact body at the order clock, with key, passphrase signature, version "2" and content type "application/json"; the outcome is read off the reply |
| `Strategy.TradeOnCandles` | main.py:155-176 | after the balance check: the candles of the pair are fetched first; a fetch failure, or a NaN or equal comparison, ends without an order; otherwise exactly one order is sent, the signed order (`IsOrderFor`) for the side `Decide` picks, and the outcome is its reply's |
| `Strategy.MarginTrade` | main.py:136-178 | the balance is looked up first; below 2 the run stops with no other call; otherwise the candles are fetched; a fetch failure, or a NaN/equal comparison, ends without an order; else exactly one order is sent, the signed order (`IsOrderFor`) for that side, and the outcome is its reply's; nothing raises |

## Left out

- Forcing IPv4 in `configure_ipv4`: it is socket configuration.
- Loading `.env` and the start-up checks. The credentials reach `margin_trade` as strings
  (`Credentials`); the start-up check makes them non-empty, and the model does not rely on it.
  The balance helper reads them as `Env`, where each may be missing.
- The HTTP calls and the vendor kline client. Each is a parameter that maps the request to the
  reply.
  - A `None` reply stands for a call that raised.
  - The balance GET's fixed URL is implied by its parameter.
  - The HTTP status, the parsed JSON and the text are the reply's fields.
- The internals of HMAC-SHA256 and base64: `hmac` is an uninterpreted function. Collision
  resistance is not assumed, so no lemma claims that different inputs give different
  signatures.
- `json.dumps` is the supplied `dumps`: the model fixes the field list and its order, not the
  text.
- `time.time()` and `uuid.uuid4()` are parameters: one reading per call site, and the fresh id.
- The SMA arithmetic of `ta`: only its last value enters, as `lastSma` of the table.
  `calculate_sma` adding the `sma` column in place is not modelled further.
- The table as a mutable pandas object: `fetch_ohlcv` is modelled on values (columns and rows),
  because the DataFrame is local and never aliased. `pd.to_datetime` and `astype(float)` are
  left out, so cells are already reals and timestamps are compared as numbers. A
  `to_datetime` or `astype` that raises is not modelled.
- Sort stability: pandas' default quicksort is not stable. The model fixes one order and states
  only sortedness and the permutation.
- Python floats. Prices and balances are reals.
  - `float()` of text is the supplied `parseFloat`; texts that Python reads as nan or inf are
    whatever that function gives, with no NaN balance.
  - `str(size)` is the supplied `formatFloat`. That includes the integer default size 10,
    whose text is "10".
- `Text.Upper`: only ASCII letters are upper-cased, not Python's full Unicode mapping. The
  methods the scripts use are "GET" and "POST".
- Printing and logging, including the missing-credentials warning of `KuCoinSigner.__init__`.
- A missing secret in `KuCoinSigner.__init__` (an `AttributeError` in Python): the class takes
  strings.
- `get_balance`'s `except` branch: the helper catches every exception, so the branch is
  unreachable and not modelled.
- Dictionary iteration order when the asset list is itself a dictionary. A non-empty one raises
  on its first entry; an empty one gives no entries.
- `Strategy.MarginTrade` does not model the return value, which is always `None` in the script:
  `outcome` records which branch was taken and the order reply. A failure of
  `calculate_sma`, or of `iloc[-1]` on the SMA column, is not modelled.
