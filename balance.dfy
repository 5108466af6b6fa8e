/** The isolated-margin balance lookup of kucoin_utils.py: a signed GET of the isolated-margin
    accounts, a first-match search of the asset list, and a zero balance on every failure. */
module IsolatedBalance {
  import opened Basics
  import Text
  import opened Json
  import opened Http
  import Signer

  const AccountsEndpoint := "/api/v1/isolated/accounts"

  /** The three `os.getenv` readings; `None` for a variable that is not set. */
  datatype Env = Env(apiKey: Option<string>, apiSecret: Option<string>, apiPassphrase: Option<string>)

  /** The headers of the GET at clock reading `nowMillis`, or `None` when building them raises
      (`.encode()` of a missing secret or passphrase). A missing key leaves `KC-API-KEY` out, as
      `requests` drops headers whose value is `None`. There is no Content-Type. */
  function BalanceHeaders(env: Env, nowMillis: nat, hmac: (string, string) -> string): (r: Option<Headers>)
    ensures r.Some? <==> env.apiSecret.Some? && env.apiPassphrase.Some?
    ensures r.Some? ==>
      var h := r.value;
      && h.Keys == (if env.apiKey.Some? then {Signer.KeyHeader} else {})
                   + {Signer.SignHeader, Signer.TimestampHeader, Signer.PassphraseHeader, Signer.KeyVersionHeader}
      && h[Signer.TimestampHeader] == Text.NatToString(nowMillis)
      && h[Signer.SignHeader] == hmac(env.apiSecret.value,
                                      Signer.StringToSign(h[Signer.TimestampHeader], "GET", AccountsEndpoint, ""))
      && h[Signer.PassphraseHeader] == hmac(env.apiSecret.value, env.apiPassphrase.value)
      && h[Signer.KeyVersionHeader] == "2"
      && (env.apiKey.Some? ==> h[Signer.KeyHeader] == env.apiKey.value)
  {
    match (env.apiSecret, env.apiPassphrase)
    case (Some(secret), Some(passphrase)) =>
      var timestamp := Text.NatToString(nowMillis);
      var signature := hmac(secret, timestamp + "GET" + AccountsEndpoint);
      Text.UpperKeepsCapitals("GET");
      assert Signer.StringToSign(timestamp, "GET", AccountsEndpoint, "") == timestamp + "GET" + AccountsEndpoint;
      var common := map[
        Signer.SignHeader := signature,
        Signer.TimestampHeader := timestamp,
        Signer.PassphraseHeader := hmac(secret, passphrase),
        Signer.KeyVersionHeader := "2"
      ];
      Some(match env.apiKey
           case Some(key) => common[Signer.KeyHeader := key]
           case None => common)
    case _ => None
  }

  /** With all three credentials set, the GET carries exactly the headers a `KuCoinSigner` of the
      same credentials produces for `GET` of the accounts endpoint with an empty body, less the
      Content-Type: the same signature layout and the same passphrase signature. */
  lemma BalanceHeadersAgreeWithSigner(signer: Signer.KuCoinSigner, key: string, secret: string, passphrase: string,
                                      nowMillis: nat)
    requires signer.apiKey == key && signer.apiSecret == secret
    requires signer.apiPassphrase == signer.hmac(secret, passphrase)
    ensures BalanceHeaders(Env(Some(key), Some(secret), Some(passphrase)), nowMillis, signer.hmac)
         == Some(signer.GenerateHeaders("GET", AccountsEndpoint, "", nowMillis) - {Signer.ContentTypeHeader})
  {
    var h := BalanceHeaders(Env(Some(key), Some(secret), Some(passphrase)), nowMillis, signer.hmac).value;
    var g := signer.GenerateHeaders("GET", AccountsEndpoint, "", nowMillis) - {Signer.ContentTypeHeader};
    assert h.Keys == g.Keys;
    forall k | k in h.Keys ensures h[k] == g[k] {
    }
    assert h == g;
  }

  /** What the loop body does with one entry of the asset list: a match yields its balance, an
      entry of another symbol is passed over, and anything that makes the indexing or `float()`
      raise is a fault. */
  datatype Probe = Miss | Hit(balance: real) | Fault

  function ProbeAccount(account: Json, symbol: string, parseFloat: string -> Option<real>): (p: Probe)
    ensures p.Miss? <==> account.JObj? && "symbol" in account.members && account.members["symbol"] != JStr(symbol)
    ensures p.Hit? <==>
      && account.JObj? && "symbol" in account.members && account.members["symbol"] == JStr(symbol)
      && "baseAsset" in account.members && account.members["baseAsset"].JObj?
      && "availableBalance" in account.members["baseAsset"].members
      && FloatOf(parseFloat, account.members["baseAsset"].members["availableBalance"]).Some?
    ensures p.Hit? ==> Some(p.balance) == FloatOf(parseFloat, account.members["baseAsset"].members["availableBalance"])
  {
    match account
    case JObj(m) =>
      if "symbol" !in m then Fault
      else if m["symbol"] != JStr(symbol) then Miss
      else if "baseAsset" !in m || !m["baseAsset"].JObj? then Fault
      else if "availableBalance" !in m["baseAsset"].members then Fault
      else (match FloatOf(parseFloat, m["baseAsset"].members["availableBalance"])
            case Some(v) => Hit(v)
            case None => Fault)
    case _ => Fault
  }

  /** The outcome of the whole `for` loop. */
  datatype Scan = Found(balance: real) | Exhausted | Raised

  function ScanAssets(assets: seq<Json>, symbol: string, parseFloat: string -> Option<real>): Scan {
    if assets == [] then Exhausted
    else match ProbeAccount(assets[0], symbol, parseFloat)
      case Hit(v) => Found(v)
      case Fault => Raised
      case Miss => ScanAssets(assets[1..], symbol, parseFloat)
  }

  /** The first matching entry decides, provided every entry before it is passed over. */
  lemma {:induction false} FirstMatchWins(assets: seq<Json>, symbol: string, parseFloat: string -> Option<real>, i: nat)
    requires i < |assets| && ProbeAccount(assets[i], symbol, parseFloat).Hit?
    requires forall j :: 0 <= j < i ==> ProbeAccount(assets[j], symbol, parseFloat).Miss?
    ensures ScanAssets(assets, symbol, parseFloat) == Found(ProbeAccount(assets[i], symbol, parseFloat).balance)
  {
    if i > 0 {
      FirstMatchWins(assets[1..], symbol, parseFloat, i - 1);
    }
  }

  /** A balance found comes from the first entry that is not passed over. */
  lemma {:induction false} FoundIsFirstMatch(assets: seq<Json>, symbol: string, parseFloat: string -> Option<real>, v: real)
    requires ScanAssets(assets, symbol, parseFloat) == Found(v)
    ensures exists i :: (0 <= i < |assets| && ProbeAccount(assets[i], symbol, parseFloat) == Hit(v)
      && forall j :: 0 <= j < i ==> ProbeAccount(assets[j], symbol, parseFloat).Miss?)
  {
    if ProbeAccount(assets[0], symbol, parseFloat).Miss? {
      FoundIsFirstMatch(assets[1..], symbol, parseFloat, v);
      var i :| 0 <= i < |assets[1..]| && ProbeAccount(assets[1..][i], symbol, parseFloat) == Hit(v)
        && forall j :: 0 <= j < i ==> ProbeAccount(assets[1..][j], symbol, parseFloat).Miss?;
      assert ProbeAccount(assets[i + 1], symbol, parseFloat) == Hit(v);
      forall j | 0 <= j < i + 1 ensures ProbeAccount(assets[j], symbol, parseFloat).Miss? {
        if j > 0 {
          assert assets[j] == assets[1..][j - 1];
        }
      }
    }
  }

  /** A list in which no entry names the symbol, and none faults, runs to its end. */
  lemma {:induction false} NoMatchRunsOut(assets: seq<Json>, symbol: string, parseFloat: string -> Option<real>)
    requires forall j :: 0 <= j < |assets| ==> ProbeAccount(assets[j], symbol, parseFloat).Miss?
    ensures ScanAssets(assets, symbol, parseFloat) == Exhausted
  {
    if assets != [] {
      assert forall j :: 0 <= j < |assets[1..]| ==> assets[1..][j] == assets[j + 1];
      NoMatchRunsOut(assets[1..], symbol, parseFloat);
    }
  }

  /** What `for account in data['data']['assets']` iterates over, or `None` when the indexing or
      the iteration raises. Iterating a dictionary yields its keys, which are strings, so a
      non-empty dictionary raises on the first `account['symbol']`; it is `None` here too. */
  function AssetList(data: Json): (r: Option<seq<Json>>)
    ensures data.JObj? && "data" in data.members && data.members["data"].JObj?
            && "assets" in data.members["data"].members && data.members["data"].members["assets"].JArr?
            ==> r == Some(data.members["data"].members["assets"].items)
    ensures r.Some? && r.value != [] ==>
      data.JObj? && "data" in data.members && data.members["data"].JObj?
      && "assets" in data.members["data"].members
  {
    match data
    case JObj(top) =>
      if "data" in top && top["data"].JObj? && "assets" in top["data"].members then
        match top["data"].members["assets"]
        case JArr(items) => Some(items)
        case JStr(s) => Some(seq(|s|, i requires 0 <= i < |s| => JStr([s[i]])))
        case JObj(m) => if m == map[] then Some([]) else None
        case _ => None
      else None
    case _ => None
  }

  /** `get_isolated_margin_balance_http(symbol)` as a value: the reading of the environment
      `env`, the clock `nowMillis`, the HMAC primitive, Python's `float` on text, and the GET
      itself as `send` (`None` when it raises). */
  function IsolatedMarginBalance(symbol: string, env: Env, nowMillis: nat, hmac: (string, string) -> string,
                                 parseFloat: string -> Option<real>, send: Headers -> Option<HttpResponse>): real
  {
    match BalanceHeaders(env, nowMillis, hmac)
    case None => 0.0
    case Some(headers) =>
      match send(headers)
      case None => 0.0
      case Some(resp) =>
        if resp.status != 200 then 0.0
        else match resp.json
          case None => 0.0
          case Some(data) =>
            match AssetList(data)
            case None => 0.0
            case Some(assets) =>
              match ScanAssets(assets, symbol, parseFloat)
              case Found(v) => v
              case _ => 0.0
  }

  /** A non-zero balance was read from the first matching entry of a 200 response to the signed
      GET; every other path, whatever failed, ends in 0.0. */
  lemma NonZeroMeansFound(symbol: string, env: Env, nowMillis: nat, hmac: (string, string) -> string,
                          parseFloat: string -> Option<real>, send: Headers -> Option<HttpResponse>)
    requires IsolatedMarginBalance(symbol, env, nowMillis, hmac, parseFloat, send) != 0.0
    ensures var v := IsolatedMarginBalance(symbol, env, nowMillis, hmac, parseFloat, send);
      && BalanceHeaders(env, nowMillis, hmac).Some?
      && var reply := send(BalanceHeaders(env, nowMillis, hmac).value);
      && reply.Some? && reply.value.status == 200 && reply.value.json.Some?
      && var assets := AssetList(reply.value.json.value);
      && assets.Some?
      && exists i :: (0 <= i < |assets.value| && ProbeAccount(assets.value[i], symbol, parseFloat) == Hit(v)
           && forall j :: 0 <= j < i ==> ProbeAccount(assets.value[j], symbol, parseFloat).Miss?)
  {
    var v := IsolatedMarginBalance(symbol, env, nowMillis, hmac, parseFloat, send);
    var reply := send(BalanceHeaders(env, nowMillis, hmac).value);
    FoundIsFirstMatch(AssetList(reply.value.json.value).value, symbol, parseFloat, v);
  }

  /** A 200 reply whose first matching entry follows only entries of other symbols yields that
      entry's available balance. */
  lemma FirstMatchIsBalance(symbol: string, env: Env, nowMillis: nat, hmac: (string, string) -> string,
                            parseFloat: string -> Option<real>, send: Headers -> Option<HttpResponse>, i: nat)
    requires BalanceHeaders(env, nowMillis, hmac).Some?
    requires var reply := send(BalanceHeaders(env, nowMillis, hmac).value);
      && reply.Some? && reply.value.status == 200 && reply.value.json.Some?
      && var assets := AssetList(reply.value.json.value);
      && assets.Some? && i < |assets.value|
      && ProbeAccount(assets.value[i], symbol, parseFloat).Hit?
      && forall j :: 0 <= j < i ==> ProbeAccount(assets.value[j], symbol, parseFloat).Miss?
    ensures var assets := AssetList(send(BalanceHeaders(env, nowMillis, hmac).value).value.json.value).value;
      IsolatedMarginBalance(symbol, env, nowMillis, hmac, parseFloat, send)
      == ProbeAccount(assets[i], symbol, parseFloat).balance
  {
    var reply := send(BalanceHeaders(env, nowMillis, hmac).value);
    FirstMatchWins(AssetList(reply.value.json.value).value, symbol, parseFloat, i);
  }

  /** A status other than 200 is masked as a zero balance. */
  lemma NonOkStatusIsZero(symbol: string, env: Env, nowMillis: nat, hmac: (string, string) -> string,
                          parseFloat: string -> Option<real>, send: Headers -> Option<HttpResponse>)
    requires BalanceHeaders(env, nowMillis, hmac).Some?
    requires var reply := send(BalanceHeaders(env, nowMillis, hmac).value);
      reply.Some? && reply.value.status != 200
    ensures IsolatedMarginBalance(symbol, env, nowMillis, hmac, parseFloat, send) == 0.0
  {
  }

  /** A well-formed response whose assets all name other symbols gives 0.0. */
  lemma UnknownSymbolIsZero(symbol: string, env: Env, nowMillis: nat, hmac: (string, string) -> string,
                            parseFloat: string -> Option<real>, send: Headers -> Option<HttpResponse>)
    requires BalanceHeaders(env, nowMillis, hmac).Some?
    requires var reply := send(BalanceHeaders(env, nowMillis, hmac).value);
      && reply.Some? && reply.value.status == 200 && reply.value.json.Some?
      && var assets := AssetList(reply.value.json.value);
      && assets.Some?
      && forall j :: 0 <= j < |assets.value| ==> ProbeAccount(assets.value[j], symbol, parseFloat).Miss?
    ensures IsolatedMarginBalance(symbol, env, nowMillis, hmac, parseFloat, send) == 0.0
  {
    var reply := send(BalanceHeaders(env, nowMillis, hmac).value);
    NoMatchRunsOut(AssetList(reply.value.json.value).value, symbol, parseFloat);
  }

  /** `get_isolated_margin_balance_http`, step by step; the `for` loop returns at the first
      matching entry and any exception is caught and turned into 0.0. */
  method GetIsolatedMarginBalanceHttp(symbol: string, env: Env, nowMillis: nat, hmac: (string, string) -> string,
                                      parseFloat: string -> Option<real>, send: Headers -> Option<HttpResponse>)
    returns (balance: real)
    ensures balance == IsolatedMarginBalance(symbol, env, nowMillis, hmac, parseFloat, send)
  {
    var headers := BalanceHeaders(env, nowMillis, hmac);
    if headers.None? {
      return 0.0;
    }
    var reply := send(headers.value);
    if reply.None? || reply.value.status != 200 || reply.value.json.None? {
      return 0.0;
    }
    var assets := AssetList(reply.value.json.value);
    if assets.None? {
      return 0.0;
    }
    var accounts := assets.value;
    var i := 0;
    while i < |accounts|
      invariant 0 <= i <= |accounts|
      invariant ScanAssets(accounts[i..], symbol, parseFloat) == ScanAssets(accounts, symbol, parseFloat)
    {
      match ProbeAccount(accounts[i], symbol, parseFloat)
      case Hit(v) =>
        return v;
      case Fault =>
        return 0.0;
      case Miss =>
        assert accounts[i..][1..] == accounts[i + 1..];
        i := i + 1;
    }
    return 0.0;
  }
}
