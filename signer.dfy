/** Request signing and order submission of place_isolated_margin_order.py, following KuCoin's
    API-key version 2 authentication: every private request carries the key, a signature of
    `timestamp + METHOD + endpoint + body`, the timestamp itself and a signature of the
    passphrase, all signatures being base64(HMAC-SHA256) keyed by the API secret. */
module Signer {
  import opened Basics
  import Text
  import opened Json
  import opened Http

  const KeyHeader := "KC-API-KEY"
  const SignHeader := "KC-API-SIGN"
  const TimestampHeader := "KC-API-TIMESTAMP"
  const PassphraseHeader := "KC-API-PASSPHRASE"
  const KeyVersionHeader := "KC-API-KEY-VERSION"
  const ContentTypeHeader := "Content-Type"

  /** The six headers of every signed request. */
  const SignedHeaderNames: set<string> :=
    {KeyHeader, SignHeader, TimestampHeader, PassphraseHeader, KeyVersionHeader, ContentTypeHeader}

  /** The text that is signed for one request. */
  function StringToSign(timestamp: string, verb: string, endpoint: string, body: string): string {
    timestamp + Text.Upper(verb) + endpoint + body
  }

  /** The signed text is the timestamp, then the upper-cased method, then the endpoint, then the
      body, each whole and in that order. */
  lemma StringToSignLayout(timestamp: string, verb: string, endpoint: string, body: string)
    ensures var r := StringToSign(timestamp, verb, endpoint, body);
      && |r| == |timestamp| + |verb| + |endpoint| + |body|
      && r[..|timestamp|] == timestamp
      && r[|timestamp|..|timestamp| + |verb|] == Text.Upper(verb)
      && r[|timestamp| + |verb|..|r| - |body|] == endpoint
      && r[|r| - |body|..] == body
  {
    var u := Text.Upper(verb);
    var r := StringToSign(timestamp, verb, endpoint, body);
    assert r == ((timestamp + u) + endpoint) + body;
    assert r[..|timestamp| + |u| + |endpoint|] == (timestamp + u) + endpoint;
    assert r[..|timestamp| + |u|] == timestamp + u;
  }

  /** Two signed texts that agree were made at the same millisecond and for the same request
      line: the timestamp cannot be shifted into the method or back. */
  lemma {:induction false} SignedTextFixesTimestamp(t1: nat, m1: string, e1: string, b1: string,
                                                    t2: nat, m2: string, e2: string, b2: string)
    requires m1 != [] && !Text.IsDigit(m1[0])
    requires m2 != [] && !Text.IsDigit(m2[0])
    requires StringToSign(Text.NatToString(t1), m1, e1, b1) == StringToSign(Text.NatToString(t2), m2, e2, b2)
    ensures t1 == t2
    ensures Text.Upper(m1) + e1 + b1 == Text.Upper(m2) + e2 + b2
  {
    var d1, d2 := Text.NatToString(t1), Text.NatToString(t2);
    var r1, r2 := Text.Upper(m1) + e1 + b1, Text.Upper(m2) + e2 + b2;
    assert StringToSign(d1, m1, e1, b1) == d1 + r1;
    assert StringToSign(d2, m2, e2, b2) == d2 + r2;
    assert r1[0] == Text.UpperChar(m1[0]) && r2[0] == Text.UpperChar(m2[0]);
    DigitPrefixSplits(d1, r1, d2, r2);
    Text.NatToStringInjective(t1, t2);
  }

  /** A run of digits followed by a text that does not start with a digit splits one way only. */
  lemma DigitPrefixSplits(d1: string, r1: string, d2: string, r2: string)
    requires Text.AllDigits(d1) && Text.AllDigits(d2)
    requires r1 != [] && !Text.IsDigit(r1[0]) && r2 != [] && !Text.IsDigit(r2[0])
    requires d1 + r1 == d2 + r2
    ensures d1 == d2 && r1 == r2
  {
    Text.LeadingDigitsOfConcat(d1, r1);
    Text.LeadingDigitsOfConcat(d2, r2);
    assert r1 == (d1 + r1)[|d1|..];
    assert r2 == (d2 + r2)[|d2|..];
  }

  /** `KuCoinSigner`: the credentials of one API key. The HMAC-SHA256-then-base64 primitive is
      the field `hmac`; `hmac(key, message)` is what `_sign` computes with the secret as key. */
  class KuCoinSigner {
    const apiKey: string
    const apiSecret: string
    /** The passphrase is replaced by its signature when the signer is built. */
    const apiPassphrase: string
    const hmac: (string, string) -> string

    constructor (apiKey: string, apiSecret: string, apiPassphrase: string, hmac: (string, string) -> string)
      ensures this.apiKey == apiKey && this.apiSecret == apiSecret && this.hmac == hmac
      ensures this.apiPassphrase == hmac(apiSecret, apiPassphrase)
    {
      this.apiKey := apiKey;
      this.apiSecret := apiSecret;
      this.hmac := hmac;
      this.apiPassphrase := hmac(apiSecret, apiPassphrase);
    }

    /** `_sign(plain_text)`. */
    function Sign(plainText: string): string {
      hmac(apiSecret, plainText)
    }

    /** `generate_headers(method, endpoint, body)` at the clock reading `nowMillis`
        (`int(time.time() * 1000)`). */
    function GenerateHeaders(verb: string, endpoint: string, body: string, nowMillis: nat): (h: Headers)
      ensures h.Keys == SignedHeaderNames
      ensures h[TimestampHeader] == Text.NatToString(nowMillis)
      ensures h[SignHeader] == Sign(StringToSign(h[TimestampHeader], verb, endpoint, body))
      ensures h[KeyHeader] == apiKey && h[PassphraseHeader] == apiPassphrase
      ensures h[KeyVersionHeader] == "2" && h[ContentTypeHeader] == "application/json"
    {
      var timestamp := Text.NatToString(nowMillis);
      map[
        KeyHeader := apiKey,
        SignHeader := Sign(StringToSign(timestamp, verb, endpoint, body)),
        TimestampHeader := timestamp,
        PassphraseHeader := apiPassphrase,
        KeyVersionHeader := "2",
        ContentTypeHeader := "application/json"
      ]
    }
  }

  /** The passphrase header is the one signature computed at construction, whatever request is
      signed and whenever. */
  lemma PassphraseSignedOnce(signer: KuCoinSigner, passphrase: string,
                             m1: string, e1: string, b1: string, t1: nat,
                             m2: string, e2: string, b2: string, t2: nat)
    requires signer.apiPassphrase == signer.hmac(signer.apiSecret, passphrase)
    ensures signer.GenerateHeaders(m1, e1, b1, t1)[PassphraseHeader]
         == signer.GenerateHeaders(m2, e2, b2, t2)[PassphraseHeader]
         == signer.Sign(passphrase)
  {
  }

  const OrderEndpoint := "/api/v3/hf/margin/order"
  const OrderUrl := KucoinHost + OrderEndpoint
  const OrderMethod := "POST"

  /** The client order id: the caller's when given, otherwise `str(uuid.uuid4())`, supplied here
      as `freshId`. */
  function ResolveClientOid(clientOid: Option<string>, freshId: string): (oid: string)
    ensures clientOid.Some? ==> oid == clientOid.value
    ensures clientOid.None? ==> oid == freshId
  {
    match clientOid
    case Some(given) => given
    case None => freshId
  }

  /** The keys of the order dictionary, in insertion order. */
  const OrderKeys: seq<string> :=
    ["symbol", "side", "size", "leverage", "tradeType", "isIsolated", "type", "autoBorrow", "clientOid", "autoRepay"]

  /** The order dictionary, in the order `json.dumps` writes it: ten entries, one per key. */
  function OrderFields(symbol: string, side: string, sizeText: string, leverageText: string,
                       clientOid: string, autoRepay: bool): (f: seq<Field>)
    ensures |f| == |OrderKeys|
    ensures forall i :: 0 <= i < |f| ==> f[i].key == OrderKeys[i]
  {
    [
      Field("symbol", SStr(symbol)),
      Field("side", SStr(side)),
      Field("size", SStr(sizeText)),
      Field("leverage", SStr(leverageText)),
      Field("tradeType", SStr("MARGIN_TRADE")),
      Field("isIsolated", SBool(true)),
      Field("type", SStr("market")),
      Field("autoBorrow", SBool(true)),
      Field("clientOid", SStr(clientOid)),
      Field("autoRepay", SBool(autoRepay))
    ]
  }

  /** Every order is an isolated-margin market order with automatic borrowing, and the caller's
      values are carried under their own keys. */
  lemma {:induction false} OrderFieldsContent(symbol: string, side: string, sizeText: string, leverageText: string,
                                              clientOid: string, autoRepay: bool)
    ensures var f := OrderFields(symbol, side, sizeText, leverageText, clientOid, autoRepay);
      && Lookup(f, "tradeType") == Some(SStr("MARGIN_TRADE"))
      && Lookup(f, "isIsolated") == Some(SBool(true))
      && Lookup(f, "type") == Some(SStr("market"))
      && Lookup(f, "autoBorrow") == Some(SBool(true))
      && Lookup(f, "symbol") == Some(SStr(symbol))
      && Lookup(f, "side") == Some(SStr(side))
      && Lookup(f, "size") == Some(SStr(sizeText))
      && Lookup(f, "leverage") == Some(SStr(leverageText))
      && Lookup(f, "clientOid") == Some(SStr(clientOid))
      && Lookup(f, "autoRepay") == Some(SBool(autoRepay))
  {
    var f := OrderFields(symbol, side, sizeText, leverageText, clientOid, autoRepay);
    var keys := OrderKeys;
    forall i | 0 <= i < |f| ensures Lookup(f, keys[i]) == Some(f[i].value) {
      LookupFindsFirst(f, keys[i], i);
    }
    assert keys[0] == "symbol" && keys[1] == "side" && keys[2] == "size" && keys[3] == "leverage";
    assert keys[4] == "tradeType" && keys[5] == "isIsolated" && keys[6] == "type" && keys[7] == "autoBorrow";
    assert keys[8] == "clientOid" && keys[9] == "autoRepay";
  }

  /** The POST request `place_isolated_margin_order` sends. */
  datatype OrderRequest = OrderRequest(url: string, headers: Headers, body: string)

  /** Builds the request. `json.dumps` is the supplied `dumps` and `str(size)` the supplied
      `formatFloat`; `str(leverage)` is exact; the `type` argument (`orderType`) is accepted and
      never read. */
  function BuildOrderRequest(signer: KuCoinSigner, symbol: string, side: string, size: real, leverage: int,
                             clientOid: Option<string>, autoRepay: bool, orderType: string,
                             freshId: string, dumps: seq<Field> -> string, formatFloat: real -> string,
                             nowMillis: nat): (req: OrderRequest)
    ensures req.url == OrderUrl
    ensures req.headers == signer.GenerateHeaders(OrderMethod, OrderEndpoint, req.body, nowMillis)
    ensures req.headers.Keys == SignedHeaderNames
    ensures req.body == dumps(OrderFields(symbol, side, formatFloat(size), Text.IntToString(leverage),
                                              ResolveClientOid(clientOid, freshId), autoRepay))
    ensures req.headers[TimestampHeader] == Text.NatToString(nowMillis)
    ensures req.headers[SignHeader] == signer.Sign(StringToSign(req.headers[TimestampHeader], OrderMethod, OrderEndpoint, req.body))
    ensures req.headers[ContentTypeHeader] == "application/json"
  {
    var oid := ResolveClientOid(clientOid, freshId);
    var body := dumps(OrderFields(symbol, side, formatFloat(size), Text.IntToString(leverage), oid, autoRepay));
    OrderRequest(OrderUrl, signer.GenerateHeaders(OrderMethod, OrderEndpoint, body, nowMillis), body)
  }

  /** The ways `place_isolated_margin_order` raises. */
  datatype OrderError =
    | SendFailed
    | Rejected(status: int, text: string)
    | InvalidJson
    | MembershipTypeError
    | MessageTypeError

  /** `"msg" in response_data` raises `TypeError` for a JSON number, boolean or null. */
  predicate MembershipRaises(data: Json) {
    data.JNum? || data.JBool? || data.JNull?
  }

  /** "msg" occurs in `s` starting at position `k`. */
  predicate MsgAt(s: string, k: int) {
    0 <= k <= |s| - 3 && s[k..k + 3] == "msg"
  }

  /** `s` contains "msg" as a substring, as `"msg" in s` tests for a string. */
  predicate ContainsMsg(s: string) {
    exists k :: 0 <= k <= |s| - 3 && MsgAt(s, k)
  }

  /** `"msg" in response_data` holds for a list with the string "msg" among its items and for a
      string containing "msg"; the log line then reads `response_data['msg']`, and indexing a
      list or a string by a string raises `TypeError`. */
  predicate MessageIndexRaises(data: Json) {
    (data.JArr? && JStr("msg") in data.items) || (data.JStr? && ContainsMsg(data.s))
  }

  /** Status 200 hands back the parsed body, with or without a "msg" entry, unless the checks
      on "msg" raise; any other status raises `RuntimeError` carrying the status and the text. */
  function ClassifyOrderResponse(resp: HttpResponse): (r: Result<Json, OrderError>)
    ensures resp.status != 200 ==> r == Err(Rejected(resp.status, resp.text))
    ensures r.Ok? <==> resp.status == 200 && resp.json.Some? && !MembershipRaises(resp.json.value)
                       && !MessageIndexRaises(resp.json.value)
    ensures r.Ok? ==> r.value == resp.json.value
  {
    if resp.status == 200 then
      match resp.json
      case None => Err(InvalidJson)
      case Some(data) =>
        if MembershipRaises(data) then Err(MembershipTypeError)
        else if MessageIndexRaises(data) then Err(MessageTypeError)
        else Ok(data)
    else Err(Rejected(resp.status, resp.text))
  }

  /** A 200 reply carrying "msg" is handed back when it is an object, and raises when it is a
      list holding "msg" or a text mentioning it. */
  lemma MessageReplies(text: string, m: map<string, Json>)
    requires "msg" in m
    ensures ClassifyOrderResponse(HttpResponse(200, Some(JObj(m)), text)) == Ok(JObj(m))
    ensures ClassifyOrderResponse(HttpResponse(200, Some(JArr([JStr("msg")])), text)) == Err(MessageTypeError)
    ensures ClassifyOrderResponse(HttpResponse(200, Some(JStr("bad msg")), text)) == Err(MessageTypeError)
  {
    assert JStr("msg") in [JStr("msg")];
    assert MsgAt("bad msg", 4);
  }

  /** `place_isolated_margin_order(...)` with the POST itself as `send` (`None` when it raises). */
  function PlaceIsolatedMarginOrder(signer: KuCoinSigner, symbol: string, side: string, size: real, leverage: int,
                                    clientOid: Option<string>, autoRepay: bool, orderType: string,
                                    freshId: string, dumps: seq<Field> -> string, formatFloat: real -> string,
                                    nowMillis: nat, send: OrderRequest -> Option<HttpResponse>): (r: Result<Json, OrderError>)
    ensures var req := BuildOrderRequest(signer, symbol, side, size, leverage, clientOid, autoRepay, orderType,
                                         freshId, dumps, formatFloat, nowMillis);
      var reply := send(req);
      && (reply.None? ==> r == Err(SendFailed))
      && (reply.Some? && reply.value.status != 200 ==> r == Err(Rejected(reply.value.status, reply.value.text)))
      && (r.Ok? <==> reply.Some? && reply.value.status == 200 && reply.value.json.Some?
                     && !MembershipRaises(reply.value.json.value) && !MessageIndexRaises(reply.value.json.value))
      && (r.Ok? ==> r.value == reply.value.json.value)
      && (reply.Some? ==> r == ClassifyOrderResponse(reply.value))
  {
    var req := BuildOrderRequest(signer, symbol, side, size, leverage, clientOid, autoRepay, orderType,
                                 freshId, dumps, formatFloat, nowMillis);
    match send(req)
    case None => Err(SendFailed)
    case Some(resp) => ClassifyOrderResponse(resp)
  }

  /** The ignored `type` argument changes nothing that is sent or returned. */
  lemma OrderTypeIgnored(signer: KuCoinSigner, symbol: string, side: string, size: real, leverage: int,
                         clientOid: Option<string>, autoRepay: bool, t1: string, t2: string,
                         freshId: string, dumps: seq<Field> -> string, formatFloat: real -> string,
                         nowMillis: nat, send: OrderRequest -> Option<HttpResponse>)
    ensures BuildOrderRequest(signer, symbol, side, size, leverage, clientOid, autoRepay, t1, freshId, dumps, formatFloat, nowMillis)
         == BuildOrderRequest(signer, symbol, side, size, leverage, clientOid, autoRepay, t2, freshId, dumps, formatFloat, nowMillis)
    ensures PlaceIsolatedMarginOrder(signer, symbol, side, size, leverage, clientOid, autoRepay, t1, freshId, dumps, formatFloat, nowMillis, send)
         == PlaceIsolatedMarginOrder(signer, symbol, side, size, leverage, clientOid, autoRepay, t2, freshId, dumps, formatFloat, nowMillis, send)
  {
  }
}
