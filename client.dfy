/** The signed-request client for the Binance futures testnet, and its mock
    variant. A client holds its credentials and the session headers for its
    whole life; each call builds an insertion-ordered parameter dict,
    stamps it in place (and signs it when both credentials are non-empty),
    and hands it to the transport. The network
    (the `requests` session) is a function from a request to a reply, and
    the mock subclass, which overrides `_send_request`, is the `Mock`
    transport. */
module Client {
  import opened Common
  import opened OrderedDict
  import opened Signing

  const BaseUrl := "https://testnet.binancefuture.com"
  const OrderEndpoint := "/fapi/v1/order"
  const AccountEndpoint := "/fapi/v2/account"
  const DefaultTimeInForce := "GTC"
  const PriceRequiredMessage := "Price is required for LIMIT orders"

  /** What the session is asked to send. */
  datatype Request = Request(verb: string, url: string, headers: seq<(string, string)>, params: Params)

  /** What comes back: an HTTP reply with its body and, when the body is
      JSON, its decoding; or a failure before any reply (DNS, timeout, reset). */
  datatype Reply =
    | HttpReply(status: int, body: string, json: Option<Params>)
    | NoReply(cause: string)

  /** The live network, or the mock's override of `_send_request`. */
  datatype Transport = Live(send: Request -> Reply) | Mock

  /** The headers the session sends with every request. */
  function SessionHeaders(apiKey: string): seq<(string, string)> {
    [("X-MBX-APIKEY", apiKey), ("Content-Type", "application/json")]
  }

  /** `response.raise_for_status()` then `response.json()`, with every
      failure propagated unchanged. */
  function Receive(reply: Reply): (r: Result<Params>)
    ensures r.Success? <==> reply.HttpReply? && !(400 <= reply.status < 600) && reply.json.Some?
    ensures r.Success? ==> r.value == reply.json.value
    ensures reply.NoReply? ==> r == Failure(RequestException(reply.cause))
    ensures reply.HttpReply? && 400 <= reply.status < 600 ==>
      r == Failure(HTTPError(reply.status, reply.body))
    ensures reply.HttpReply? && !(400 <= reply.status < 600) && reply.json.None? ==>
      r == Failure(JSONDecodeError(reply.body))
  {
    match reply
    case NoReply(cause) => Failure(RequestException(cause))
    case HttpReply(status, body, json) =>
      if 400 <= status < 600 then Failure(HTTPError(status, body))
      else if json.None? then Failure(JSONDecodeError(body))
      else Success(json.value)
  }

  /** Python's `sub in s` on strings. */
  predicate Contains(s: string, sub: string)
    decreases |s|
  {
    |sub| <= |s| && (s[..|sub|] == sub || Contains(s[1..], sub))
  }

  lemma {:induction false} NotContained(a: string, b: string, sub: string)
    requires |b| < |sub| && sub[0] !in a
    ensures !Contains(a + b, sub)
  {
    if a != [] {
      assert (a + b)[0] == a[0];
      assert (a + b)[1..] == a[1..] + b;
      NotContained(a[1..], b, sub);
    }
  }

  /** Which endpoints the mock treats as order placement. */
  lemma EndpointKinds()
    ensures Contains(OrderEndpoint, "order")
    ensures !Contains(AccountEndpoint, "order")
  {
    NotContained("/fapi/v2/acc", "ount", "order");
    assert "/fapi/v2/acc" + "ount" == AccountEndpoint;
  }

  /** The order the mock pretends the exchange accepted, echoing `params`:
      each echoed field is `params.get(key, default)`. */
  function MockOrder(params: Params, now: nat): Params {
    MockOrderEntries(GetOr(params, "symbol", Text("UNKNOWN")), GetOr(params, "price", Text("0")),
                     GetOr(params, "quantity", Text("0")), GetOr(params, "type", Text("MARKET")),
                     GetOr(params, "side", Text("BUY")), now)
  }

  /** The mock's dict literal, given the values it echoes. */
  function MockOrderEntries(symbol: Value, price: Value, quantity: Value, orderType: Value, side: Value,
                            now: nat): Params {
    [ ("orderId", Int(123456789)),
      ("symbol", symbol),
      ("status", Text("NEW")),
      ("clientOrderId", Text("mock_order_id")),
      ("price", price),
      ("avgPrice", Text("0.00000")),
      ("origQty", quantity),
      ("executedQty", Text("0")),
      ("cumQty", Text("0")),
      ("cumQuote", Text("0")),
      ("timeInForce", Text("GTC")),
      ("type", orderType),
      ("reduceOnly", Bool(false)),
      ("closePosition", Bool(false)),
      ("side", side),
      ("positionSide", Text("BOTH")),
      ("stopPrice", Text("0")),
      ("workingType", Text("CONTRACT_PRICE")),
      ("priceProtect", Bool(false)),
      ("origType", orderType),
      ("updateTime", Int(now)) ]
  }

  /** `MockBinanceClient._send_request`: an order endpoint gets a synthesised
      order echoing the parameters (with `.get` on `None` raising), any other
      endpoint a fixed acknowledgement. */
  function MockResponse(endpoint: string, params: Option<Params>, now: nat): (r: Result<Params>)
    ensures r.Failure? <==> Contains(endpoint, "order") && params.None?
    ensures r.Failure? ==> r.error.AttributeError?
    ensures !Contains(endpoint, "order") ==> r == Success([("msg", Text("Mock response"))])
    ensures Contains(endpoint, "order") && params.Some? ==>
      && Get(r.value, "status") == Some(Text("NEW"))
      && Get(r.value, "orderId") == Some(Int(123456789))
      && Get(r.value, "symbol") == Some(GetOr(params.value, "symbol", Text("UNKNOWN")))
      && Get(r.value, "side") == Some(GetOr(params.value, "side", Text("BUY")))
      && Get(r.value, "type") == Some(GetOr(params.value, "type", Text("MARKET")))
      && Get(r.value, "origQty") == Some(GetOr(params.value, "quantity", Text("0")))
  {
    if Contains(endpoint, "order") then
      if params.None? then Failure(AttributeError("'NoneType' object has no attribute 'get'"))
      else
        var p := params.value;
        var symbol, price, quantity := GetOr(p, "symbol", Text("UNKNOWN")), GetOr(p, "price", Text("0")),
                                       GetOr(p, "quantity", Text("0"));
        var orderType, side := GetOr(p, "type", Text("MARKET")), GetOr(p, "side", Text("BUY"));
        MockOrderFixedFields(symbol, price, quantity, orderType, side, now);
        MockOrderEchoes(symbol, price, quantity, orderType, side, now);
        Success(MockOrder(p, now))
    else Success([("msg", Text("Mock response"))])
  }

  // `.get` on the synthesised order, one key at a time: each finds the first
  // entry of the literal with that key.
  lemma MockOrderGetOrderId(symbol: Value, price: Value, quantity: Value, orderType: Value, side: Value, now: nat)
    ensures Get(MockOrderEntries(symbol, price, quantity, orderType, side, now), "orderId") == Some(Int(123456789))
  {
    GetFirst(MockOrderEntries(symbol, price, quantity, orderType, side, now), 0);
  }

  lemma MockOrderGetSymbol(symbol: Value, price: Value, quantity: Value, orderType: Value, side: Value, now: nat)
    ensures Get(MockOrderEntries(symbol, price, quantity, orderType, side, now), "symbol") == Some(symbol)
  {
    GetFirst(MockOrderEntries(symbol, price, quantity, orderType, side, now), 1);
  }

  lemma MockOrderGetStatus(symbol: Value, price: Value, quantity: Value, orderType: Value, side: Value, now: nat)
    ensures Get(MockOrderEntries(symbol, price, quantity, orderType, side, now), "status") == Some(Text("NEW"))
  {
    GetFirst(MockOrderEntries(symbol, price, quantity, orderType, side, now), 2);
  }

  lemma MockOrderGetOrigQty(symbol: Value, price: Value, quantity: Value, orderType: Value, side: Value, now: nat)
    ensures Get(MockOrderEntries(symbol, price, quantity, orderType, side, now), "origQty") == Some(quantity)
  {
    GetFirst(MockOrderEntries(symbol, price, quantity, orderType, side, now), 6);
  }

  lemma MockOrderGetExecutedQty(symbol: Value, price: Value, quantity: Value, orderType: Value, side: Value, now: nat)
    ensures Get(MockOrderEntries(symbol, price, quantity, orderType, side, now), "executedQty") == Some(Text("0"))
  {
    GetFirst(MockOrderEntries(symbol, price, quantity, orderType, side, now), 7);
  }

  lemma MockOrderGetTimeInForce(symbol: Value, price: Value, quantity: Value, orderType: Value, side: Value, now: nat)
    ensures Get(MockOrderEntries(symbol, price, quantity, orderType, side, now), "timeInForce") == Some(Text("GTC"))
  {
    GetFirst(MockOrderEntries(symbol, price, quantity, orderType, side, now), 10);
  }

  lemma MockOrderGetType(symbol: Value, price: Value, quantity: Value, orderType: Value, side: Value, now: nat)
    ensures Get(MockOrderEntries(symbol, price, quantity, orderType, side, now), "type") == Some(orderType)
  {
    GetFirst(MockOrderEntries(symbol, price, quantity, orderType, side, now), 11);
  }

  lemma MockOrderGetSide(symbol: Value, price: Value, quantity: Value, orderType: Value, side: Value, now: nat)
    ensures Get(MockOrderEntries(symbol, price, quantity, orderType, side, now), "side") == Some(side)
  {
    GetFirst(MockOrderEntries(symbol, price, quantity, orderType, side, now), 14);
  }

  /** The synthesised order's fixed fields: status NEW, order id 123456789,
      nothing executed, good-till-cancelled. */
  lemma MockOrderFixedFields(symbol: Value, price: Value, quantity: Value, orderType: Value, side: Value, now: nat)
    ensures var m := MockOrderEntries(symbol, price, quantity, orderType, side, now);
      && Get(m, "status") == Some(Text("NEW"))
      && Get(m, "orderId") == Some(Int(123456789))
      && Get(m, "executedQty") == Some(Text("0"))
      && Get(m, "timeInForce") == Some(Text("GTC"))
  {
    MockOrderGetStatus(symbol, price, quantity, orderType, side, now);
    MockOrderGetOrderId(symbol, price, quantity, orderType, side, now);
    MockOrderGetExecutedQty(symbol, price, quantity, orderType, side, now);
    MockOrderGetTimeInForce(symbol, price, quantity, orderType, side, now);
  }

  /** The synthesised order echoes the symbol, quantity, type and side it is
      given (the request's, or the defaults where the request has none). */
  lemma MockOrderEchoes(symbol: Value, price: Value, quantity: Value, orderType: Value, side: Value, now: nat)
    ensures var m := MockOrderEntries(symbol, price, quantity, orderType, side, now);
      && Get(m, "symbol") == Some(symbol)
      && Get(m, "origQty") == Some(quantity)
      && Get(m, "type") == Some(orderType)
      && Get(m, "side") == Some(side)
  {
    MockOrderGetSymbol(symbol, price, quantity, orderType, side, now);
    MockOrderGetOrigQty(symbol, price, quantity, orderType, side, now);
    MockOrderGetType(symbol, price, quantity, orderType, side, now);
    MockOrderGetSide(symbol, price, quantity, orderType, side, now);
  }

  /** The dict literal `place_order` starts from. */
  function OrderBase(symbol: string, side: string, orderType: string, quantity: real): Params {
    [("symbol", Text(symbol)), ("side", Text(side)), ("type", Text(orderType)), ("quantity", Float(quantity))]
  }

  /** The parameters `place_order` sends: symbol, side, type and quantity in
      that order, then for a LIMIT order the price and the time in force. */
  function OrderParams(symbol: string, side: string, orderType: string, quantity: real,
                       price: RawNumber, timeInForce: string): (r: Result<Params>)
    ensures r.Failure? <==> orderType == "LIMIT" && price.Missing?
    ensures r.Failure? ==> r.error == ValueError(PriceRequiredMessage)
    ensures r.Success? && orderType != "LIMIT" ==> r.value == OrderBase(symbol, side, orderType, quantity)
    ensures r.Success? && orderType == "LIMIT" ==>
      r.value == OrderBase(symbol, side, orderType, quantity)
                 + [("price", RawValue(price).value), ("timeInForce", Text(timeInForce))]
  {
    var base := OrderBase(symbol, side, orderType, quantity);
    if orderType != "LIMIT" then Success(base)
    else if price.Missing? then Failure(ValueError(PriceRequiredMessage))
    else
      var p := RawValue(price).value;
      LimitEntriesAppend(symbol, side, orderType, quantity, p, timeInForce);
      Success(Set(Set(base, "price", p), "timeInForce", Text(timeInForce)))
  }

  /** `params["price"] = price` then `params["timeInForce"] = time_in_force`
      on the base dict append those two entries in that order. */
  lemma LimitEntriesAppend(symbol: string, side: string, orderType: string, quantity: real,
                           price: Value, timeInForce: string)
    ensures Set(Set(OrderBase(symbol, side, orderType, quantity), "price", price), "timeInForce", Text(timeInForce))
         == OrderBase(symbol, side, orderType, quantity) + [("price", price), ("timeInForce", Text(timeInForce))]
  {
    var base := OrderBase(symbol, side, orderType, quantity);
    var priced := base + [("price", price)];
    assert Set(base, "price", price) == priced by {
      OrderBaseKeys(symbol, side, orderType, quantity);
      SetNew(base, "price", price);
    }
    assert "timeInForce" !in Keys(priced) by {
      OrderBaseKeys(symbol, side, orderType, quantity);
      KeysAppendOne(base, "price", price);
    }
    SetNew(priced, "timeInForce", Text(timeInForce));
  }

  lemma OrderBaseKeys(symbol: string, side: string, orderType: string, quantity: real)
    ensures Keys(OrderBase(symbol, side, orderType, quantity)) == ["symbol", "side", "type", "quantity"]
  {
  }

  /** The parameters of a successful `place_order` form a dict. */
  lemma OrderParamsDistinct(symbol: string, side: string, orderType: string, quantity: real,
                            price: RawNumber, timeInForce: string)
    requires OrderParams(symbol, side, orderType, quantity, price, timeInForce).Success?
    ensures DistinctKeys(OrderParams(symbol, side, orderType, quantity, price, timeInForce).value)
    ensures "timestamp" !in Keys(OrderParams(symbol, side, orderType, quantity, price, timeInForce).value)
    ensures "signature" !in Keys(OrderParams(symbol, side, orderType, quantity, price, timeInForce).value)
  {
    var p := OrderParams(symbol, side, orderType, quantity, price, timeInForce).value;
    OrderParamsKeys(symbol, side, orderType, quantity, price, timeInForce);
    var ks := Keys(p);
    forall i, j | 0 <= i < j < |p| ensures p[i].0 != p[j].0 {
      assert p[i].0 == ks[i] && p[j].0 == ks[j];
    }
  }

  /** The keys of a successful `place_order` dict, in insertion order. */
  lemma OrderParamsKeys(symbol: string, side: string, orderType: string, quantity: real,
                        price: RawNumber, timeInForce: string)
    requires OrderParams(symbol, side, orderType, quantity, price, timeInForce).Success?
    ensures Keys(OrderParams(symbol, side, orderType, quantity, price, timeInForce).value)
         == ["symbol", "side", "type", "quantity"] + (if orderType == "LIMIT" then ["price", "timeInForce"] else [])
  {
    var p := OrderParams(symbol, side, orderType, quantity, price, timeInForce).value;
    OrderBaseKeys(symbol, side, orderType, quantity);
    if orderType == "LIMIT" {
      KeysAppendOne(OrderBase(symbol, side, orderType, quantity), "price", p[4].1);
      KeysAppendOne(p[..5], "timeInForce", p[5].1);
      assert p[..5] + [p[5]] == p;
    }
  }

  /** A successful `place_order` dict holds the symbol, side, type and
      quantity it was given under their own keys. */
  lemma OrderParamsFields(symbol: string, side: string, orderType: string, quantity: real,
                          price: RawNumber, timeInForce: string)
    requires OrderParams(symbol, side, orderType, quantity, price, timeInForce).Success?
    ensures var p := OrderParams(symbol, side, orderType, quantity, price, timeInForce).value;
      && Get(p, "symbol") == Some(Text(symbol))
      && Get(p, "side") == Some(Text(side))
      && Get(p, "type") == Some(Text(orderType))
      && Get(p, "quantity") == Some(Float(quantity))
  {
    var p := OrderParams(symbol, side, orderType, quantity, price, timeInForce).value;
    assert p[..4] == OrderBase(symbol, side, orderType, quantity);
    GetFirst(p, 0);
    GetFirst(p, 1);
    GetFirst(p, 2);
    GetFirst(p, 3);
  }

  class BinanceClient {
    const apiKey: string
    const apiSecret: string
    /** The session's headers, fixed at construction. */
    const headers: seq<(string, string)>
    const transport: Transport
    const hmac: HmacSha256
    const floatRepr: FloatRepr

    /** `BinanceClient(api_key, api_secret)` over a live session. */
    constructor (apiKey: string, apiSecret: string, send: Request -> Reply,
                 hmac: HmacSha256, floatRepr: FloatRepr)
      ensures this.apiKey == apiKey && this.apiSecret == apiSecret
      ensures headers == [("X-MBX-APIKEY", apiKey), ("Content-Type", "application/json")]
      ensures transport == Live(send) && this.hmac == hmac && this.floatRepr == floatRepr
    {
      this.apiKey := apiKey;
      this.apiSecret := apiSecret;
      this.headers := SessionHeaders(apiKey);
      this.transport := Live(send);
      this.hmac := hmac;
      this.floatRepr := floatRepr;
    }

    /** `MockBinanceClient(api_key, api_secret)`. The Python defaults
        "mock_key" and "mock_secret" are one choice of the arguments. */
    constructor Mock(apiKey: string, apiSecret: string, hmac: HmacSha256, floatRepr: FloatRepr)
      ensures this.apiKey == apiKey && this.apiSecret == apiSecret
      ensures headers == [("X-MBX-APIKEY", apiKey), ("Content-Type", "application/json")]
      ensures transport == Transport.Mock && this.hmac == hmac && this.floatRepr == floatRepr
    {
      this.apiKey := apiKey;
      this.apiSecret := apiSecret;
      this.headers := SessionHeaders(apiKey);
      this.transport := Transport.Mock;
      this.hmac := hmac;
      this.floatRepr := floatRepr;
    }

    /** Whether `_send_request` signs: both credentials are non-empty. */
    predicate Signs() {
      apiKey != "" && apiSecret != ""
    }

    /** What `_send_request(verb, endpoint, params)` returns, `params` being
        the caller's dict (`None` when absent). */
    function Outcome(verb: string, endpoint: string, params: Option<Params>, now: nat): Result<Params> {
      match transport
      case Mock => MockResponse(endpoint, params, now)
      case Live(send) =>
        var given := if params.Some? then params.value else [];
        var sent := Prepare(given, now, apiKey, apiSecret, hmac, floatRepr);
        Receive(send(Request(verb, BaseUrl + endpoint, headers, sent)))
    }

    /** `_sign_request`: sets `signature` on the caller's dict and returns it. */
    method SignRequest(params: ParamDict) returns (signed: ParamDict)
      requires params.Valid()
      modifies params
      ensures signed == params && params.Valid()
      ensures params.items == Sign(old(params.items), apiSecret, hmac, floatRepr)
    {
      var queryString := QueryString(params.items, floatRepr);
      var signature := hmac(apiSecret, queryString);
      params.Put("signature", Text(signature));
      signed := params;
    }

    /** `_send_request`. A live client stamps a non-empty caller dict in
        place, and signs it when both credentials are non-empty, so the
        caller sees the additions; `None` or an empty dict is
        replaced by a fresh one. The mock touches nothing. */
    method SendRequest(verb: string, endpoint: string, params: ParamDict?, now: nat)
      returns (r: Result<Params>)
      requires params != null ==> params.Valid()
      modifies params
      ensures params != null ==> params.Valid()
      ensures r == Outcome(verb, endpoint, if params == null then None else Some(old(params.items)), now)
      ensures params != null && (transport.Mock? || old(params.items) == []) ==> unchanged(params)
      ensures params != null && transport.Live? && old(params.items) != [] ==>
        params.items == Prepare(old(params.items), now, apiKey, apiSecret, hmac, floatRepr)
    {
      if transport.Mock? {
        r := MockResponse(endpoint, if params == null then None else Some(params.items), now);
        return;
      }
      var dict: ParamDict;
      if params != null && params.items != [] {
        dict := params;
      } else {
        dict := new ParamDict([]);
      }
      dict.Put("timestamp", Int(now));
      if Signs() {
        dict := SignRequest(dict);
      }
      var reply := transport.send(Request(verb, BaseUrl + endpoint, headers, dict.items));
      r := Receive(reply);
    }

    /** `place_order`: the LIMIT price check happens before anything is sent. */
    method PlaceOrder(symbol: string, side: string, orderType: string, quantity: real,
                      price: RawNumber, timeInForce: string, now: nat)
      returns (r: Result<Params>)
      ensures r == match OrderParams(symbol, side, orderType, quantity, price, timeInForce)
                   case Failure(e) => Failure(e)
                   case Success(p) => Outcome("POST", OrderEndpoint, Some(p), now)
    {
      var params := new ParamDict([("symbol", Text(symbol)), ("side", Text(side)),
                                   ("type", Text(orderType)), ("quantity", Float(quantity))]);
      if orderType == "LIMIT" {
        if price.Missing? {
          return Failure(ValueError(PriceRequiredMessage));
        }
        params.Put("price", RawValue(price).value);
        params.Put("timeInForce", Text(timeInForce));
      }
      r := SendRequest("POST", OrderEndpoint, params, now);
    }

    /** `get_account_info`: a signed GET with no parameters of its own. */
    method GetAccountInfo(now: nat) returns (r: Result<Params>)
      ensures r == Outcome("GET", AccountEndpoint, None, now)
    {
      r := SendRequest("GET", AccountEndpoint, null, now);
    }
  }

  /** A live client with both credentials sends an order's parameters with
      the timestamp and then the signature appended; the signature is the
      HMAC of every order parameter followed by `timestamp=<now>`. */
  lemma LiveOrderRequest(c: BinanceClient, p: Params, now: nat)
    requires c.transport.Live? && c.Signs()
    requires DistinctKeys(p) && "timestamp" !in Keys(p) && "signature" !in Keys(p) && p != []
    ensures c.Outcome("POST", OrderEndpoint, Some(p), now)
         == Receive(c.transport.send(Request("POST", BaseUrl + OrderEndpoint, c.headers,
              p + [("timestamp", Int(now)),
                   ("signature", Text(c.hmac(c.apiSecret,
                      QueryString(p, c.floatRepr) + "&" + "timestamp=" + NatToString(now))))])))
  {
    PrepareSigned(p, now, c.apiKey, c.apiSecret, c.hmac, c.floatRepr);
    SignedStringForm(p, now, c.floatRepr);
  }

  /** A live client signs `get_account_info` over the timestamp alone. */
  lemma LiveAccountRequest(c: BinanceClient, now: nat)
    requires c.transport.Live? && c.Signs()
    ensures c.Outcome("GET", AccountEndpoint, None, now)
         == Receive(c.transport.send(Request("GET", BaseUrl + AccountEndpoint, c.headers,
              [("timestamp", Int(now)),
               ("signature", Text(c.hmac(c.apiSecret, "timestamp=" + NatToString(now))))])))
  {
    PrepareSigned([], now, c.apiKey, c.apiSecret, c.hmac, c.floatRepr);
    SignedStringForm([], now, c.floatRepr);
    var sig := c.hmac(c.apiSecret, "timestamp=" + NatToString(now));
    assert Prepare([], now, c.apiKey, c.apiSecret, c.hmac, c.floatRepr)
           == [("timestamp", Int(now)), ("signature", Text(sig))];
    assert c.Outcome("GET", AccountEndpoint, None, now)
           == Receive(c.transport.send(Request("GET", BaseUrl + AccountEndpoint, c.headers,
                Prepare([], now, c.apiKey, c.apiSecret, c.hmac, c.floatRepr))));
  }

  /** The mock answers an order with the synthesised order and the account
      endpoint with the fixed acknowledgement; it adds no timestamp and no
      signature, whatever its credentials. */
  lemma MockOutcomes(c: BinanceClient, p: Params, now: nat)
    requires c.transport.Mock?
    ensures c.Outcome("POST", OrderEndpoint, Some(p), now) == Success(MockOrder(p, now))
    ensures c.Outcome("GET", AccountEndpoint, None, now) == Success([("msg", Text("Mock response"))])
  {
    EndpointKinds();
  }
}
