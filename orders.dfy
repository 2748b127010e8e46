/** `place_trade_order`: validate the raw order fields in a fixed order,
    stopping at the first failure, and hand the normalised values to the
    client's `place_order`. */
module Orders {
  import opened Common
  import opened OrderedDict
  import opened Validators
  import opened Client

  /** The arguments `place_trade_order` passes on to `client.place_order`. */
  datatype OrderArgs = OrderArgs(symbol: string, side: string, orderType: string, quantity: real, price: RawNumber)

  /** The validation sequence: symbol, side, type, quantity, and the price
      only when the normalised type is LIMIT; the first failure is the result. */
  function ValidateOrder(symbol: string, side: string, orderType: string,
                         quantity: RawNumber, price: RawNumber): (r: Result<OrderArgs>)
    ensures r.Success? ==>
      && IsSymbol(r.value.symbol)
      && (r.value.side == "BUY" || r.value.side == "SELL")
      && (r.value.orderType == "LIMIT" || r.value.orderType == "MARKET")
      && r.value.quantity > 0.0
    ensures r.Success? && r.value.orderType == "LIMIT" ==> r.value.price.Parsed? && r.value.price.x > 0.0
    ensures r.Success? && r.value.orderType == "MARKET" ==> r.value.price == price
    ensures r.Success? <==>
      && ValidateSymbol(symbol).Success?
      && ValidateSide(side).Success?
      && ValidateOrderType(orderType).Success?
      && quantity.Parsed? && quantity.x > 0.0
      && (ValidateOrderType(orderType).value == "LIMIT" ==> price.Parsed? && price.x > 0.0)
    ensures r.Success? ==> r.value == OrderArgs(Upper(symbol), Upper(side), Upper(orderType), quantity.x, price)
  {
    var normalizedSymbol :- ValidateSymbol(symbol);
    var normalizedSide :- ValidateSide(side);
    var normalizedType :- ValidateOrderType(orderType);
    var validQuantity :- ValidatePositiveFloat(quantity, "Quantity");
    if normalizedType == "LIMIT" then
      var validPrice :- ValidatePositiveFloat(price, "Price");
      Success(OrderArgs(normalizedSymbol, normalizedSide, normalizedType, validQuantity, Parsed(validPrice)))
    else
      Success(OrderArgs(normalizedSymbol, normalizedSide, normalizedType, validQuantity, price))
  }

  /** The first failing validator decides the error. */
  lemma FirstFailureWins(symbol: string, side: string, orderType: string,
                         quantity: RawNumber, price: RawNumber)
    ensures ValidateSymbol(symbol).Failure? ==>
      ValidateOrder(symbol, side, orderType, quantity, price) == Failure(ValidateSymbol(symbol).error)
    ensures ValidateSymbol(symbol).Success? && ValidateSide(side).Failure? ==>
      ValidateOrder(symbol, side, orderType, quantity, price) == Failure(ValidateSide(side).error)
    ensures ValidateSymbol(symbol).Success? && ValidateSide(side).Success?
            && ValidateOrderType(orderType).Failure? ==>
      ValidateOrder(symbol, side, orderType, quantity, price) == Failure(ValidateOrderType(orderType).error)
    ensures ValidateSymbol(symbol).Success? && ValidateSide(side).Success?
            && ValidateOrderType(orderType).Success?
            && ValidatePositiveFloat(quantity, "Quantity").Failure? ==>
      ValidateOrder(symbol, side, orderType, quantity, price)
        == Failure(ValidatePositiveFloat(quantity, "Quantity").error)
  {
  }

  /** A LIMIT order without a price fails before the client is reached, with
      the `TypeError` of `float(None)`: it is not the validator's "Price ..."
      message. */
  lemma LimitWithoutPriceFails(symbol: string, side: string, orderType: string, quantity: RawNumber)
    requires ValidateSymbol(symbol).Success? && ValidateSide(side).Success?
    requires EqualsIgnoringCase(orderType, "LIMIT")
    requires quantity.Parsed? && quantity.x > 0.0
    ensures ValidateOrder(symbol, side, orderType, quantity, Missing) == Failure(TypeError(NoneToFloatMessage))
  {
  }

  /** A MARKET order passes its price through unvalidated, whatever it is. */
  lemma MarketPricePassesThrough(symbol: string, side: string, orderType: string,
                                 quantity: RawNumber, price: RawNumber)
    requires ValidateSymbol(symbol).Success? && ValidateSide(side).Success?
    requires EqualsIgnoringCase(orderType, "MARKET")
    requires quantity.Parsed? && quantity.x > 0.0
    ensures ValidateOrder(symbol, side, orderType, quantity, price)
         == Success(OrderArgs(Upper(symbol), ValidateSide(side).value, "MARKET", quantity.x, price))
  {
  }

  /** Inputs that differ only in letter case produce the same client call. */
  lemma {:induction false} CaseInsensitiveOrder(symbol: string, side: string, orderType: string,
                                                symbol': string, side': string, orderType': string,
                                                quantity: RawNumber, price: RawNumber)
    requires Upper(symbol) == Upper(symbol') && Upper(side) == Upper(side')
    requires Upper(orderType) == Upper(orderType')
    requires ValidateOrder(symbol, side, orderType, quantity, price).Success?
    ensures ValidateOrder(symbol', side', orderType', quantity, price)
         == ValidateOrder(symbol, side, orderType, quantity, price)
  {
    ValidateSideNormalises(side, side');
    ValidateOrderTypeNormalises(orderType, orderType');
    assert |symbol'| == |Upper(symbol')| == |symbol| > 0;
  }

  /** The order the scenario `("btcusdt", "buy", "market", 0.001)` produces. */
  lemma LowerCaseMarketScenario()
    ensures ValidateOrder("btcusdt", "buy", "market", Parsed(0.001), Missing)
         == Success(OrderArgs("BTCUSDT", "BUY", "MARKET", 0.001, Missing))
  {
    assert Upper("btcusdt") == "BTCUSDT";
    CaseInsensitiveOrder("BTCUSDT", "BUY", "MARKET", "btcusdt", "buy", "market", Parsed(0.001), Missing);
  }

  /** What the client is handed after validation: a dict with exactly the
      keys symbol, side, type, quantity (then price and timeInForce for a
      LIMIT order) holding normalised values; `place_order` never fails on
      a validated order. */
  lemma ClientReceivesNormalised(a: OrderArgs, symbol: string, side: string, orderType: string,
                                 quantity: RawNumber, price: RawNumber)
    requires ValidateOrder(symbol, side, orderType, quantity, price) == Success(a)
    ensures OrderParams(a.symbol, a.side, a.orderType, a.quantity, a.price, DefaultTimeInForce).Success?
    ensures var p := OrderParams(a.symbol, a.side, a.orderType, a.quantity, a.price, DefaultTimeInForce).value;
      && Keys(p) == ["symbol", "side", "type", "quantity"]
                    + (if a.orderType == "LIMIT" then ["price", "timeInForce"] else [])
      && p[0].1.Text? && IsSymbol(p[0].1.s)
      && p[1].1 in {Text("BUY"), Text("SELL")}
      && p[2].1 in {Text("LIMIT"), Text("MARKET")}
      && p[3].1.Float? && p[3].1.x > 0.0
      && (a.orderType == "LIMIT" ==> p[4].1.Float? && p[4].1.x > 0.0 && p[5].1 == Text("GTC"))
  {
    var p := OrderParams(a.symbol, a.side, a.orderType, a.quantity, a.price, DefaultTimeInForce).value;
    OrderParamsKeys(a.symbol, a.side, a.orderType, a.quantity, a.price, DefaultTimeInForce);
  }

  /** `place_trade_order`. A validation failure is returned without the
      client being called; otherwise the result is the client's `place_order`
      on the normalised values. */
  method PlaceTradeOrder(client: BinanceClient, symbol: string, side: string, orderType: string,
                         quantity: RawNumber, price: RawNumber, now: nat)
    returns (r: Result<Params>)
    ensures ValidateOrder(symbol, side, orderType, quantity, price).Failure? ==>
      r == Failure(ValidateOrder(symbol, side, orderType, quantity, price).error)
    ensures ValidateOrder(symbol, side, orderType, quantity, price).Success? ==>
      var a := ValidateOrder(symbol, side, orderType, quantity, price).value;
      r == client.Outcome("POST", OrderEndpoint,
             Some(OrderParams(a.symbol, a.side, a.orderType, a.quantity, a.price, DefaultTimeInForce).value), now)
  {
    var validated := ValidateOrder(symbol, side, orderType, quantity, price);
    if validated.Failure? {
      return Failure(validated.error);
    }
    var a := validated.value;
    r := client.PlaceOrder(a.symbol, a.side, a.orderType, a.quantity, a.price, DefaultTimeInForce, now);
  }

  /** Placed through the mock, a validated order comes back NEW, with order
      id 123456789, echoing the normalised symbol, side and type and the
      quantity the client was given. */
  lemma MockTradeOrder(client: BinanceClient, a: OrderArgs, symbol: string, side: string, orderType: string,
                       quantity: RawNumber, price: RawNumber, now: nat)
    requires client.transport.Mock?
    requires ValidateOrder(symbol, side, orderType, quantity, price) == Success(a)
    ensures var p := OrderParams(a.symbol, a.side, a.orderType, a.quantity, a.price, DefaultTimeInForce).value;
      var r := client.Outcome("POST", OrderEndpoint, Some(p), now);
      && r.Success?
      && Get(r.value, "status") == Some(Text("NEW"))
      && Get(r.value, "orderId") == Some(Int(123456789))
      && Get(r.value, "symbol") == Some(Text(a.symbol))
      && Get(r.value, "side") == Some(Text(a.side))
      && Get(r.value, "type") == Some(Text(a.orderType))
      && Get(r.value, "origQty") == Some(Float(a.quantity))
  {
    var p := OrderParams(a.symbol, a.side, a.orderType, a.quantity, a.price, DefaultTimeInForce).value;
    MockOutcomes(client, p, now);
    var symbol, price, quantity := GetOr(p, "symbol", Text("UNKNOWN")), GetOr(p, "price", Text("0")),
                                   GetOr(p, "quantity", Text("0"));
    var orderType, side := GetOr(p, "type", Text("MARKET")), GetOr(p, "side", Text("BUY"));
    MockOrderFixedFields(symbol, price, quantity, orderType, side, now);
    MockOrderEchoes(symbol, price, quantity, orderType, side, now);
    OrderParamsFields(a.symbol, a.side, a.orderType, a.quantity, a.price, DefaultTimeInForce);
  }
}
