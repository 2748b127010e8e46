# Binance futures trading bot: validated, signed order placement

This project models the core of a small command-line trading bot for the
Binance futures testnet. It covers three parts:

- **Validators** (`validators.dfy`). These normalise the raw order fields:
  symbol, side, order type, and the positive numbers quantity and price.
  Each one either returns the normalised value or raises: a `ValueError`,
  or, for a missing number, the `TypeError` of `float(None)`.
- **Order composition** (`orders.dfy`). `place_trade_order` runs the
  validators in a fixed order, stops at the first failure, and hands the
  normalised values to the client.
- **Signed-request client** (`client.dfy`, `signing.dfy`,
  `ordered_dict.dfy`). `place_order` builds an insertion-ordered parameter
  dict. `_send_request` sets a millisecond `timestamp` on it. When both
  credentials are non-empty, `_sign_request` appends a `signature`. The
  signature is the HMAC-SHA256 (RFC 2104 over FIPS 180-4 SHA-256) of the
  serialisation `k1=v1&k2=v2&…`. The mock client replaces the whole send
  step with a synthesised order response.

Python dicts keep insertion order. `OrderedDict.Set` models `d[k] = v`: an
existing key keeps its position and gets the new value, and a new key is
appended. `OrderedDict.ParamDict` is the mutable dict that a caller and the
client share. `_send_request` stamps the caller's own dict when it is
non-empty, and signs it when both credentials are non-empty, so the caller
sees the additions. `None` or an empty dict is
replaced by a fresh one (`params or {}`).

The model stands in for things outside the core as follows:

- **Clock.** `time.time()` is a parameter `now`, in milliseconds.
- **HMAC and float rendering.** HMAC-SHA256 and Python's `str` of a float
  are function values held by the client, so they are deterministic and
  otherwise unknown.
- **Network.** The `requests` session is a function from a `Request` to a
  `Reply`. The mock subclass is the `Mock` transport.
- **`float()`.** What `float()` makes of a raw argument is a `RawNumber`:
  `Missing` (Python `None`), `Unparsable` text, or `Parsed(x)`.
- **Exceptions.** Errors are the Python exception classes the code raises
  or lets through: `ValueError`, `TypeError`, `AttributeError`,
  `HTTPError`, `JSONDecodeError` and `RequestException`.

Behaviours of the code a reader might not expect, all of which the model
keeps:

- A LIMIT order without a price does not fail with a message about "Price".
  `validate_positive_float(None, "Price")` calls `float(None)`, and that
  raises a `TypeError` which the `except ValueError` does not catch. See
  `Orders.LimitWithoutPriceFails`.
- The mock client adds no timestamp and no signature, because its
  `_send_request` replaces the parent's entirely.
- A MARKET order's price is ignored, not rejected.
- Only 4xx and 5xx replies raise `HTTPError`. Any other status whose body
  decodes as JSON is returned.

One deviation is deliberate: `place_trade_order` is modelled with the
corrected symbol check, not the one as written (see Findings and Left out).

## Model

| member | source | states |
|---|---|---|
| Validators.ValidateSymbol | trading_bot/bot/validators.py:3-10 | The empty symbol fails with "Symbol cannot be empty.". Otherwise the check succeeds exactly when every character is an ASCII letter or digit. It then returns the upper-cased input, which is non-empty upper-case alphanumeric. Any other input fails with "Invalid symbol format: " followed by the input. This is the corrected check; see Findings. |
| Validators.ValidateSymbolAsWritten | trading_bot/bot/validators.py:3-10 | The check as written, where the pattern's `$` also matches before a final newline. The empty symbol fails; success returns the upper-cased input. |
| Validators.ValidateSymbolIdempotent | trading_bot/bot/validators.py:8-10 | A validated symbol is accepted again and returned unchanged. |
| Validators.TrailingNewlineAccepted | trading_bot/bot/validators.py:8-10 | `"btcusdt\n"` passes the as-written check and comes back as `"BTCUSDT\n"`, which is not alphanumeric. The corrected check rejects it. |
| Validators.AsWrittenDiffersOnlyOnTrailingNewline | trading_bot/bot/validators.py:8-9 | Wherever the two symbol checks disagree, the input ends in a newline, the as-written check accepts it, and the corrected one rejects it. |
| Validators.Upper | trading_bot/bot/validators.py:8 | `str.upper()` on ASCII keeps the length and leaves no lower-case letter. Each lower-case letter becomes the upper-case letter whose lower case it is, and every other character is kept. |
| Validators.UpperIdempotent | trading_bot/bot/validators.py:10 | Upper-casing twice is the same as upper-casing once. |
| Validators.UpperIsWord | trading_bot/bot/validators.py:14-15 | `s.upper()` equals an upper-case word exactly when `s` spells that word in any mixture of cases. |
| Validators.ValidateSide | trading_bot/bot/validators.py:12-17 | Succeeds exactly when the side spells BUY or SELL in any case, and returns "BUY" or "SELL" accordingly. Otherwise it fails with "Invalid side: <side>. Must be 'BUY' or 'SELL'.". |
| Validators.ValidateOrderType | trading_bot/bot/validators.py:30-35 | Succeeds exactly when the type spells LIMIT or MARKET in any case, and returns "LIMIT" or "MARKET" accordingly. Otherwise it fails with "Invalid order type: <type>. Must be 'LIMIT' or 'MARKET'.". |
| Validators.ValidateSideNormalises | trading_bot/bot/validators.py:14-17 | Two sides with the same upper case give the same result. Validating a validated side returns it unchanged. |
| Validators.ValidateOrderTypeNormalises | trading_bot/bot/validators.py:32-35 | Two types with the same upper case give the same result. Validating a validated type returns it unchanged. |
| Validators.ValidatePositiveFloat | trading_bot/bot/validators.py:19-28 | Succeeds exactly when the argument parses to x > 0, and then returns x. Unparsable input fails with "<name> must be a number."; x <= 0 fails with "<name> must be greater than 0."; every `ValueError` message starts with the name. `None` gets the uncaught `TypeError` of `float(None)`. |
| Orders.ValidateOrder | trading_bot/bot/orders.py:10-16 | Succeeds exactly when symbol, side, type and quantity validate, and the price validates when the type is LIMIT. On success the client gets `(upper(symbol), upper(side), upper(type), float(quantity), price)`. That is an alphanumeric symbol, BUY/SELL, LIMIT/MARKET and quantity > 0. A LIMIT price is > 0, and a MARKET price is passed through untouched. Uses the corrected symbol check. |
| Orders.FirstFailureWins | trading_bot/bot/orders.py:10-13 | Validation runs symbol, side, type, quantity, and the first failing validator's error is the result. |
| Orders.LimitWithoutPriceFails | trading_bot/bot/orders.py:15-16 | A LIMIT order with no price fails before the client is reached, with the `TypeError` of `float(None)`. |
| Orders.MarketPricePassesThrough | trading_bot/bot/orders.py:15-19 | A MARKET order reaches the client with whatever price it was given, missing or not positive. |
| Orders.CaseInsensitiveOrder | trading_bot/bot/orders.py:10-12 | Inputs that differ only in letter case produce the same client call. |
| Orders.LowerCaseMarketScenario | trading_bot/bot/orders.py:10-19 | ("btcusdt", "buy", "market", 0.001) reaches the client as ("BTCUSDT", "BUY", "MARKET", 0.001). |
| Orders.ClientReceivesNormalised | trading_bot/bot/orders.py:10-19 | After validation, `place_order` cannot fail its own price check. Its dict has exactly the keys symbol, side, type, quantity (then price, timeInForce for LIMIT), in that order, holding normalised values. |
| Orders.PlaceTradeOrder | trading_bot/bot/orders.py:5-19 | A validation failure is returned without calling the client. Otherwise the result is the client's outcome for the dict `place_order` builds from the normalised values. |
| Orders.MockTradeOrder | trading_bot/bot/orders.py:19 | Through the mock client, a validated order comes back with status NEW and order id 123456789. It echoes the normalised symbol, side and type and the validated quantity. |
| OrderedDict.Get | trading_bot/bot/client.py:99-117 | `d.get(k)` finds a value exactly when `k` is a key (`GetPresent`). The value is the first entry's with that key (`GetFirst`). |
| OrderedDict.GetPresent | trading_bot/bot/client.py:99 | `d.get(k)` is not `None` exactly when `k` is among the keys. |
| OrderedDict.GetOr | trading_bot/bot/client.py:99-117 | `d.get(k, default)` is the default when `k` is absent and the stored value when it is present. |
| OrderedDict.Set | trading_bot/bot/client.py:40 | `d[k] = v`; its contract is `SetNew`, `SetExisting`, `SetKeys`, `SetGet` and `SetDistinct`. |
| OrderedDict.GetFirst | trading_bot/bot/client.py:99 | `d.get(k)` returns the value at the first entry whose key is `k`. |
| OrderedDict.SetNew | trading_bot/bot/client.py:40 | `d[k] = v` with a new key appends `(k, v)` after every existing entry. |
| OrderedDict.SetExisting | trading_bot/bot/client.py:40 | `d[k] = v` with an existing key replaces that entry in place; no other entry changes. |
| OrderedDict.SetKeys | trading_bot/bot/client.py:32 | `d[k] = v` leaves the key order unchanged when `k` is present and appends `k` otherwise. |
| OrderedDict.SetGet | trading_bot/bot/client.py:40 | After `d[k] = v`, `k` reads `v` and every other key reads its old value. |
| OrderedDict.SetDistinct | trading_bot/bot/client.py:40 | `d[k] = v` keeps the keys distinct. |
| OrderedDict.ParamDict.constructor | trading_bot/bot/client.py:65-70 | A dict literal with distinct keys holds its entries in the order written. |
| OrderedDict.ParamDict.Put | trading_bot/bot/client.py:40 | In-place `self[k] = v`: the entries become `Set(old entries, k, v)` and stay a dict. |
| Signing.NatToString | trading_bot/bot/client.py:26 | `str` of the timestamp is a non-empty string of decimal digits with no leading zero. |
| Signing.NatToStringRoundTrip | trading_bot/bot/client.py:26 | The rendered timestamp reads back as the same number. |
| Signing.QueryStringDecodes | trading_bot/bot/client.py:26 | Splitting the signed string at `&` and then at the first `=` gives back every key and rendered value, in order. This holds when keys contain no `&` or `=` and values no `&`. |
| Signing.QueryStringInjective | trading_bot/bot/client.py:26 | Two such dicts with the same signed string agree key by key and rendered value by rendered value. |
| Signing.QueryStringAppend | trading_bot/bot/client.py:26 | Appending an entry appends `&k=v` to the signed string. |
| Signing.QueryString | trading_bot/bot/client.py:26 | The `&`-joined `k=v` serialisation. Its contract is `QueryStringDecodes` (it parses back to the entries), `QueryStringInjective` and `QueryStringAppend`. |
| Signing.Stamp | trading_bot/bot/client.py:40 | After `params["timestamp"] = now`, `timestamp` reads `now`. Placement is given by `StampPlacement`. |
| Signing.Sign | trading_bot/bot/client.py:25-33 | After signing, `signature` reads the HMAC of the serialisation of the entries before signing. Placement is given by `SignAppends`. |
| Signing.Prepare | trading_bot/bot/client.py:37-44 | The dict sent always reads `now` under `timestamp`. With both credentials, `signature` is the HMAC of the stamped dict's serialisation. Otherwise `signature` reads what the caller's dict held. |
| Signing.StampPlacement | trading_bot/bot/client.py:37-40 | Setting the timestamp appends it when absent, and overwrites it in place when present. Either way the keys stay distinct. |
| Signing.SignAppends | trading_bot/bot/client.py:25-33 | Signing keeps every existing entry and its position. It adds only `signature`, last, equal to the HMAC of the serialisation of all earlier entries. |
| Signing.SignedString | trading_bot/bot/client.py:26 | With no other parameters the signed string is `timestamp=<now>`. |
| Signing.SignedStringForm | trading_bot/bot/client.py:26 | The signed string is the original entries' serialisation, then `&`, then `timestamp=<now>`. With no entries it is just `timestamp=<now>`. |
| Signing.PrepareSigned | trading_bot/bot/client.py:40-44 | With both credentials, a dict with no timestamp or signature goes out as the original entries followed by the timestamp, then the signature. The signature is computed over the original entries and `timestamp=<now>`. |
| Signing.PrepareUnsigned | trading_bot/bot/client.py:43-44 | With either credential empty, only the timestamp is set and no `signature` key appears. |
| Client.Receive | trading_bot/bot/client.py:49-58 | A transport failure raises `RequestException`, a 4xx/5xx raises `HTTPError` with the body, and an undecodable body raises `JSONDecodeError`. Anything else returns the decoded JSON. |
| Client.Contains | trading_bot/bot/client.py:96 | Python's `sub in s`; `EndpointKinds` states its value on the two endpoints. |
| Client.MockResponse | trading_bot/bot/client.py:92-120 | Fails, with an `AttributeError`, exactly on an order endpoint without params. Any other endpoint gets `{"msg": "Mock response"}`. On an order endpoint with params it returns status NEW and order id 123456789, and echoes symbol, side, type and quantity via `params.get` with the source's defaults. |
| Client.EndpointKinds | trading_bot/bot/client.py:96 | The order endpoint contains "order" and the account endpoint does not. |
| Client.MockOrderGetOrderId | trading_bot/bot/client.py:98 | The synthesised order's `orderId` is 123456789. |
| Client.MockOrderGetSymbol | trading_bot/bot/client.py:99 | Its `symbol` is the echoed symbol. |
| Client.MockOrderGetStatus | trading_bot/bot/client.py:100 | Its `status` is "NEW". |
| Client.MockOrderGetOrigQty | trading_bot/bot/client.py:104 | Its `origQty` is the echoed quantity. |
| Client.MockOrderGetExecutedQty | trading_bot/bot/client.py:105 | Its `executedQty` is "0". |
| Client.MockOrderGetTimeInForce | trading_bot/bot/client.py:108 | Its `timeInForce` is "GTC". |
| Client.MockOrderGetType | trading_bot/bot/client.py:109 | Its `type` is the echoed type. |
| Client.MockOrderGetSide | trading_bot/bot/client.py:112 | Its `side` is the echoed side. |
| Client.MockOrderFixedFields | trading_bot/bot/client.py:97-120 | The synthesised order reads status NEW, order id 123456789, executedQty "0" and timeInForce "GTC". |
| Client.MockOrderEchoes | trading_bot/bot/client.py:99-117 | The synthesised order echoes the symbol, quantity, type and side from `params.get(key, default)`. |
| Client.MockOutcomes | trading_bot/bot/client.py:92-120 | The mock answers the order endpoint with the synthesised order and the account endpoint with `{"msg": "Mock response"}`. It adds no timestamp or signature, whatever its credentials. |
| Client.OrderBaseKeys | trading_bot/bot/client.py:65-70 | The dict literal has the keys symbol, side, type, quantity, in that order. |
| Client.OrderParams | trading_bot/bot/client.py:65-76 | Fails exactly for a LIMIT order without a price, with "Price is required for LIMIT orders". A non-LIMIT order is the four base entries, and any price is ignored. A LIMIT order appends price and then timeInForce. |
| Client.LimitEntriesAppend | trading_bot/bot/client.py:75-76 | Setting `price` and then `timeInForce` on the base dict appends those two entries, in that order, after quantity. |
| Client.OrderParamsKeys | trading_bot/bot/client.py:65-76 | The keys are symbol, side, type, quantity, then price and timeInForce for a LIMIT order. |
| Client.OrderParamsDistinct | trading_bot/bot/client.py:65-76 | The order dict has distinct keys and holds neither timestamp nor signature. |
| Client.OrderParamsFields | trading_bot/bot/client.py:65-70 | The order dict holds each given symbol, side, type and quantity under its own key. |
| Client.BinanceClient.constructor | trading_bot/bot/client.py:13-20 | Stores the credentials unchanged and fixes the headers `X-MBX-APIKEY: <api key>` and `Content-Type: application/json`. |
| Client.BinanceClient.Mock | trading_bot/bot/client.py:88-89 | The mock client stores its credentials and headers the same way and uses the mock send step. |
| Client.BinanceClient.SignRequest | trading_bot/bot/client.py:25-33 | Sets `signature` on the caller's dict in place, to the HMAC of its current entries' serialisation, and returns the same dict. |
| Client.BinanceClient.SendRequest | trading_bot/bot/client.py:35-58 | The result is the outcome for the caller's entries. A live client stamps a non-empty caller dict in place, and signs it when both credentials are non-empty. The mock, or an empty or absent dict, leaves the caller's dict unchanged. |
| Client.BinanceClient.PlaceOrder | trading_bot/bot/client.py:60-78 | A missing LIMIT price fails before anything is sent. Otherwise the result is the outcome of POSTing the order dict to `/fapi/v1/order`. |
| Client.BinanceClient.GetAccountInfo | trading_bot/bot/client.py:80-82 | The result is the outcome of a GET on `/fapi/v2/account` with no parameters of its own. |
| Client.LiveOrderRequest | trading_bot/bot/client.py:60-78 | A live client with both credentials sends the order entries, then `timestamp`, then `signature`. The signature is the HMAC of `<entries>&timestamp=<now>`. The session headers are included. |
| Client.LiveAccountRequest | trading_bot/bot/client.py:80-82 | A live client with both credentials sends only `timestamp` and `signature`, with the signature over `timestamp=<now>`. |

## Left out

- The command-line front end, logging configuration and every `logger`
  call are not part of this model. They are presentation and file I/O.
- Network I/O is a parameter. The `requests` session is the function
  `send` held by the transport. URL encoding of the parameters, redirects,
  and the session's own default headers are not modelled. JSON bodies are
  flat dicts of the four value kinds.
- The clock is the parameter `now`. The truncation `int(time.time() * 1000)`
  is not modelled. The mock's `updateTime` is `now`.
- HMAC-SHA256 and Python's float formatting are foreign functions. Only
  their determinism is captured; sensitivity of the signature to its input
  cannot be stated.
- `float()` parsing is not modelled; which strings parse, and NaN and
  infinity, are outside the model. `float()` on argument types other than
  `None`, strings and numbers is left out.
- Validators.Upper: models ASCII upper-casing only. Python's `str.upper()`
  also maps some non-ASCII letters onto ASCII ones (dotless `ı` to `I`,
  long `ſ` to `S`) and can change a string's length (`ß` to `SS`). Such
  symbols, sides and order types (`"lımıt"` upper-cases to `"LIMIT"`) are
  not modelled.
- Orders.ValidateOrder: built on the corrected `Validators.ValidateSymbol`,
  not on `Validators.ValidateSymbolAsWritten`. A symbol that ends in one
  newline after alphanumerics (`"btcusdt\n"`) is rejected here. The code as
  written passes it on to `place_order` as `"BTCUSDT\n"`. The same holds
  for `Orders.PlaceTradeOrder` and the lemmas about both.
- Validators.ValidateSymbol: non-string symbols are out of scope. A truthy
  one raises `AttributeError` from `.upper()` (bytes reach `re.match` and
  raise `TypeError`). A falsy one (`None`, `0`) gets the empty-symbol
  `ValueError`.
- Client.MockOutcomes: the mock with `params=None` on an order endpoint
  raises `AttributeError` (in `MockResponse`). No caller in the core does
  this, so no lemma is stated about it.

## Findings

| source | as written | input that shows it | evidently intended | confidence | as-written member | corrected member |
|---|---|---|---|---|---|---|
| trading_bot/bot/validators.py:8-9 | `re.match(r'^[A-Z0-9]+$', symbol.upper())`; Python's `$` also matches just before a final newline | `"btcusdt\n"` is accepted and returned as `"BTCUSDT\n"` | only non-empty upper-case alphanumeric symbols are accepted | not executed | Validators.ValidateSymbolAsWritten (Validators.TrailingNewlineAccepted) | Validators.ValidateSymbol (Validators.ValidateSymbolIdempotent) |
