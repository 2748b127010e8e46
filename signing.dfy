/** The signed-endpoint scheme of the Binance API as the client applies it:
    a millisecond `timestamp` is set on the parameter dict, the dict is
    serialised as `k1=v1&k2=v2&...` in insertion order, and the HMAC-SHA256
    of that string under the API secret (RFC 2104 over FIPS 180-4 SHA-256)
    is set as `signature`. The HMAC and Python's float formatting are foreign
    code: they enter as function values, so all that is known of them is
    that equal inputs give equal outputs. */
module Signing {
  import opened Common
  import opened OrderedDict

  /** `hmac.new(key, msg, sha256).hexdigest()` on the UTF-8 encodings of its arguments. */
  type HmacSha256 = (string, string) -> string

  /** Python's `str` of a float. */
  type FloatRepr = real -> string

  // ---- Decimal rendering of Python ints (the timestamp) ----

  function DigitChar(d: nat): char
    requires d < 10
  {
    ('0' as int + d) as char
  }

  /** The decimal digits a string of digits stands for. */
  function DigitsValue(s: string): nat
    requires forall i :: 0 <= i < |s| ==> '0' <= s[i] <= '9'
  {
    if s == [] then 0
    else DigitsValue(s[..|s| - 1]) * 10 + (s[|s| - 1] as int - '0' as int)
  }

  /** `str(n)` for a non-negative int: its decimal digits, no leading zero. */
  function NatToString(n: nat): (s: string)
    ensures |s| > 0 && forall i :: 0 <= i < |s| ==> '0' <= s[i] <= '9'
    ensures s[0] == '0' ==> n == 0
  {
    if n < 10 then [DigitChar(n)] else NatToString(n / 10) + [DigitChar(n % 10)]
  }

  /** The decimal rendering reads back as the number it renders. */
  lemma {:induction false} NatToStringRoundTrip(n: nat)
    ensures DigitsValue(NatToString(n)) == n
  {
    if n >= 10 {
      NatToStringRoundTrip(n / 10);
      var s := NatToString(n);
      assert s[..|s| - 1] == NatToString(n / 10);
    }
  }

  /** `str(i)` for a Python int. */
  function IntToString(i: int): string {
    if i < 0 then "-" + NatToString(-i) else NatToString(i)
  }

  // ---- The query string ----

  /** `f"{v}"` for a dict value. */
  function Render(v: Value, floatRepr: FloatRepr): string {
    match v
    case Text(s) => s
    case Int(i) => IntToString(i)
    case Float(x) => floatRepr(x)
    case Bool(b) => if b then "True" else "False"
  }

  /** The `f"{k}={v}"` strings of the entries, in insertion order. */
  function Fields(p: Params, floatRepr: FloatRepr): (fs: seq<string>)
    ensures |fs| == |p|
  {
    seq(|p|, i requires 0 <= i < |p| => p[i].0 + "=" + Render(p[i].1, floatRepr))
  }

  /** `'&'.join(parts)`. */
  function Join(parts: seq<string>): string {
    if parts == [] then ""
    else if |parts| == 1 then parts[0]
    else Join(parts[..|parts| - 1]) + "&" + parts[|parts| - 1]
  }

  /** The string that is signed: `'&'.join([f"{k}={v}" for k, v in params.items()])`. */
  function QueryString(p: Params, floatRepr: FloatRepr): string {
    Join(Fields(p, floatRepr))
  }

  // ---- Reading a query string back ----

  function LastAmpersand(s: string): (j: int)
    ensures -1 <= j < |s|
    ensures j >= 0 ==> s[j] == '&'
    ensures forall i :: j < i < |s| ==> s[i] != '&'
  {
    if s == [] then -1
    else if s[|s| - 1] == '&' then |s| - 1
    else
      var j := LastAmpersand(s[..|s| - 1]);
      assert s == s[..|s| - 1] + [s[|s| - 1]];
      j
  }

  /** `s.split('&')`. */
  function Split(s: string): (parts: seq<string>)
    ensures |parts| > 0
    decreases |s|
  {
    var j := LastAmpersand(s);
    if j < 0 then [s] else Split(s[..j]) + [s[j + 1..]]
  }

  /** Splitting undoes joining when no part contains `&`. */
  lemma {:induction false} SplitJoin(parts: seq<string>)
    requires |parts| > 0
    requires forall i :: 0 <= i < |parts| ==> '&' !in parts[i]
    ensures Split(Join(parts)) == parts
  {
    var n := |parts|;
    if n > 1 {
      var front := Join(parts[..n - 1]);
      SplitLast(front, parts[n - 1]);
      SplitJoin(parts[..n - 1]);
      assert parts[..n - 1] + [parts[n - 1]] == parts;
    }
  }

  /** The last `&` of `front & last` is the one added between them. */
  lemma SplitLast(front: string, last: string)
    requires '&' !in last
    ensures Split(front + "&" + last) == Split(front) + [last]
  {
    var s := front + "&" + last;
    assert s[|front|] == '&';
    forall i | |front| < i < |s| ensures s[i] != '&' {
      assert s[i] == last[i - |front| - 1];
    }
    assert LastAmpersand(s) == |front|;
    assert s[..|front|] == front;
    assert s[|front| + 1..] == last;
  }

  /** Splits a field `k=v` at its first `=`. */
  function SplitField(f: string): (kv: (string, string))
  {
    if f == [] then ("", "")
    else if f[0] == '=' then ("", f[1..])
    else
      var rest := SplitField(f[1..]);
      ([f[0]] + rest.0, rest.1)
  }

  lemma {:induction false} SplitFieldAt(k: string, v: string)
    requires '=' !in k
    ensures SplitField(k + "=" + v) == (k, v)
  {
    if k != [] {
      var f := k + "=" + v;
      assert f[0] == k[0] != '=';
      assert f[1..] == k[1..] + "=" + v;
      assert '=' !in k[1..] by {
        forall c | c in k[1..] ensures c in k { }
      }
      SplitFieldAt(k[1..], v);
      assert [k[0]] + k[1..] == k;
    }
  }

  /** Parses a query string into its (key, rendered value) pairs. */
  function ParseQuery(s: string): seq<(string, string)> {
    var parts := Split(s);
    seq(|parts|, i requires 0 <= i < |parts| => SplitField(parts[i]))
  }

  /** The entries with their values rendered as they are serialised. */
  function RenderedPairs(p: Params, floatRepr: FloatRepr): seq<(string, string)> {
    seq(|p|, i requires 0 <= i < |p| => (p[i].0, Render(p[i].1, floatRepr)))
  }

  /** Keys without `&` and `=`, rendered values without `&`: the condition
      under which the query string is unambiguous. */
  predicate PlainEntries(p: Params, floatRepr: FloatRepr) {
    forall i :: 0 <= i < |p| ==>
      '&' !in p[i].0 && '=' !in p[i].0 && '&' !in Render(p[i].1, floatRepr)
  }

  /** The signed string determines every key and every rendered value, in
      order: parsing it back yields the entries it was built from. */
  lemma QueryStringDecodes(p: Params, floatRepr: FloatRepr)
    requires p != [] && PlainEntries(p, floatRepr)
    ensures ParseQuery(QueryString(p, floatRepr)) == RenderedPairs(p, floatRepr)
  {
    var fs := Fields(p, floatRepr);
    forall i | 0 <= i < |fs| ensures '&' !in fs[i] {
      assert fs[i] == p[i].0 + "=" + Render(p[i].1, floatRepr);
    }
    SplitJoin(fs);
    forall i | 0 <= i < |p| ensures SplitField(fs[i]) == (p[i].0, Render(p[i].1, floatRepr)) {
      SplitFieldAt(p[i].0, Render(p[i].1, floatRepr));
    }
  }

  /** Two parameter lists with the same signed string agree entry by entry. */
  lemma QueryStringInjective(p: Params, q: Params, floatRepr: FloatRepr)
    requires p != [] && PlainEntries(p, floatRepr)
    requires q != [] && PlainEntries(q, floatRepr)
    requires QueryString(p, floatRepr) == QueryString(q, floatRepr)
    ensures RenderedPairs(p, floatRepr) == RenderedPairs(q, floatRepr)
  {
    QueryStringDecodes(p, floatRepr);
    QueryStringDecodes(q, floatRepr);
  }

  /** Appending an entry appends `&k=v` to the signed string. */
  lemma QueryStringAppend(p: Params, k: string, v: Value, floatRepr: FloatRepr)
    requires p != []
    ensures QueryString(p + [(k, v)], floatRepr)
         == QueryString(p, floatRepr) + "&" + k + "=" + Render(v, floatRepr)
  {
    var fs := Fields(p + [(k, v)], floatRepr);
    assert fs[..|p|] == Fields(p, floatRepr);
  }

  // ---- Timestamp and signature ----

  /** `params["timestamp"] = now`. */
  function Stamp(p: Params, now: nat): (r: Params)
    ensures Get(r, "timestamp") == Some(Int(now))
  {
    SetGet(p, "timestamp", Int(now), "timestamp");
    Set(p, "timestamp", Int(now))
  }

  /** The hex digest that `_sign_request` computes for `p`. */
  function Signature(p: Params, secret: string, hmac: HmacSha256, floatRepr: FloatRepr): string {
    hmac(secret, QueryString(p, floatRepr))
  }

  /** `_sign_request`: `params["signature"] = <digest of the current entries>`. */
  function Sign(p: Params, secret: string, hmac: HmacSha256, floatRepr: FloatRepr): (r: Params)
    ensures Get(r, "signature") == Some(Text(hmac(secret, QueryString(p, floatRepr))))
  {
    SetGet(p, "signature", Text(Signature(p, secret, hmac, floatRepr)), "signature");
    Set(p, "signature", Text(Signature(p, secret, hmac, floatRepr)))
  }

  /** The parameters `_send_request` dispatches: stamped, then signed when
      both credentials are non-empty. */
  function Prepare(p: Params, now: nat, apiKey: string, apiSecret: string,
                   hmac: HmacSha256, floatRepr: FloatRepr): (r: Params)
    ensures Get(r, "timestamp") == Some(Int(now))
    ensures apiKey != "" && apiSecret != "" ==>
      Get(r, "signature") == Some(Text(hmac(apiSecret, QueryString(Stamp(p, now), floatRepr))))
    ensures apiKey == "" || apiSecret == "" ==> Get(r, "signature") == Get(p, "signature")
  {
    var stamped := Stamp(p, now);
    SetGet(p, "timestamp", Int(now), "signature");
    SetGet(stamped, "signature", Text(Signature(stamped, apiSecret, hmac, floatRepr)), "timestamp");
    if apiKey != "" && apiSecret != "" then Sign(stamped, apiSecret, hmac, floatRepr) else stamped
  }

  /** Setting the timestamp: a new key goes after all existing keys, an
      existing key keeps its position and gets the new value. */
  lemma StampPlacement(p: Params, now: nat)
    requires DistinctKeys(p)
    ensures DistinctKeys(Stamp(p, now))
    ensures "timestamp" !in Keys(p) ==> Stamp(p, now) == p + [("timestamp", Int(now))]
    ensures forall i :: 0 <= i < |p| && p[i].0 == "timestamp" ==>
      Stamp(p, now) == p[i := ("timestamp", Int(now))]
  {
    SetDistinct(p, "timestamp", Int(now));
    if "timestamp" !in Keys(p) {
      SetNew(p, "timestamp", Int(now));
    }
    forall i | 0 <= i < |p| && p[i].0 == "timestamp"
      ensures Stamp(p, now) == p[i := ("timestamp", Int(now))]
    {
      SetExisting(p, "timestamp", Int(now), i);
    }
  }

  /** Signing keeps every existing entry where it was and adds only the
      signature, last, over all of those entries. */
  lemma SignAppends(p: Params, secret: string, hmac: HmacSha256, floatRepr: FloatRepr)
    requires DistinctKeys(p) && "signature" !in Keys(p)
    ensures DistinctKeys(Sign(p, secret, hmac, floatRepr))
    ensures Sign(p, secret, hmac, floatRepr)
         == p + [("signature", Text(hmac(secret, QueryString(p, floatRepr))))]
  {
    SetDistinct(p, "signature", Text(Signature(p, secret, hmac, floatRepr)));
    SetNew(p, "signature", Text(Signature(p, secret, hmac, floatRepr)));
  }

  /** With both credentials, a dict without timestamp or signature goes out
      with the timestamp and then the signature appended, and the signature
      covers every original entry followed by `timestamp=<now>`. */
  lemma PrepareSigned(p: Params, now: nat, apiKey: string, apiSecret: string,
                      hmac: HmacSha256, floatRepr: FloatRepr)
    requires DistinctKeys(p) && "timestamp" !in Keys(p) && "signature" !in Keys(p)
    requires apiKey != "" && apiSecret != ""
    ensures DistinctKeys(Prepare(p, now, apiKey, apiSecret, hmac, floatRepr))
    ensures Prepare(p, now, apiKey, apiSecret, hmac, floatRepr)
         == p + [("timestamp", Int(now)), ("signature", Text(hmac(apiSecret, SignedString(p, now, floatRepr))))]
  {
    var stamped := p + [("timestamp", Int(now))];
    assert Stamp(p, now) == stamped && DistinctKeys(stamped) by {
      StampPlacement(p, now);
    }
    assert "signature" !in Keys(stamped) by {
      KeysAppendOne(p, "timestamp", Int(now));
    }
    SignAppends(stamped, apiSecret, hmac, floatRepr);
  }

  /** The string a dict without timestamp gets signed over. */
  function SignedString(p: Params, now: nat, floatRepr: FloatRepr): (s: string)
    ensures p == [] ==> s == "timestamp=" + NatToString(now)
  {
    QueryString(p + [("timestamp", Int(now))], floatRepr)
  }

  /** The signed string ends in `timestamp=<now>`, after the entries it extends. */
  lemma SignedStringForm(p: Params, now: nat, floatRepr: FloatRepr)
    ensures SignedString(p, now, floatRepr)
         == (if p == [] then "" else QueryString(p, floatRepr) + "&") + "timestamp=" + NatToString(now)
  {
    if p != [] {
      QueryStringAppend(p, "timestamp", Int(now), floatRepr);
      var q, n := QueryString(p, floatRepr), NatToString(now);
      assert Render(Int(now), floatRepr) == n;
      assert q + "&" + "timestamp" + "=" + n == q + "&" + "timestamp=" + n;
    }
  }

  /** Without both credentials nothing is signed: only the timestamp is set,
      and no signature key appears that was not there before. */
  lemma PrepareUnsigned(p: Params, now: nat, apiKey: string, apiSecret: string,
                        hmac: HmacSha256, floatRepr: FloatRepr)
    requires apiKey == "" || apiSecret == ""
    ensures Prepare(p, now, apiKey, apiSecret, hmac, floatRepr) == Stamp(p, now)
    ensures "signature" !in Keys(p) ==> "signature" !in Keys(Prepare(p, now, apiKey, apiSecret, hmac, floatRepr))
  {
    SetKeys(p, "timestamp", Int(now));
  }
}
