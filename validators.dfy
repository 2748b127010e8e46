/** The input validators: each one normalises a raw order field or rejects it
    with a `ValueError`, or, for a missing number, with the `TypeError` of
    `float(None)`. Upper-casing is modelled on ASCII characters. */
module Validators {
  import opened Common

  predicate IsLower(c: char) { 'a' <= c <= 'z' }
  predicate IsUpper(c: char) { 'A' <= c <= 'Z' }
  predicate IsDigit(c: char) { '0' <= c <= '9' }

  /** `c.upper()` for an ASCII character; every other character is unchanged. */
  function UpperChar(c: char): char {
    if IsLower(c) then (c as int - 32) as char else c
  }

  /** The lower-case letter whose upper case is the letter `c`. */
  function LowerChar(c: char): char
    requires IsUpper(c)
  {
    (c as int + 32) as char
  }

  /** `s.upper()`, character by character: no lower-case letter is left,
      each lower-case letter becomes the upper-case letter it is the lower
      case of, and every other character is kept. */
  function Upper(s: string): (u: string)
    ensures |u| == |s|
    ensures forall i :: 0 <= i < |u| ==> !IsLower(u[i])
    ensures forall i :: 0 <= i < |s| ==>
      (IsLower(s[i]) ==> IsUpper(u[i]) && LowerChar(u[i]) == s[i]) && (!IsLower(s[i]) ==> u[i] == s[i])
  {
    seq(|s|, i requires 0 <= i < |s| => UpperChar(s[i]))
  }

  /** Upper-casing twice is upper-casing once. */
  lemma UpperIdempotent(s: string)
    ensures Upper(Upper(s)) == Upper(s)
  {
  }

  /** `s` spells the upper-case word `word` in any mixture of cases. */
  predicate EqualsIgnoringCase(s: string, word: string)
    requires forall i :: 0 <= i < |word| ==> IsUpper(word[i])
  {
    |s| == |word| && forall i :: 0 <= i < |s| ==> s[i] == word[i] || s[i] == LowerChar(word[i])
  }

  /** Upper-casing yields an upper-case word exactly for the spellings of that
      word in mixed case. */
  lemma {:induction false} UpperIsWord(s: string, word: string)
    requires forall i :: 0 <= i < |word| ==> IsUpper(word[i])
    ensures Upper(s) == word <==> EqualsIgnoringCase(s, word)
  {
    if EqualsIgnoringCase(s, word) {
      assert forall i :: 0 <= i < |s| ==> Upper(s)[i] == word[i];
    }
    if Upper(s) == word {
      forall i | 0 <= i < |s| ensures s[i] == word[i] || s[i] == LowerChar(word[i]) {
        assert UpperChar(s[i]) == word[i];
      }
    }
  }

  predicate IsSymbolChar(c: char) { IsUpper(c) || IsDigit(c) }

  /** A whole-string match of `[A-Z0-9]+`: a non-empty upper-case alphanumeric symbol. */
  predicate IsSymbol(u: string) {
    |u| > 0 && forall i :: 0 <= i < |u| ==> IsSymbolChar(u[i])
  }

  /** What `re.match(r'^[A-Z0-9]+$', u)` accepts: Python's `$` matches at
      the end of the string and also just before a final newline. */
  predicate SymbolPatternMatches(u: string) {
    IsSymbol(u) || (|u| > 1 && u[|u| - 1] == '\n' && IsSymbol(u[..|u| - 1]))
  }

  /** `validate_symbol` as written, with the anchored `re.match` check. */
  function ValidateSymbolAsWritten(symbol: string): (r: Result<string>)
    ensures symbol == [] ==> r == Failure(ValueError("Symbol cannot be empty."))
    ensures r.Success? ==> r.value == Upper(symbol)
  {
    if symbol == [] then Failure(ValueError("Symbol cannot be empty."))
    else if !SymbolPatternMatches(Upper(symbol)) then
      Failure(ValueError("Invalid symbol format: " + symbol))
    else Success(Upper(symbol))
  }

  /** `validate_symbol` with the pattern matched against the whole string, as
      the check evidently intends: an empty symbol is rejected first, then any
      symbol whose upper-cased form is not upper-case alphanumeric. */
  function ValidateSymbol(symbol: string): (r: Result<string>)
    ensures symbol == [] ==> r == Failure(ValueError("Symbol cannot be empty."))
    ensures r.Success? <==>
      symbol != [] && forall i :: 0 <= i < |symbol| ==>
        IsLower(symbol[i]) || IsUpper(symbol[i]) || IsDigit(symbol[i])
    ensures r.Success? ==> IsSymbol(r.value) && r.value == Upper(symbol)
    ensures r.Failure? && symbol != [] ==> r.error == ValueError("Invalid symbol format: " + symbol)
  {
    if symbol == [] then Failure(ValueError("Symbol cannot be empty."))
    else if !IsSymbol(Upper(symbol)) then Failure(ValueError("Invalid symbol format: " + symbol))
    else Success(Upper(symbol))
  }

  /** A validated symbol is accepted again and comes back unchanged. */
  lemma ValidateSymbolIdempotent(symbol: string)
    requires ValidateSymbol(symbol).Success?
    ensures ValidateSymbol(ValidateSymbol(symbol).value) == ValidateSymbol(symbol)
  {
    UpperIdempotent(symbol);
  }

  /** The finding: a symbol followed by a newline passes the as-written check
      and comes back with the newline, so the result is not alphanumeric;
      the corrected check rejects it. */
  lemma TrailingNewlineAccepted()
    ensures ValidateSymbolAsWritten("btcusdt\n") == Success("BTCUSDT\n")
    ensures !IsSymbol("BTCUSDT\n")
    ensures ValidateSymbol("btcusdt\n") == Failure(ValueError("Invalid symbol format: btcusdt\n"))
  {
    assert Upper("btcusdt\n") == "BTCUSDT\n";
    assert "BTCUSDT\n"[..7] == "BTCUSDT";
    assert "BTCUSDT\n"[7] == '\n';
  }

  /** The two symbol checks disagree only on inputs that end in a newline. */
  lemma AsWrittenDiffersOnlyOnTrailingNewline(symbol: string)
    requires ValidateSymbolAsWritten(symbol) != ValidateSymbol(symbol)
    ensures |symbol| > 1 && symbol[|symbol| - 1] == '\n'
    ensures ValidateSymbolAsWritten(symbol).Success? && ValidateSymbol(symbol).Failure?
  {
    assert Upper(symbol)[|symbol| - 1] == UpperChar(symbol[|symbol| - 1]);
  }

  /** `validate_side`: the upper-cased side if it is BUY or SELL. */
  function ValidateSide(side: string): (r: Result<string>)
    ensures r.Success? <==> EqualsIgnoringCase(side, "BUY") || EqualsIgnoringCase(side, "SELL")
    ensures r.Success? ==> r.value == if EqualsIgnoringCase(side, "BUY") then "BUY" else "SELL"
    ensures r.Failure? ==> r.error == ValueError("Invalid side: " + side + ". Must be 'BUY' or 'SELL'.")
  {
    UpperIsWord(side, "BUY");
    UpperIsWord(side, "SELL");
    var normalized := Upper(side);
    if normalized == "BUY" || normalized == "SELL" then Success(normalized)
    else Failure(ValueError("Invalid side: " + side + ". Must be 'BUY' or 'SELL'."))
  }

  /** `validate_order_type`: the upper-cased type if it is LIMIT or MARKET. */
  function ValidateOrderType(orderType: string): (r: Result<string>)
    ensures r.Success? <==> EqualsIgnoringCase(orderType, "LIMIT") || EqualsIgnoringCase(orderType, "MARKET")
    ensures r.Success? ==> r.value == if EqualsIgnoringCase(orderType, "LIMIT") then "LIMIT" else "MARKET"
    ensures r.Failure? ==>
      r.error == ValueError("Invalid order type: " + orderType + ". Must be 'LIMIT' or 'MARKET'.")
  {
    UpperIsWord(orderType, "LIMIT");
    UpperIsWord(orderType, "MARKET");
    var normalized := Upper(orderType);
    if normalized == "LIMIT" || normalized == "MARKET" then Success(normalized)
    else Failure(ValueError("Invalid order type: " + orderType + ". Must be 'LIMIT' or 'MARKET'."))
  }

  /** Side validation ignores case and is idempotent. */
  lemma ValidateSideNormalises(side: string, other: string)
    requires Upper(side) == Upper(other)
    ensures ValidateSide(side).Success? <==> ValidateSide(other).Success?
    ensures ValidateSide(side).Success? ==>
      ValidateSide(side).value == ValidateSide(other).value &&
      ValidateSide(ValidateSide(side).value) == ValidateSide(side)
  {
    UpperIsWord(side, "BUY");
    UpperIsWord(side, "SELL");
    UpperIsWord(other, "BUY");
    UpperIsWord(other, "SELL");
  }

  /** Order-type validation ignores case and is idempotent. */
  lemma ValidateOrderTypeNormalises(orderType: string, other: string)
    requires Upper(orderType) == Upper(other)
    ensures ValidateOrderType(orderType).Success? <==> ValidateOrderType(other).Success?
    ensures ValidateOrderType(orderType).Success? ==>
      ValidateOrderType(orderType).value == ValidateOrderType(other).value &&
      ValidateOrderType(ValidateOrderType(orderType).value) == ValidateOrderType(orderType)
  {
    UpperIsWord(orderType, "LIMIT");
    UpperIsWord(orderType, "MARKET");
    UpperIsWord(other, "LIMIT");
    UpperIsWord(other, "MARKET");
  }

  /** `float(None)` raises this `TypeError`, which `validate_positive_float`
      does not catch. */
  const NoneToFloatMessage := "float() argument must be a string or a real number, not 'NoneType'"

  /** `validate_positive_float`: the parsed value if it is greater than 0. */
  function ValidatePositiveFloat(value: RawNumber, name: string): (r: Result<real>)
    ensures r.Success? <==> value.Parsed? && value.x > 0.0
    ensures r.Success? ==> r.value == value.x && r.value > 0.0
    ensures value.Missing? ==> r == Failure(TypeError(NoneToFloatMessage))
    ensures value.Unparsable? ==> r == Failure(ValueError(name + " must be a number."))
    ensures value.Parsed? && value.x <= 0.0 ==> r == Failure(ValueError(name + " must be greater than 0."))
    ensures r.Failure? && r.error.ValueError? ==> name <= r.error.msg
  {
    match value
    case Missing => Failure(TypeError(NoneToFloatMessage))
    case Unparsable(_) => Failure(ValueError(name + " must be a number."))
    case Parsed(x) =>
      if x <= 0.0 then Failure(ValueError(name + " must be greater than 0."))
      else Success(x)
  }
}
