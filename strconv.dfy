/**
 * The part of Go's `strconv.ParseUint(s, 10, 64)` that the request layer relies on:
 * digits are consumed left to right, the accumulator is checked against the cutoff
 * before it is multiplied and for wrap-around after the digit is added, and the
 * first failure decides the error.
 */
module Strconv {

  import opened GoInt

  /** The smallest n such that n * 10 no longer fits in 64 bits (`maxUint64/10 + 1`). */
  const CUTOFF: int := MAX_UINT64 / 10 + 1

  predicate IsDigit(c: char) {
    '0' <= c <= '9'
  }

  function DigitValue(c: char): (d: nat)
    requires IsDigit(c)
    ensures d < 10
  {
    c as int - '0' as int
  }

  predicate AllDigits(s: string) {
    forall i :: 0 <= i < |s| ==> IsDigit(s[i])
  }

  /** The number a string of decimal digits denotes, most significant digit first. */
  function DecimalValue(s: string): nat
    requires AllDigits(s)
  {
    if s == [] then 0 else 10 * DecimalValue(s[..|s| - 1]) + DigitValue(s[|s| - 1])
  }

  /** What `ParseUint(s, 10, 64)` accepts: a non-empty string of ASCII digits below 2^64. */
  predicate IsUint64Literal(s: string) {
    s != [] && AllDigits(s) && DecimalValue(s) <= MAX_UINT64
  }

  datatype ErrorKind = InvalidSyntax | OutOfRange

  datatype Parse = Parsed(value: Uint64) | Failed(kind: ErrorKind)

  /** The text of the `*strconv.NumError` that `ParseUint` returns for `s`. */
  function NumErrorText(s: string, kind: ErrorKind): string {
    "strconv.ParseUint: parsing " + Quote(s) + ": "
      + (match kind
         case InvalidSyntax => "invalid syntax"
         case OutOfRange => "value out of range")
  }

  /** `strconv.Quote`, without its escaping of special characters. */
  function Quote(s: string): string {
    "\"" + s + "\""
  }

  /** `strconv.ParseUint(s, 10, 64)`. */
  function ParseUint(s: string): (p: Parse)
    ensures s == [] ==> p == Failed(InvalidSyntax)
    ensures s != [] && !IsDigit(s[0]) ==> p == Failed(InvalidSyntax)
    ensures p.Parsed? ==> s != [] && AllDigits(s)
  {
    if s == [] then Failed(InvalidSyntax) else Accumulate(s, 0, 0)
  }

  /**
   * The digit loop of `ParseUint`, from position `i` with accumulator `n`: it only
   * succeeds when every remaining character is a digit, and the accumulator never
   * decreases.
   */
  function Accumulate(s: string, i: nat, n: Uint64): (p: Parse)
    requires i <= |s|
    ensures p.Parsed? ==> (forall k :: i <= k < |s| ==> IsDigit(s[k])) && p.value >= n
    decreases |s| - i
  {
    if i == |s| then Parsed(n)
    else if !IsDigit(s[i]) then Failed(InvalidSyntax)
    else if n >= CUTOFF then Failed(OutOfRange)
    else
      var m := ToUint64(n * 10);
      var n1 := ToUint64(m + DigitValue(s[i]));
      if n1 < m || n1 > MAX_UINT64 then Failed(OutOfRange)
      else Accumulate(s, i + 1, n1)
  }

  /** Where the run of digits that starts at position `i` ends. */
  function RunEnd(s: string, i: nat): (e: nat)
    requires i <= |s|
    ensures i <= e <= |s|
    ensures forall k :: i <= k < e ==> IsDigit(s[k])
    ensures e < |s| ==> !IsDigit(s[e])
    decreases |s| - i
  {
    if i == |s| || !IsDigit(s[i]) then i else RunEnd(s, i + 1)
  }

  /** The length of the leading run of digits. */
  function DigitRun(s: string): nat
    ensures DigitRun(s) <= |s|
  {
    RunEnd(s, 0)
  }

  /** A digit string denotes at least as much as any of its prefixes. */
  lemma {:induction false} DecimalValuePrefix(s: string, j: nat)
    requires AllDigits(s) && j <= |s|
    ensures AllDigits(s[..j]) && DecimalValue(s[..j]) <= DecimalValue(s)
    decreases |s|
  {
    if j < |s| {
      var t := s[..|s| - 1];
      assert t[..j] == s[..j];
      DecimalValuePrefix(t, j);
    } else {
      assert s[..j] == s;
    }
  }

  /** One more digit: the value of s[..i+1] is ten times that of s[..i] plus the digit. */
  lemma DecimalValueStep(s: string, i: nat)
    requires i < |s| && AllDigits(s[..i]) && IsDigit(s[i])
    ensures AllDigits(s[..i + 1])
    ensures DecimalValue(s[..i + 1]) == 10 * DecimalValue(s[..i]) + DigitValue(s[i])
  {
    assert s[..i + 1][..i] == s[..i];
  }

  /**
   * From a digit prefix s[..i] and its value n, the loop's outcome is decided by the
   * digit run that ends at e: a range error iff that run's value exceeds 2^64-1; a
   * syntax error iff a non-digit follows a run that fits; success iff the run is the
   * whole string and fits, with its value.
   */
  lemma {:induction false} AccumulateCorrect(s: string, i: nat, n: Uint64)
    requires i <= |s| && AllDigits(s[..i]) && n == DecimalValue(s[..i])
    ensures var e := RunEnd(s, i);
      && AllDigits(s[..e])
      && (Accumulate(s, i, n) == Failed(OutOfRange) <==> DecimalValue(s[..e]) > MAX_UINT64)
      && (Accumulate(s, i, n) == Failed(InvalidSyntax) <==> e < |s| && DecimalValue(s[..e]) <= MAX_UINT64)
      && (Accumulate(s, i, n).Parsed? <==> e == |s| && DecimalValue(s[..e]) <= MAX_UINT64)
      && (Accumulate(s, i, n).Parsed? ==> Accumulate(s, i, n).value == DecimalValue(s[..e]))
    decreases |s| - i
  {
    var e := RunEnd(s, i);
    if i == |s| || !IsDigit(s[i]) {
      assert e == i;
    } else {
      DecimalValueStep(s, i);
      var v := DecimalValue(s[..i + 1]);
      assert e == RunEnd(s, i + 1);
      assert AllDigits(s[..e]);
      assert s[..e][..i + 1] == s[..i + 1];
      DecimalValuePrefix(s[..e], i + 1);
      if n >= CUTOFF {
        assert v > MAX_UINT64;
      } else {
        var m := ToUint64(n * 10);
        assert m == n * 10;
        var n1 := ToUint64(m + DigitValue(s[i]));
        if m + DigitValue(s[i]) > MAX_UINT64 {
          assert n1 == m + DigitValue(s[i]) - TWO_64;
          assert v > MAX_UINT64;
        } else {
          assert n1 == v;
          AccumulateCorrect(s, i + 1, n1);
        }
      }
    }
  }

  /**
   * `ParseUint(s, 10, 64)` succeeds exactly on non-empty digit strings whose value
   * fits in 64 bits and returns that value. Otherwise the leading run of digits
   * decides the error: a range error iff its value exceeds 2^64-1, and a syntax
   * error iff the string is empty or a non-digit follows a run that fits.
   */
  lemma ParseUintCorrect(s: string)
    ensures ParseUint(s).Parsed? <==> IsUint64Literal(s)
    ensures ParseUint(s).Parsed? ==> IsUint64Literal(s) && ParseUint(s).value == DecimalValue(s)
    ensures AllDigits(s[..DigitRun(s)])
    ensures ParseUint(s) == Failed(OutOfRange) <==> DecimalValue(s[..DigitRun(s)]) > MAX_UINT64
    ensures ParseUint(s) == Failed(InvalidSyntax) <==>
      s == [] || (DigitRun(s) < |s| && DecimalValue(s[..DigitRun(s)]) <= MAX_UINT64)
  {
    assert s[..0] == [];
    AccumulateCorrect(s, 0, 0);
    var e := DigitRun(s);
    if e == |s| {
      assert s[..e] == s;
    } else {
      assert !AllDigits(s);
    }
  }
}
