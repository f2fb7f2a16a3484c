/**
 * Fixed-width integers and Go's `strconv.ParseUint(s, 10, 64)`, the parser that
 * turns the rate half of a block-I/O throttle entry into a number.
 */
module Numbers {
  import opened Wrappers

  const MaxUint64: nat := 0xFFFF_FFFF_FFFF_FFFF

  type uint64 = x: int | 0 <= x <= 0xFFFF_FFFF_FFFF_FFFF
  type int64 = x: int | -0x8000_0000_0000_0000 <= x <= 0x7FFF_FFFF_FFFF_FFFF

  predicate IsDigit(c: char) {
    '0' <= c <= '9'
  }

  function DigitValue(c: char): (d: nat)
    requires IsDigit(c)
    ensures d <= 9
  {
    c as int - '0' as int
  }

  predicate AllDigits(s: string) {
    forall i | 0 <= i < |s| :: IsDigit(s[i])
  }

  /** The number a string of decimal digits denotes, most significant digit first. */
  function DecimalValue(s: string): nat
    requires AllDigits(s)
  {
    if s == [] then 0
    else DecimalValue(s[..|s| - 1]) * 10 + DigitValue(s[|s| - 1])
  }

  /** Go's `strconv.ErrSyntax` and `strconv.ErrRange`. */
  datatype NumErrorKind = ErrSyntax | ErrRange

  /** Go's `*strconv.NumError`: the function that failed, the input, and why. */
  datatype NumError = NumError(fn: string, num: string, err: NumErrorKind)

  /**
   * `strconv.ParseUint(s, 10, 64)`. The empty string is a syntax error; otherwise
   * the digits are scanned left to right, and the first character that is not a
   * digit (a syntax error) or the first digit that takes the value past 2^64 - 1
   * (a range error) stops the scan.
   */
  function ParseUint(s: string): (r: Result<uint64, NumError>)
    ensures r.Success? <==> s != [] && AllDigits(s) && DecimalValue(s) <= MaxUint64
    ensures r.Success? ==> r.value == DecimalValue(s)
    ensures r.Failure? ==> r.error.fn == "ParseUint" && r.error.num == s
    ensures s == [] ==> r.Failure? && r.error.err == ErrSyntax
    ensures s != [] && AllDigits(s) && DecimalValue(s) > MaxUint64 ==> r.Failure? && r.error.err == ErrRange
  {
    if s == [] then Failure(NumError("ParseUint", s, ErrSyntax))
    else
      ScanDigitsCorrect(s, 0, 0);
      ScanDigits(s, 0, 0)
  }

  /** The scanning loop of ParseUint, from position i with the value of s[..i] in acc. */
  function ScanDigits(s: string, i: nat, acc: uint64): Result<uint64, NumError>
    requires i <= |s|
    decreases |s| - i
  {
    if i == |s| then Success(acc)
    else if !IsDigit(s[i]) then Failure(NumError("ParseUint", s, ErrSyntax))
    else if acc * 10 + DigitValue(s[i]) > MaxUint64 then Failure(NumError("ParseUint", s, ErrRange))
    else ScanDigits(s, i + 1, acc * 10 + DigitValue(s[i]))
  }

  /** A prefix of a digit string never denotes more than the whole string. */
  lemma {:induction false} DecimalValuePrefix(s: string, j: nat)
    requires AllDigits(s) && j <= |s|
    ensures AllDigits(s[..j]) && DecimalValue(s[..j]) <= DecimalValue(s)
    decreases |s| - j
  {
    if j < |s| {
      DecimalValuePrefix(s, j + 1);
      assert s[..j + 1][..j] == s[..j];
    } else {
      assert s[..j] == s;
    }
  }

  /**
   * The scan succeeds exactly on digit strings whose value fits in 64 bits, and
   * then yields that value; a digit string too large for 64 bits is a range error.
   */
  lemma {:induction false} ScanDigitsCorrect(s: string, i: nat, acc: uint64)
    requires i <= |s| && AllDigits(s[..i]) && acc == DecimalValue(s[..i])
    ensures var r := ScanDigits(s, i, acc);
      && (r.Success? <==> AllDigits(s) && DecimalValue(s) <= MaxUint64)
      && (r.Success? ==> r.value == DecimalValue(s))
      && (r.Failure? ==> r.error.fn == "ParseUint" && r.error.num == s)
      && (AllDigits(s) && DecimalValue(s) > MaxUint64 ==> r.Failure? && r.error.err == ErrRange)
    decreases |s| - i
  {
    if i == |s| {
      assert s[..i] == s;
    } else if IsDigit(s[i]) {
      var next := acc * 10 + DigitValue(s[i]);
      PrefixStep(s, i);
      if next > MaxUint64 {
        if AllDigits(s) {
          DecimalValuePrefix(s, i + 1);
        }
      } else {
        ScanDigitsCorrect(s, i + 1, next);
      }
    } else {
      assert !AllDigits(s);
    }
  }

  /** One more digit multiplies the value of the prefix by ten and adds the digit. */
  lemma PrefixStep(s: string, i: nat)
    requires i < |s| && AllDigits(s[..i]) && IsDigit(s[i])
    ensures AllDigits(s[..i + 1])
    ensures DecimalValue(s[..i + 1]) == DecimalValue(s[..i]) * 10 + DigitValue(s[i])
  {
    assert s[..i + 1][..i] == s[..i];
  }
}
