/**
 * Go's `strconv.ParseInt(s, 10, 64)` and `strconv.FormatInt(i, 10)`, the two
 * conversions the folder-permission resource uses between declared id strings
 * and the 64-bit ids of the API. Go's integers are 64 bits wide; here they are
 * unbounded and the 64-bit range is written out (`Int64`, the range clamp of
 * ParseInt).
 */
module GoStrconv {

  const MaxInt64: int := 0x7FFF_FFFF_FFFF_FFFF
  const MinInt64: int := -0x8000_0000_0000_0000
  const MaxUint64: int := 0xFFFF_FFFF_FFFF_FFFF

  /** 2^63: the magnitude of MinInt64, and one more than MaxInt64. */
  const Pow63: int := 0x8000_0000_0000_0000

  /** ParseUint's cutoff for base 10: the smallest n with n * 10 > MaxUint64. */
  const Cutoff: int := MaxUint64 / 10 + 1

  type Int64 = x: int | MinInt64 <= x <= MaxInt64

  /** The `Err` of a `*strconv.NumError`, or no error at all. */
  datatype NumError = NoError | ErrSyntax | ErrRange

  /** The two results of ParseInt: the value and the error. */
  datatype Parsed = Parsed(value: Int64, err: NumError)

  predicate IsDigit(c: char) {
    '0' <= c <= '9'
  }

  predicate AllDigits(s: string) {
    forall k :: 0 <= k < |s| ==> IsDigit(s[k])
  }

  function DigitValue(c: char): (d: nat)
    requires IsDigit(c)
    ensures d < 10
  {
    (c as int) - ('0' as int)
  }

  function DigitChar(d: nat): (c: char)
    requires d < 10
    ensures IsDigit(c) && DigitValue(c) == d
  {
    (('0' as int) + d) as char
  }

  /** Outcome of ParseUint's digit loop. */
  datatype UintScan = Scanned(n: nat) | SyntaxError | RangeError

  /**
   * ParseUint's loop over the bytes of `s`, with `n` the value accumulated so
   * far: a byte that is not a decimal digit is a syntax error, and an overflow
   * past MaxUint64 stops the loop at once with a range error, before the
   * remaining bytes are looked at.
   */
  function ScanDigits(s: string, n: nat): (r: UintScan)
    requires n <= MaxUint64
    ensures r.Scanned? ==> r.n <= MaxUint64 && AllDigits(s)
    decreases |s|
  {
    if s == [] then Scanned(n)
    else if !IsDigit(s[0]) then SyntaxError
    else if n >= Cutoff then RangeError
    else
      var n1 := n * 10 + DigitValue(s[0]);
      if n1 > MaxUint64 then RangeError else ScanDigits(s[1..], n1)
  }

  /** `strconv.ParseUint(s, 10, 64)`: the empty string is a syntax error. */
  function ParseUint(s: string): (r: UintScan)
    ensures r.Scanned? ==> s != [] && AllDigits(s) && r.n <= MaxUint64
  {
    if s == [] then SyntaxError else ScanDigits(s, 0)
  }

  /** The signed tail of ParseInt: out-of-range magnitudes clamp to the nearest bound. */
  function ApplySign(un: nat, neg: bool, err: NumError): (r: Parsed)
    requires un <= MaxUint64
  {
    if !neg && un >= Pow63 then Parsed(MaxInt64, ErrRange)
    else if neg && un > Pow63 then Parsed(MinInt64, ErrRange)
    else Parsed(if neg then -(un as int) else un, err)
  }

  /**
   * `strconv.ParseInt(s, 10, 64)`: an optional sign, then ParseUint. A syntax
   * error yields 0; a value out of the 64-bit range yields the bound on its side.
   */
  function ParseInt(s: string): (r: Parsed)
    ensures r.err == ErrSyntax ==> r.value == 0
    ensures r.err == ErrRange ==> r.value == MaxInt64 || r.value == MinInt64
    ensures r.err == NoError && r.value != 0 ==> s != [] && IsDigit(s[|s| - 1])
    ensures s == [] ==> r == Parsed(0, ErrSyntax)
    ensures r.value < 0 ==> s[0] == '-'
  {
    if s == [] then Parsed(0, ErrSyntax)
    else
      var neg := s[0] == '-';
      var digits := if s[0] == '+' || s[0] == '-' then s[1..] else s;
      match ParseUint(digits)
      case SyntaxError => Parsed(0, ErrSyntax)
      case RangeError => ApplySign(MaxUint64, neg, ErrRange)
      case Scanned(un) => ApplySign(un, neg, NoError)
  }

  /** Decimal digits of a natural number, without leading zeros. */
  function FormatNat(n: nat): (s: string)
    ensures s != [] && AllDigits(s)
    ensures s[0] == '0' ==> n == 0
    decreases n
  {
    if n < 10 then [DigitChar(n)] else FormatNat(n / 10) + [DigitChar(n % 10)]
  }

  /** `strconv.FormatInt(i, 10)`. */
  function FormatInt(i: int): (s: string)
    ensures s != []
    ensures ':' !in s
    ensures i >= 0 <==> AllDigits(s)
  {
    if i < 0 then
      var s := "-" + FormatNat(-i);
      assert !IsDigit(s[0]);
      s
    else FormatNat(i)
  }

  /** The value of a digit string read left to right, starting from `acc`. */
  function DigitsValue(acc: nat, s: string): nat
    requires AllDigits(s)
    decreases s
  {
    if s == [] then acc else DigitsValue(acc * 10 + DigitValue(s[0]), s[1..])
  }

  lemma {:induction false} DigitsValueSnoc(acc: nat, s: string, c: char)
    requires AllDigits(s) && IsDigit(c)
    ensures AllDigits(s + [c])
    ensures DigitsValue(acc, s + [c]) == DigitsValue(acc, s) * 10 + DigitValue(c)
    decreases s
  {
    if s != [] {
      assert (s + [c])[1..] == s[1..] + [c];
      DigitsValueSnoc(acc * 10 + DigitValue(s[0]), s[1..], c);
    }
  }

  lemma {:induction false} DigitsValueAtLeast(acc: nat, s: string)
    requires AllDigits(s)
    ensures DigitsValue(acc, s) >= acc
    decreases s
  {
    if s != [] {
      DigitsValueAtLeast(acc * 10 + DigitValue(s[0]), s[1..]);
    }
  }

  /** The digits FormatNat writes read back as the number they came from. */
  lemma {:induction false} FormatNatValue(n: nat)
    ensures DigitsValue(0, FormatNat(n)) == n
    decreases n
  {
    if n >= 10 {
      FormatNatValue(n / 10);
      DigitsValueSnoc(0, FormatNat(n / 10), DigitChar(n % 10));
    }
  }

  /** ParseUint's loop neither fails nor stops early on digits whose value fits. */
  lemma {:induction false} ScanDigitsInRange(s: string, n: nat)
    requires n <= MaxUint64 && AllDigits(s)
    requires DigitsValue(n, s) <= MaxUint64
    ensures ScanDigits(s, n) == Scanned(DigitsValue(n, s))
    decreases |s|
  {
    if s != [] {
      var n1 := n * 10 + DigitValue(s[0]);
      DigitsValueAtLeast(n1, s[1..]);
      ScanDigitsInRange(s[1..], n1);
    }
  }

  /** Round trip: every 64-bit integer FormatInt writes, ParseInt reads back without error. */
  lemma {:induction false} ParseFormatInt(i: Int64)
    ensures ParseInt(FormatInt(i)) == Parsed(i, NoError)
  {
    var m: nat := if i < 0 then -(i as int) else i;
    FormatNatValue(m);
    ScanDigitsInRange(FormatNat(m), 0);
    if i < 0 {
      assert FormatInt(i)[1..] == FormatNat(m);
    }
  }
}
