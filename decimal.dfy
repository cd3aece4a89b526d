/**
 * Decimal integers as Go's standard library reads and writes them:
 * `fmt.Sprint` of an integer and `strconv.ParseInt(s, 10, bitSize)` for
 * the two widths the package uses (32 and 64 bits).
 */
module Decimal {

  predicate IsDigit(c: char) {
    '0' <= c <= '9'
  }

  predicate AllDigits(s: string) {
    forall i | 0 <= i < |s| :: IsDigit(s[i])
  }

  function DigitValue(c: char): nat
    requires IsDigit(c)
  {
    (c as int) - ('0' as int)
  }

  function DigitChar(d: nat): (c: char)
    requires d < 10
    ensures IsDigit(c) && DigitValue(c) == d
  {
    ((d + '0' as int) as char)
  }

  /** The number spelled by the digits of `s` written after the digits of `acc`. */
  function Accumulate(acc: nat, s: string): nat
    requires AllDigits(s)
    decreases |s|
  {
    if s == [] then acc else Accumulate(acc * 10 + DigitValue(s[0]), s[1..])
  }

  /** The shortest decimal spelling of a natural number. */
  function FormatNat(n: nat): (s: string)
    ensures s != [] && AllDigits(s)
    decreases n
  {
    if n < 10 then [DigitChar(n)] else FormatNat(n / 10) + [DigitChar(n % 10)]
  }

  /** `fmt.Sprint(i)` for an integer: a '-' for negatives, never a '+'. */
  function FormatInt(i: int): (s: string)
    ensures s != [] && (s[0] == '-' <==> i < 0)
  {
    if i < 0 then "-" + FormatNat(-i) else FormatNat(i)
  }

  /** The bit sizes passed to `strconv.ParseInt` by the package. */
  datatype Width = W32 | W64

  /** `1 << (bitSize - 1)`: the magnitude bound of a signed integer. */
  function Cutoff(w: Width): int {
    match w
    case W32 => 0x8000_0000
    case W64 => 0x8000_0000_0000_0000
  }

  /** `1 << bitSize - 1`: the largest unsigned value `ParseUint` accepts. */
  function MaxUint(w: Width): nat {
    2 * Cutoff(w) - 1
  }

  datatype NumError = NoError | ErrSyntax | ErrRange

  /** The `(value, err)` pair returned by the strconv parsers. */
  datatype Parsed = Parsed(value: int, err: NumError)

  /**
   * The digit loop of `strconv.ParseUint` in base 10: a non-digit is a
   * syntax error (value 0); the first digit that takes the running value
   * past `maxVal` is a range error (value `maxVal`), whatever follows.
   */
  function ScanUint(s: string, n: nat, maxVal: nat): (r: Parsed)
    requires n <= maxVal
    ensures r.err == NoError ==> n <= r.value <= maxVal
    ensures r.err == ErrRange ==> r.value == maxVal
    ensures r.err == ErrSyntax ==> r.value == 0
    decreases |s|
  {
    if s == [] then Parsed(n, NoError)
    else if !IsDigit(s[0]) then Parsed(0, ErrSyntax)
    else
      var n1 := n * 10 + DigitValue(s[0]);
      if n1 > maxVal then Parsed(maxVal, ErrRange) else ScanUint(s[1..], n1, maxVal)
  }

  /** `strconv.ParseUint(s, 10, bitSize)`. */
  function ParseUint(s: string, w: Width): (r: Parsed)
    ensures r.err != ErrSyntax ==> 0 <= r.value <= MaxUint(w)
  {
    if s == [] then Parsed(0, ErrSyntax) else ScanUint(s, 0, MaxUint(w))
  }

  /**
   * `strconv.ParseInt(s, 10, bitSize)`: an optional sign, then
   * `ParseUint`; a magnitude outside the signed range is a range error
   * whose value is clamped to the nearest bound.
   */
  function ParseInt(s: string, w: Width): (r: Parsed)
    ensures r.err == NoError ==> -Cutoff(w) <= r.value < Cutoff(w)
    ensures r.err == ErrSyntax ==> r.value == 0
    ensures r.err == ErrRange ==> r.value == Cutoff(w) - 1 || r.value == -Cutoff(w)
  {
    if s == [] then Parsed(0, ErrSyntax)
    else
      var neg := s[0] == '-';
      var body := if s[0] == '+' || s[0] == '-' then s[1..] else s;
      var u := ParseUint(body, w);
      if u.err == ErrSyntax then Parsed(0, ErrSyntax)
      else if !neg && u.value >= Cutoff(w) then Parsed(Cutoff(w) - 1, ErrRange)
      else if neg && u.value > Cutoff(w) then Parsed(-Cutoff(w), ErrRange)
      else Parsed(if neg then -u.value else u.value, NoError)
  }

  // ---------------------------------------------------------------------
  // Properties

  lemma {:induction false} AccumulateAtLeast(acc: nat, s: string)
    requires AllDigits(s)
    ensures Accumulate(acc, s) >= acc
    decreases |s|
  {
    if s != [] {
      AccumulateAtLeast(acc * 10 + DigitValue(s[0]), s[1..]);
    }
  }

  lemma {:induction false} AccumulateAppend(acc: nat, s: string, c: char)
    requires AllDigits(s) && IsDigit(c)
    ensures AllDigits(s + [c])
    ensures Accumulate(acc, s + [c]) == Accumulate(acc, s) * 10 + DigitValue(c)
    decreases |s|
  {
    if s == [] {
      assert [c][1..] == [];
    } else {
      assert (s + [c])[1..] == s[1..] + [c];
      AccumulateAppend(acc * 10 + DigitValue(s[0]), s[1..], c);
    }
  }

  /** Reading back what `FormatNat` wrote gives the number. */
  lemma {:induction false} FormatNatValue(n: nat)
    ensures Accumulate(0, FormatNat(n)) == n
    decreases n
  {
    if n < 10 {
      assert FormatNat(n)[1..] == [];
    } else {
      FormatNatValue(n / 10);
      AccumulateAppend(0, FormatNat(n / 10), DigitChar(n % 10));
    }
  }

  /**
   * On digits only, the ParseUint loop succeeds exactly when the whole
   * number fits, and otherwise reports a range error.
   */
  lemma {:induction false} ScanDigits(s: string, n: nat, maxVal: nat)
    requires AllDigits(s) && n <= maxVal
    ensures ScanUint(s, n, maxVal) ==
      if Accumulate(n, s) <= maxVal then Parsed(Accumulate(n, s), NoError)
      else Parsed(maxVal, ErrRange)
    decreases |s|
  {
    if s != [] {
      var n1 := n * 10 + DigitValue(s[0]);
      AccumulateAtLeast(n1, s[1..]);
      if n1 <= maxVal {
        ScanDigits(s[1..], n1, maxVal);
      }
    }
  }

  /** A successful ScanUint read only digits, and read them as a number. */
  lemma {:induction false} ScanSuccessIsDigits(s: string, n: nat, maxVal: nat)
    requires n <= maxVal && ScanUint(s, n, maxVal).err == NoError
    ensures AllDigits(s) && ScanUint(s, n, maxVal).value == Accumulate(n, s)
    decreases |s|
  {
    if s != [] {
      ScanSuccessIsDigits(s[1..], n * 10 + DigitValue(s[0]), maxVal);
    }
  }

  /**
   * `FormatInt` and `ParseInt` are inverse on the signed range of the
   * width; outside it ParseInt reports a range error with a clamped value.
   */
  lemma ParseFormatInt(i: int, w: Width)
    ensures ParseInt(FormatInt(i), w) ==
      if -Cutoff(w) <= i < Cutoff(w) then Parsed(i, NoError)
      else if i < 0 then Parsed(-Cutoff(w), ErrRange)
      else Parsed(Cutoff(w) - 1, ErrRange)
  {
    var m: nat := if i < 0 then -i else i;
    var digits := FormatNat(m);
    FormatNatValue(m);
    ScanDigits(digits, 0, MaxUint(w));
    if i < 0 {
      assert FormatInt(i)[1..] == digits;
    }
  }

  /**
   * What ParseInt accepts: an optional sign followed by one or more
   * decimal digits, read as that signed number.
   */
  lemma ParsedMeansDecimal(s: string, w: Width)
    requires ParseInt(s, w).err == NoError
    ensures s != []
    ensures var body := if s[0] == '+' || s[0] == '-' then s[1..] else s;
      body != [] && AllDigits(body) &&
      ParseInt(s, w).value == if s[0] == '-' then 0 - Accumulate(0, body) else Accumulate(0, body)
  {
    var body := if s[0] == '+' || s[0] == '-' then s[1..] else s;
    ScanSuccessIsDigits(body, 0, MaxUint(w));
  }
}
