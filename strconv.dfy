/**
 * The two conversions of Go's strconv package that the bot uses:
 * Atoi (decimal text to a 64-bit int) and Itoa (int to decimal text).
 */
module Strconv {
  import opened Wrappers

  const MAX_INT64: int := 0x7fff_ffff_ffff_ffff
  const MIN_INT64: int := -0x8000_0000_0000_0000

  predicate InInt64(n: int) {
    MIN_INT64 <= n <= MAX_INT64
  }

  /** The two kinds of *strconv.NumError that Atoi reports. */
  datatype NumError = ErrSyntax | ErrRange

  /** Atoi's two results: the int it returns and its error, if any. */
  datatype AtoiResult = AtoiResult(value: int, err: Option<NumError>)

  predicate IsDigit(c: char) {
    '0' <= c <= '9'
  }

  predicate AllDigits(s: string) {
    forall i :: 0 <= i < |s| ==> IsDigit(s[i])
  }

  function DigitValue(c: char): nat
    requires IsDigit(c)
  {
    c as int - '0' as int
  }

  function DigitChar(d: nat): (c: char)
    requires d < 10
    ensures IsDigit(c) && DigitValue(c) == d
  {
    ('0' as int + d) as char
  }

  /** The number a string of decimal digits denotes, read most significant digit first. */
  function DigitsValue(s: string): nat
    requires AllDigits(s)
  {
    if s == [] then 0 else DigitsValue(s[..|s| - 1]) * 10 + DigitValue(s[|s| - 1])
  }

  /** Whether s has a sign character in front. */
  predicate HasSign(s: string) {
    |s| > 0 && (s[0] == '+' || s[0] == '-')
  }

  /** What is left of s once an optional leading sign is taken off. */
  function Unsigned(s: string): string {
    if HasSign(s) then s[1..] else s
  }

  /** The grammar Atoi accepts: an optional '+' or '-' followed by one or more ASCII digits. */
  predicate WellFormed(s: string) {
    |Unsigned(s)| > 0 && AllDigits(Unsigned(s))
  }

  /** The mathematical value of a well-formed decimal text, before any range check. */
  function Denoted(s: string): int
    requires WellFormed(s)
  {
    var magnitude: int := DigitsValue(Unsigned(s));
    if s[0] == '-' then -magnitude else magnitude
  }

  const MAX_UINT64: int := 0xffff_ffff_ffff_ffff

  /** The length of the run of digits at the start of s. */
  function LeadingDigits(s: string): (k: nat)
    ensures k <= |s| && AllDigits(s[..k])
    ensures k < |s| ==> !IsDigit(s[k])
  {
    if s == [] || !IsDigit(s[0]) then 0
    else
      var k := 1 + LeadingDigits(s[1..]);
      assert forall i :: 1 <= i < k ==> s[..k][i] == s[1..][..k - 1][i - 1];
      k
  }

  /**
   * ParseUint's overflow: read from the left, the digits after the sign pass the uint64
   * maximum before any other character is reached, and Atoi stops there with a range error.
   */
  predicate Overflows(s: string) {
    var u := Unsigned(s);
    DigitsValue(u[..LeadingDigits(u)]) > MAX_UINT64
  }

  /** The bound a range error returns: the one on the side of the sign. */
  function Clamp(s: string): int {
    if |s| > 0 && s[0] == '-' then MIN_INT64 else MAX_INT64
  }

  /**
   * strconv.Atoi: the digits are read left to right, so an overflow of the leading digits is a
   * range error whatever follows them; otherwise a text outside the grammar is a syntax error
   * returning 0, and a well-formed value outside the 64-bit range returns the nearest bound
   * with a range error.
   */
  function Atoi(s: string): (r: AtoiResult)
    ensures InInt64(r.value)
    ensures r.err == Some(ErrSyntax) <==> !WellFormed(s) && !Overflows(s)
    ensures r.err == None <==> WellFormed(s) && InInt64(Denoted(s))
    ensures r.err == None ==> r.value == Denoted(s)
    ensures r.err == Some(ErrSyntax) ==> r.value == 0
    ensures r.err == Some(ErrRange) ==> r.value == Clamp(s)
    ensures Overflows(s) ==> r.err == Some(ErrRange)
  {
    if Overflows(s) then
      var u := Unsigned(s);
      assert WellFormed(s) ==> u[..LeadingDigits(u)] == u;
      AtoiResult(Clamp(s), Some(ErrRange))
    else if !WellFormed(s) then
      AtoiResult(0, Some(ErrSyntax))
    else
      var v := Denoted(s);
      if v > MAX_INT64 then AtoiResult(MAX_INT64, Some(ErrRange))
      else if v < MIN_INT64 then AtoiResult(MIN_INT64, Some(ErrRange))
      else AtoiResult(v, None)
  }

  /** The shortest decimal spelling of a natural number: no sign and no leading zero. */
  function NatToDecimal(n: nat): (s: string)
    ensures |s| > 0 && AllDigits(s)
    ensures |s| > 1 ==> s[0] != '0'
    ensures DigitsValue(s) == n
  {
    if n < 10 then
      [DigitChar(n)]
    else
      var prefix := NatToDecimal(n / 10);
      var s := prefix + [DigitChar(n % 10)];
      assert s[..|s| - 1] == prefix;
      s
  }

  /** strconv.Itoa: a '-' in front of a negative number, then its digits. */
  function Itoa(n: int): string {
    if n < 0 then "-" + NatToDecimal(-n) else NatToDecimal(n)
  }

  /** Every 64-bit int survives the trip through its decimal text. */
  lemma ItoaRoundTrip(n: int)
    requires InInt64(n)
    ensures Atoi(Itoa(n)) == AtoiResult(n, None)
  {
    var s := Itoa(n);
    if n < 0 {
      assert HasSign(s) && Unsigned(s) == NatToDecimal(-n);
    } else {
      var d := NatToDecimal(n);
      assert !HasSign(s) by { assert IsDigit(d[0]); }
    }
  }

  /** A prefix of a digit string denotes no more than the whole string. */
  lemma {:induction false} DigitsValuePrefix(s: string, j: nat)
    requires AllDigits(s) && j <= |s|
    ensures AllDigits(s[..j]) && DigitsValue(s[..j]) <= DigitsValue(s)
  {
    if j < |s| {
      var init := s[..|s| - 1];
      assert AllDigits(init) by {
        forall i | 0 <= i < |init| ensures IsDigit(init[i]) {
          assert init[i] == s[i];
        }
      }
      DigitsValuePrefix(init, j);
      assert init[..j] == s[..j];
      assert DigitsValue(s) == DigitsValue(init) * 10 + DigitValue(s[|s| - 1]);
    } else {
      assert s[..j] == s;
    }
  }

  /** A digit prefix of u past the uint64 maximum makes the whole leading run overflow. */
  lemma LeadingRunOverflows(u: string, j: nat)
    requires j <= |u| && AllDigits(u[..j]) && DigitsValue(u[..j]) > MAX_UINT64
    ensures DigitsValue(u[..LeadingDigits(u)]) > MAX_UINT64
  {
    var k := LeadingDigits(u);
    assert forall i :: 0 <= i < j ==> IsDigit(u[i]) by {
      forall i | 0 <= i < j ensures IsDigit(u[i]) {
        assert u[..j][i] == u[i];
      }
    }
    assert k >= j;
    DigitsValuePrefix(u[..k], j);
    assert u[..k][..j] == u[..j];
  }

  /** An overflowing text gets the bound on the side of its sign. */
  lemma OverflowClamps(s: string)
    requires Overflows(s)
    ensures Atoi(s) == AtoiResult(Clamp(s), Some(ErrRange))
  {
  }

  /** Once the leading digits pass the uint64 maximum, the rest of the text is never read. */
  lemma OverflowIgnoresRest(digits: string, rest: string)
    requires AllDigits(digits) && DigitsValue(digits) > MAX_UINT64
    ensures Atoi(digits + rest) == AtoiResult(MAX_INT64, Some(ErrRange))
    ensures Atoi("-" + digits + rest) == AtoiResult(MIN_INT64, Some(ErrRange))
  {
    var u := digits + rest;
    assert u[..|digits|] == digits;
    LeadingRunOverflows(u, |digits|);
    assert u[0] == digits[0] && IsDigit(digits[0]);
    assert Unsigned(u) == u;
    OverflowClamps(u);
    var v := "-" + u;
    assert v[1..] == u && Unsigned(v) == u;
    assert "-" + digits + rest == v;
    OverflowClamps(v);
  }

  /** A comma is outside Atoi's grammar: it is a syntax error unless the digits before it overflow. */
  lemma CommaRejected(s: string, i: int)
    requires 0 <= i < |s| && s[i] == ','
    ensures Atoi(s).err.Some?
    ensures !Overflows(s) ==> Atoi(s) == AtoiResult(0, Some(ErrSyntax))
  {
    if HasSign(s) && i > 0 {
      assert Unsigned(s)[i - 1] == ',';
    } else if !HasSign(s) {
      assert Unsigned(s)[i] == ',';
    }
  }
}
