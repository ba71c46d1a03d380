/**
 * A model of Go's `strconv.Atoi` on a 64-bit platform, the only part of
 * the `Sleep` built-in task that decides whether the task succeeds.
 *
 * `Atoi(s)` behaves as `ParseInt(s, 10, 0)`: an optional `+` or `-`, then
 * the digits are read by `ParseUint`'s loop, which stops with a range error
 * as soon as the magnitude read so far exceeds the `uint64` maximum, and
 * with a syntax error at the first character that is not an ASCII digit.
 * The result must then fit Go's 64-bit `int`. Go's fast path for inputs
 * shorter than 19 bytes returns the same results and is not modelled apart.
 */
module StrConv {
  import opened Wrappers

  /** Bounds of Go's `int` (64 bits) and of `uint64`. */
  const MinInt: int := -0x8000_0000_0000_0000
  const MaxInt: int := 0x7FFF_FFFF_FFFF_FFFF
  const MaxUint64: int := 0xFFFF_FFFF_FFFF_FFFF

  datatype NumErrorKind = ErrSyntax | ErrRange

  /** `strconv.NumError`: the failing function, the input it was given, and why. */
  datatype NumError = NumError(func: string, num: string, err: NumErrorKind)

  predicate IsDigit(c: char) { '0' <= c <= '9' }

  function DigitValue(c: char): (d: nat)
    requires IsDigit(c)
    ensures d <= 9
  {
    c as int - '0' as int
  }

  predicate AllDigits(s: string) { forall i :: 0 <= i < |s| ==> IsDigit(s[i]) }

  /** The number a string of decimal digits denotes, read as Horner's rule does. */
  function DigitsValue(s: string): nat
    requires AllDigits(s)
  {
    if s == [] then 0 else DigitsValue(s[..|s| - 1]) * 10 + DigitValue(s[|s| - 1])
  }

  predicate HasSign(s: string) { |s| > 0 && (s[0] == '+' || s[0] == '-') }

  /** The input with its sign, if any, removed. */
  function Magnitude(s: string): string { if HasSign(s) then s[1..] else s }

  predicate IsNegative(s: string) { |s| > 0 && s[0] == '-' }

  /** The syntax `Atoi` accepts in base 10: an optional sign, then one or more ASCII digits. */
  predicate IsDecimal(s: string) { |Magnitude(s)| > 0 && AllDigits(Magnitude(s)) }

  /** The integer a decimal string denotes, before any range check. */
  function DecimalValue(s: string): int
    requires IsDecimal(s)
  {
    if IsNegative(s) then -(DigitsValue(Magnitude(s)) as int) else DigitsValue(Magnitude(s))
  }

  predicate InIntRange(n: int) { MinInt <= n <= MaxInt }

  /**
   * The digit loop of `ParseUint` in base 10, `acc` being the magnitude read
   * so far. Go tests `acc >= cutoff` and then `acc * 10 + d` for wrap-around or
   * for passing the maximum; together these say `acc * 10 + d > MaxUint64`.
   */
  function ScanUint(s: string, acc: nat): (r: Result<nat, NumErrorKind>)
    requires acc <= MaxUint64
    ensures r.Ok? ==> acc <= r.value <= MaxUint64
    ensures r.Ok? ==> AllDigits(s)
    decreases |s|
  {
    if s == [] then Ok(acc)
    else if !IsDigit(s[0]) then Err(ErrSyntax)
    else
      var n := acc * 10 + DigitValue(s[0]);
      if n > MaxUint64 then Err(ErrRange) else ScanUint(s[1..], n)
  }

  /** `ParseUint(s, 10, 64)`: an empty input is a syntax error. */
  function ParseUint(s: string): (r: Result<nat, NumErrorKind>)
    ensures r.Ok? ==> |s| > 0 && r.value <= MaxUint64
  {
    if s == [] then Err(ErrSyntax) else ScanUint(s, 0)
  }

  /** `strconv.Atoi(s)`; every error it returns names `Atoi` and the whole input. */
  function Atoi(s: string): (r: Result<int, NumError>)
    ensures r.Ok? ==> InIntRange(r.value)
    ensures r.Err? ==> r.error.func == "Atoi" && r.error.num == s
  {
    if s == [] then Err(NumError("Atoi", s, ErrSyntax))
    else
      var neg := IsNegative(s);
      match ParseUint(Magnitude(s))
      case Err(kind) => Err(NumError("Atoi", s, kind))
      case Ok(un) =>
        if !neg && un > MaxInt then Err(NumError("Atoi", s, ErrRange))
        else if neg && un > -MinInt then Err(NumError("Atoi", s, ErrRange))
        else Ok(if neg then -(un as int) else un)
  }

  /** Appending a trailing digit multiplies the value by ten and adds that digit. */
  lemma DigitsValueSnoc(t: string, c: char)
    requires IsDigit(c) && AllDigits(t)
    ensures AllDigits(t + [c])
    ensures DigitsValue(t + [c]) == DigitsValue(t) * 10 + DigitValue(c)
  {
    assert (t + [c])[..|t|] == t;
  }

  /** Appending digits never makes the value smaller. */
  lemma {:induction false} DigitsValueMonotone(p: string, s: string)
    requires AllDigits(p) && AllDigits(s)
    ensures AllDigits(p + s)
    ensures DigitsValue(p) <= DigitsValue(p + s)
  {
    if s != [] {
      var s' := s[..|s| - 1];
      assert AllDigits(s');
      DigitsValueMonotone(p, s');
      var q := p + s';
      assert p + s == q + [s[|s| - 1]];
      DigitsValueSnoc(q, s[|s| - 1]);
      assert DigitsValue(p + s) == DigitsValue(q) * 10 + DigitValue(s[|s| - 1]);
    } else {
      assert p + s == p;
    }
  }

  /**
   * Continuing from the digits `p` already read (`acc` being their value), the
   * loop of `ParseUint` over the digits `s` computes the value of `p + s`,
   * and fails with a range error exactly when that value exceeds the
   * `uint64` maximum: the value read so far only grows, so an early overflow
   * is an overflow of the whole.
   */
  lemma {:induction false} ScanUintDigits(p: string, s: string, acc: nat)
    requires AllDigits(p) && AllDigits(s)
    requires acc == DigitsValue(p) && acc <= MaxUint64
    ensures AllDigits(p + s)
    decreases |s|
    ensures ScanUint(s, acc) ==
      if DigitsValue(p + s) <= MaxUint64 then Ok(DigitsValue(p + s)) else Err(ErrRange)
  {
    if s == [] {
      assert p + s == p;
    } else {
      var c, t := s[0], s[1..];
      assert AllDigits(t);
      DigitsValueSnoc(p, c);
      var p' := p + [c];
      assert p + s == p' + t;
      if DigitsValue(p') <= MaxUint64 {
        ScanUintDigits(p', t, DigitsValue(p'));
      } else {
        DigitsValueMonotone(p', t);
      }
    }
  }

  /**
   * `Atoi` accepts exactly the decimal strings whose value fits Go's `int`,
   * returns that value, and reports a decimal string out of range as a range
   * error. Every error names `Atoi` and carries the whole input.
   */
  lemma AtoiCorrect(s: string)
    ensures Atoi(s).Ok? <==> IsDecimal(s) && InIntRange(DecimalValue(s))
    ensures Atoi(s).Ok? ==> Atoi(s).value == DecimalValue(s)
    ensures IsDecimal(s) && !InIntRange(DecimalValue(s)) ==> Atoi(s) == Err(NumError("Atoi", s, ErrRange))
    ensures Atoi(s).Err? ==> Atoi(s).error.func == "Atoi" && Atoi(s).error.num == s
  {
    var m := Magnitude(s);
    if IsDecimal(s) {
      ScanUintDigits([], m, 0);
      assert [] + m == m;
      assert ParseUint(m) == if DigitsValue(m) <= MaxUint64 then Ok(DigitsValue(m)) else Err(ErrRange);
    }
  }

  /** The digit for a value below ten. */
  function DigitChar(d: nat): (c: char)
    requires d <= 9
    ensures IsDigit(c) && DigitValue(c) == d
  {
    ('0' as int + d) as char
  }

  /** The shortest decimal digits of `n`, as `strconv.FormatInt` writes them. */
  function FormatDigits(n: nat): (s: string)
    ensures |s| > 0 && AllDigits(s) && DigitsValue(s) == n
    ensures n > 0 ==> s[0] != '0'
  {
    if n < 10 then
      DigitsValueSnoc([], DigitChar(n));
      assert [] + [DigitChar(n)] == [DigitChar(n)];
      [DigitChar(n)]
    else
      var t := FormatDigits(n / 10);
      DigitsValueSnoc(t, DigitChar(n % 10));
      t + [DigitChar(n % 10)]
  }

  /** `strconv.Itoa(n)`: a minus sign for negative numbers, then the digits of the magnitude. */
  function Itoa(n: int): string
  {
    if n < 0 then "-" + FormatDigits(-n) else FormatDigits(n)
  }

  /** Every integer in range, negative ones included, is accepted back by `Atoi`. */
  lemma ItoaRoundTrip(n: int)
    requires InIntRange(n)
    ensures Atoi(Itoa(n)) == Ok(n)
  {
    var s := Itoa(n);
    if n < 0 {
      assert Magnitude(s) == FormatDigits(-n);
    }
    assert IsDecimal(s) && DecimalValue(s) == n;
    AtoiCorrect(s);
  }
}
