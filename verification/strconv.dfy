/** The parts of Go's `strconv` and `fmt` that the gateway relies on: base-10
    integer syntax (`ParseInt(s, 10, 64)` and, on a 64-bit platform, `Atoi`),
    `ParseBool`, `%d` rendering and the `int32(...)` narrowing conversion. */
module Strconv {
  import opened Optional

  const Int64Min: int := -0x8000_0000_0000_0000
  const Int64Max: int := 0x7FFF_FFFF_FFFF_FFFF
  const Int32Min: int := -0x8000_0000
  const Int32Max: int := 0x7FFF_FFFF

  type Int64 = x: int | Int64Min <= x <= Int64Max
  type Int32 = x: int | Int32Min <= x <= Int32Max

  predicate IsDigit(c: char) { '0' <= c <= '9' }

  predicate AllDigits(s: string) { forall i :: 0 <= i < |s| ==> IsDigit(s[i]) }

  function DigitChar(d: nat): (c: char)
    requires d < 10
    ensures IsDigit(c)
  {
    (d + '0' as int) as char
  }

  /** The value of a run of decimal digits, most significant first; the
      empty run is worth 0. */
  function DigitsValue(s: string): (n: nat)
    requires AllDigits(s)
    decreases |s|
  {
    if |s| == 0 then 0
    else DigitsValue(s[..|s| - 1]) * 10 + (s[|s| - 1] as int - '0' as int)
  }

  /** The shortest decimal spelling of a natural number. */
  function Digits(n: nat): (s: string)
    ensures 0 < |s|
    ensures AllDigits(s)
    ensures n < 10 <==> |s| == 1
  {
    if n < 10 then [DigitChar(n)] else Digits(n / 10) + [DigitChar(n % 10)]
  }

  /** `fmt.Sprintf("%d", n)`: a minus sign for negatives, then the digits. */
  function FormatInt(n: int): (s: string)
    ensures 0 < |s|
    ensures s[0] == '-' <==> n < 0
    ensures forall i :: 0 < i < |s| ==> IsDigit(s[i])
    ensures ' ' !in s
  {
    if n < 0 then "-" + Digits(-n) else Digits(n)
  }

  /** Base-10 integer syntax accepted by `strconv.ParseInt` and `Atoi`: an
      optional `+` or `-`, then at least one digit; no spaces, no
      underscores, no base prefix. `None` is Go's syntax error. The value is
      not yet bounded: range checking is `ClampInt64`'s job. */
  function ParseDecimal(s: string): (r: Option<int>)
    ensures r.Some? ==> 0 < |s|
    ensures |s| > 0 && AllDigits(s) ==> r == Some(DigitsValue(s))
    ensures r.Some? && r.value < 0 ==> s[0] == '-'
  {
    if |s| == 0 then None
    else if s[0] == '+' || s[0] == '-' then
      if |s| > 1 && AllDigits(s[1..]) then
        var magnitude: int := DigitsValue(s[1..]);
        Some(if s[0] == '-' then -magnitude else magnitude)
      else None
    else if AllDigits(s) then Some(DigitsValue(s))
    else None
  }

  const Uint64Max: int := 0xFFFF_FFFF_FFFF_FFFF

  /** The value Go's `ParseInt(_, 10, 64)` returns for a number outside the
      64-bit range: the nearest bound. */
  function ClampInt64(n: int): (r: Int64)
    ensures Int64Min <= n <= Int64Max ==> r == n
    ensures n > Int64Max ==> r == Int64Max
    ensures n < Int64Min ==> r == Int64Min
  {
    if n > Int64Max then Int64Max else if n < Int64Min then Int64Min else n
  }

  /** How `ParseUint(s, 10, 64)` ends: a value, a syntax error, or a range
      error. */
  datatype Scanned = Number(value: nat) | NotANumber | OutOfRange

  /** The digit loop of `ParseUint(s, 10, 64)`: `acc` is the value of the
      digits read so far. A non-digit is a syntax error; a digit that takes
      the value past 2^64-1 is a range error at once, whatever follows. */
  function ScanDigits(s: string, acc: nat): Scanned
    requires acc <= Uint64Max
    decreases |s|
  {
    if |s| == 0 then Number(acc)
    else if !IsDigit(s[0]) then NotANumber
    else
      var n := acc * 10 + (s[0] as int - '0' as int);
      if n > Uint64Max then OutOfRange else ScanDigits(s[1..], n)
  }

  /** The length of the run of digits `s` starts with. */
  function DigitRun(s: string): (k: nat)
    ensures k <= |s|
    ensures AllDigits(s[..k])
    ensures k < |s| ==> !IsDigit(s[k])
    ensures AllDigits(s) <==> k == |s|
    decreases |s|
  {
    if |s| == 0 || !IsDigit(s[0]) then 0
    else
      var k := 1 + DigitRun(s[1..]);
      assert s[..k] == s[..1] + s[1..][..k - 1];
      k
  }

  /** `ParseUint(s, 10, 64)`, stated by the digit run `s` starts with: a
      run worth more than 2^64-1 is a range error even when a non-digit
      follows it; otherwise anything but a non-empty run of digits is a
      syntax error. */
  function ParseUint64(s: string): (r: Scanned)
    ensures r == OutOfRange <==> DigitsValue(s[..DigitRun(s)]) > Uint64Max
    ensures r.Number? <==> 0 < |s| && AllDigits(s) && DigitsValue(s) <= Uint64Max
    ensures r.Number? ==> r.value == DigitsValue(s)
  {
    ScanMatchesDigitRun(s, 0);
    HornerIsDigitsValue(s[..DigitRun(s)]);
    assert AllDigits(s) ==> s[..DigitRun(s)] == s;
    if |s| == 0 then NotANumber else ScanDigits(s, 0)
  }

  /** The text after an optional leading sign. */
  function Unsigned(s: string): string {
    if 0 < |s| && (s[0] == '+' || s[0] == '-') then s[1..] else s
  }

  /** Whether the digits `ParseInt` reads after the sign already exceed
      2^64-1 before it stops, which makes it report a range error. */
  predicate Overflows(s: string) {
    DigitsValue(Unsigned(s)[..DigitRun(Unsigned(s))]) > Uint64Max
  }

  /** The bound `ParseInt(_, 10, 64)` saturates to, by the sign of `s`. */
  function Saturated(s: string): Int64 {
    if 0 < |s| && s[0] == '-' then Int64Min else Int64Max
  }

  /** Whether `ParseInt` rejects `s` with a syntax error. */
  predicate Malformed(s: string) {
    ParseDecimal(s).None? && !Overflows(s)
  }

  /** `v, _ := strconv.ParseInt(s, 10, 64)` with the error ignored, which is
      also `v, _ := strconv.Atoi(s)` on a 64-bit platform: the value of a
      well-formed number, clamped to 64 bits; the saturated bound when the
      leading digits overflow, whatever follows them; 0 on any other
      syntax error. */
  function ParseInt64(s: string): (r: Int64)
    ensures ParseDecimal(s).Some? ==> r == ClampInt64(ParseDecimal(s).value)
    ensures Overflows(s) ==> r == Saturated(s)
    ensures Malformed(s) ==> r == 0
  {
    DecimalIsSignedDigits(s);
    assert Unsigned(s)[..|Unsigned(s)|] == Unsigned(s);
    if |s| == 0 then 0
    else
      var neg := s[0] == '-';
      match ParseUint64(Unsigned(s))
      case NotANumber => 0
      case OutOfRange => if neg then Int64Min else Int64Max
      case Number(u) => if neg then ClampInt64(-(u as int)) else ClampInt64(u)
  }

  /** A well-formed number is a sign, if any, and then a non-empty run of
      digits whose value it carries. */
  lemma DecimalIsSignedDigits(s: string)
    ensures ParseDecimal(s).Some? ==>
              && 0 < |Unsigned(s)| && AllDigits(Unsigned(s))
              && ParseDecimal(s).value == (if s[0] == '-' then -(DigitsValue(Unsigned(s)) as int) else DigitsValue(Unsigned(s)))
  {
  }

  /** The scan's accumulator after reading the digits `t`, from `acc`. */
  function Horner(acc: nat, t: string): nat
    requires AllDigits(t)
    decreases |t|
  {
    if |t| == 0 then acc else Horner(acc * 10 + (t[0] as int - '0' as int), t[1..])
  }

  lemma {:induction false} HornerGrows(acc: nat, t: string)
    requires AllDigits(t)
    ensures Horner(acc, t) >= acc
    decreases |t|
  {
    if |t| > 0 {
      HornerGrows(acc * 10 + (t[0] as int - '0' as int), t[1..]);
    }
  }

  lemma {:induction false} HornerSnoc(acc: nat, t: string, c: char)
    requires AllDigits(t) && IsDigit(c)
    ensures AllDigits(t + [c])
    ensures Horner(acc, t + [c]) == Horner(acc, t) * 10 + (c as int - '0' as int)
    decreases |t|
  {
    assert AllDigits(t + [c]) by {
      forall i | 0 <= i < |t + [c]| ensures IsDigit((t + [c])[i]) {
        if i < |t| { assert (t + [c])[i] == t[i]; }
      }
    }
    if |t| > 0 {
      assert (t + [c])[1..] == t[1..] + [c];
      HornerSnoc(acc * 10 + (t[0] as int - '0' as int), t[1..], c);
    }
  }

  /** Reading digits left to right gives the value `DigitsValue` defines
      from the right. */
  lemma {:induction false} HornerIsDigitsValue(t: string)
    requires AllDigits(t)
    ensures Horner(0, t) == DigitsValue(t)
    decreases |t|
  {
    if |t| > 0 {
      var init := t[..|t| - 1];
      HornerIsDigitsValue(init);
      HornerSnoc(0, init, t[|t| - 1]);
      assert init + [t[|t| - 1]] == t;
    }
  }

  /** The digit loop stops with a range error exactly when the digit run
      overflows, with a syntax error when a non-digit ends the run, and
      with the run's value otherwise. */
  lemma {:induction false} ScanMatchesDigitRun(s: string, acc: nat)
    requires acc <= Uint64Max
    ensures ScanDigits(s, acc) ==
              if Horner(acc, s[..DigitRun(s)]) > Uint64Max then OutOfRange
              else if DigitRun(s) < |s| then NotANumber
              else Number(Horner(acc, s[..DigitRun(s)]))
    decreases |s|
  {
    if |s| > 0 && IsDigit(s[0]) {
      var k := DigitRun(s);
      var n := acc * 10 + (s[0] as int - '0' as int);
      assert s[..k][1..] == s[1..][..k - 1];
      assert Horner(acc, s[..k]) == Horner(n, s[1..][..k - 1]);
      if n > Uint64Max {
        HornerGrows(n, s[1..][..k - 1]);
      } else {
        ScanMatchesDigitRun(s[1..], n);
      }
    }
  }

  /** Go's `int32(n)`: keeps the low 32 bits, read as two's complement. */
  function NarrowInt32(n: int): (r: Int32)
    ensures (n - r) % 0x1_0000_0000 == 0
    ensures Int32Min <= n <= Int32Max ==> r == n
  {
    (n - Int32Min) % 0x1_0000_0000 + Int32Min
  }

  /** `strconv.ParseBool`; `None` is its syntax error. */
  function ParseBool(s: string): (r: Option<bool>)
    ensures r == Some(true) <==> s in ["1", "t", "T", "TRUE", "true", "True"]
    ensures r == Some(false) <==> s in ["0", "f", "F", "FALSE", "false", "False"]
  {
    if s in ["1", "t", "T", "TRUE", "true", "True"] then Some(true)
    else if s in ["0", "f", "F", "FALSE", "false", "False"] then Some(false)
    else None
  }

  /** `v, _ := strconv.ParseBool(s)`: false whenever `s` is rejected. */
  function ParseBoolOrFalse(s: string): (r: bool)
    ensures r <==> ParseBool(s) == Some(true)
  {
    ParseBool(s).GetOr(false)
  }

  /** `strconv.FormatBool`, the spelling a client sends. */
  function FormatBool(b: bool): string {
    if b then "true" else "false"
  }

  lemma {:induction false} DigitsRoundTrip(n: nat)
    ensures DigitsValue(Digits(n)) == n
    decreases n
  {
    var s := Digits(n);
    if n >= 10 {
      DigitsRoundTrip(n / 10);
      assert s[..|s| - 1] == Digits(n / 10);
    }
  }

  /** `%d` rendering is read back exactly by `ParseDecimal`. */
  lemma FormatParseRoundTrip(n: int)
    ensures ParseDecimal(FormatInt(n)) == Some(n)
  {
    var s := FormatInt(n);
    if n < 0 {
      DigitsRoundTrip(-n);
      assert s[1..] == Digits(-n);
    } else {
      DigitsRoundTrip(n);
    }
  }

  /** Every 64-bit value survives rendering and `ParseInt64`/`Atoi`. */
  lemma ParseInt64RoundTrip(n: Int64)
    ensures ParseInt64(FormatInt(n)) == n
  {
    FormatParseRoundTrip(n);
  }

  /** A version number that fits in 32 bits survives `Atoi` and the `int32`
      narrowing. */
  lemma VersionParamRoundTrip(v: Int32)
    ensures NarrowInt32(ParseInt64(FormatInt(v))) == v
  {
    ParseInt64RoundTrip(v);
  }

  /** One that does not fit is wrapped, not rejected: "2147483648" reaches
      a provider as -2147483648. */
  lemma VersionParamWraps()
    ensures NarrowInt32(ParseInt64(FormatInt(Int32Max + 1))) == Int32Min
  {
    ParseInt64RoundTrip(Int32Max + 1);
  }

  /** Digits that already exceed 2^64-1 saturate `ParseInt`, whatever
      non-digit text follows them: the scan stops with a range error before
      it reaches that text, so the result is the bound for the sign and
      never 0. */
  lemma OverflowIgnoresTrailingText(t: string, junk: string)
    requires AllDigits(t) && DigitsValue(t) > Uint64Max
    requires 0 < |junk| && !IsDigit(junk[0])
    ensures ParseDecimal(t + junk).None? && ParseDecimal("-" + t + junk).None?
    ensures ParseInt64(t + junk) == Int64Max
    ensures ParseInt64("-" + t + junk) == Int64Min
  {
    TrailingTextUnsigned(t, junk);
    TrailingTextNegated(t, junk);
  }

  lemma TrailingTextUnsigned(t: string, junk: string)
    requires AllDigits(t) && DigitsValue(t) > Uint64Max
    requires 0 < |junk| && !IsDigit(junk[0])
    ensures ParseDecimal(t + junk).None? && ParseInt64(t + junk) == Int64Max
  {
    DigitRunStops(t, junk);
    UnsignedOverflow(t + junk);
  }

  lemma TrailingTextNegated(t: string, junk: string)
    requires AllDigits(t) && DigitsValue(t) > Uint64Max
    requires 0 < |junk| && !IsDigit(junk[0])
    ensures ParseDecimal("-" + t + junk).None? && ParseInt64("-" + t + junk) == Int64Min
  {
    DigitRunStops(t, junk);
    NegatedOverflow(t + junk);
    assert "-" + t + junk == "-" + (t + junk);
  }

  lemma UnsignedOverflow(s: string)
    requires 0 < |s| && IsDigit(s[0]) && !AllDigits(s)
    requires DigitsValue(s[..DigitRun(s)]) > Uint64Max
    ensures ParseDecimal(s).None? && Overflows(s) && Saturated(s) == Int64Max
    ensures ParseInt64(s) == Int64Max
  {
    assert Unsigned(s) == s;
  }

  lemma NegatedOverflow(s: string)
    requires 0 < |s| && IsDigit(s[0]) && !AllDigits(s)
    requires DigitsValue(s[..DigitRun(s)]) > Uint64Max
    ensures ParseDecimal("-" + s).None? && Overflows("-" + s) && Saturated("-" + s) == Int64Min
    ensures ParseInt64("-" + s) == Int64Min
  {
    var n := "-" + s;
    assert n[1..] == s;
    assert Unsigned(n) == s;
  }

  lemma DigitRunStops(t: string, junk: string)
    requires AllDigits(t) && DigitsValue(t) > Uint64Max
    requires 0 < |junk| && !IsDigit(junk[0])
    ensures var s := t + junk; 0 < |t| && IsDigit(s[0]) && !AllDigits(s)
    ensures DigitRun(t + junk) == |t| && (t + junk)[..|t|] == t
  {
    var s := t + junk;
    assert 0 < |t|;
    assert s[0] == t[0];
    assert s[|t|] == junk[0];
    assert s[..|t|] == t;
  }

  /** The smallest number that overflows, followed by text: "18446744073709551616x"
      reaches a provider as the largest int64. */
  lemma OverflowExample()
    ensures ParseInt64(FormatInt(Uint64Max + 1) + "x") == Int64Max
  {
    DigitsRoundTrip(Uint64Max + 1);
    OverflowIgnoresTrailingText(FormatInt(Uint64Max + 1), "x");
  }

  /** Both spellings of `FormatBool` are accepted by `ParseBool`. */
  lemma ParseBoolRoundTrip(b: bool)
    ensures ParseBool(FormatBool(b)) == Some(b)
  {
  }
}
