/** Decimal amounts: the parser, the printer and the on-chain rescaling
    (depositwatcher/internal/money/money.go). Amounts are int64 minor units, six to the
    unit. */
module Money {
  import opened Wrappers

  const Decimals := 6
  const MinInt64 := -0x8000_0000_0000_0000
  const MaxInt64 := 0x7fff_ffff_ffff_ffff

  predicate IsInt64(n: int) {
    MinInt64 <= n <= MaxInt64
  }

  // ---------- digits ----------

  predicate IsDigit(c: char) {
    '0' <= c <= '9'
  }

  predicate AllDigits(s: string) {
    forall i :: 0 <= i < |s| ==> IsDigit(s[i])
  }

  function DigitChar(d: nat): (c: char)
    requires d < 10
    ensures IsDigit(c) && DigitValue(c) == d
  {
    '0' + d as char
  }

  function DigitValue(c: char): nat
    requires IsDigit(c)
  {
    (c - '0') as nat
  }

  function NatOf(s: string): nat
    requires AllDigits(s)
  {
    if s == "" then 0 else NatOf(s[..|s| - 1]) * 10 + DigitValue(s[|s| - 1])
  }

  /** Decimal digits, at least one. */
  function Printed(n: nat): (s: string)
    ensures s != "" && AllDigits(s) && NatOf(s) == n && (s[0] == '0' ==> n == 0 && |s| == 1)
    decreases n
  {
    if n < 10 then
      assert [DigitChar(n)][..0] == "";
      [DigitChar(n)]
    else
      var high, last := Printed(n / 10), [DigitChar(n % 10)];
      assert (high + last)[..|high|] == high;
      high + last
  }

  function Zeros(n: nat): (s: string)
    ensures AllDigits(s) && |s| == n
  {
    seq(n, i => '0')
  }

  /** `n` with `k` zeros after it: n * 10^k. */
  function Scaled(n: nat, k: nat): nat {
    if k == 0 then n else 10 * Scaled(n, k - 1)
  }

  lemma {:induction false} ScaledSum(a: nat, b: nat, k: nat)
    ensures Scaled(a + b, k) == Scaled(a, k) + Scaled(b, k)
  {
    if k > 0 {
      ScaledSum(a, b, k - 1);
    }
  }

  lemma {:induction false} ScaledZero(k: nat)
    ensures Scaled(0, k) == 0
  {
    if k > 0 {
      ScaledZero(k - 1);
    }
  }

  lemma {:induction false} ScaledTwice(n: nat, j: nat, k: nat)
    ensures Scaled(Scaled(n, j), k) == Scaled(n, j + k)
  {
    if k > 0 {
      ScaledTwice(n, j, k - 1);
    }
  }

  lemma {:induction false} ScaledIsTimes(n: nat, k: nat)
    ensures Scaled(n, k) == n * Scaled(1, k)
  {
    if k > 0 {
      ScaledIsTimes(n, k - 1);
      assert 10 * (n * Scaled(1, k - 1)) == n * (10 * Scaled(1, k - 1));
    }
  }

  lemma {:induction false} NatOfConcat(s: string, t: string)
    requires AllDigits(s) && AllDigits(t)
    ensures AllDigits(s + t) && NatOf(s + t) == Scaled(NatOf(s), |t|) + NatOf(t)
    decreases |t|
  {
    if t == "" {
      assert s + t == s;
    } else {
      var k := |t| - 1;
      assert (s + t)[..|s| + k] == s + t[..k];
      NatOfConcat(s, t[..k]);
    }
  }

  lemma {:induction false} NatOfZeros(n: nat)
    ensures NatOf(Zeros(n)) == 0
  {
    if n > 0 {
      assert Zeros(n)[..n - 1] == Zeros(n - 1);
      NatOfZeros(n - 1);
    }
  }

  // ---------- what a decimal string means ----------

  /** The parts of a decimal string. */
  datatype Decimal = Decimal(sign: string, whole: string, dot: bool, fraction: string)

  function Spelled(d: Decimal): string {
    d.sign + d.whole + (if d.dot then "." + d.fraction else "")
  }

  /** An optional sign, digits, and optionally a point and at most six more digits; one
      side of the point may be empty, not both. */
  predicate WellFormed(d: Decimal) {
    && d.sign in {"", "-", "+"}
    && AllDigits(d.whole) && AllDigits(d.fraction)
    && (!d.dot ==> d.fraction == "")
    && !(d.whole == "" && d.fraction == "")
    && |d.fraction| <= Decimals
  }

  /** Its exact value in millionths. */
  function Millionths(d: Decimal): int
    requires WellFormed(d)
  {
    var m := Scaled(NatOf(d.whole), Decimals) + Scaled(NatOf(d.fraction), Decimals - |d.fraction|);
    if d.sign == "-" then -m else m
  }

  predicate InRange(d: Decimal)
    requires WellFormed(d)
  {
    -MaxInt64 <= Millionths(d) <= MaxInt64
  }

  function Unsigned(d: Decimal): string {
    d.whole + (if d.dot then "." + d.fraction else "")
  }

  lemma SplitSign(d: Decimal)
    requires WellFormed(d)
    ensures Spelled(d) == d.sign + Unsigned(d) && Unsigned(d) != ""
    ensures d.sign == (if Spelled(d)[0] == '-' then "-" else if Spelled(d)[0] == '+' then "+" else "")
  {
    assert Spelled(d) == d.sign + Unsigned(d);
    assert Unsigned(d)[0] == '.' || IsDigit(Unsigned(d)[0]);
  }

  // ---------- taking a string apart ----------

  /** `strings.Cut` at the first point. */
  function CutAtPoint(s: string): (r: (string, bool, string))
    ensures s == r.0 + (if r.1 then "." + r.2 else "") && '.' !in r.0 && (!r.1 ==> r.2 == "")
  {
    if s == "" then ("", false, "")
    else if s[0] == '.' then
      assert s == "." + s[1..];
      ("", true, s[1..])
    else
      var (before, found, after) := CutAtPoint(s[1..]);
      assert s == [s[0]] + s[1..];
      ([s[0]] + before, found, after)
  }

  function SignOf(s: string): string {
    if s != "" && s[0] == '-' then "-" else if s != "" && s[0] == '+' then "+" else ""
  }

  /** The only parts a string can be read as. */
  function PartsOf(s: string): (d: Decimal)
    ensures Spelled(d) == s
  {
    var (whole, dot, fraction) := CutAtPoint(s[|SignOf(s)|..]);
    assert s == SignOf(s) + s[|SignOf(s)|..];
    Decimal(SignOf(s), whole, dot, fraction)
  }

  lemma {:induction false} CutFinds(before: string, found: bool, after: string)
    requires '.' !in before && (!found ==> after == "")
    ensures CutAtPoint(before + (if found then "." + after else "")) == (before, found, after)
    decreases |before|
  {
    var s := before + (if found then "." + after else "");
    if before == "" {
      if found {
        assert s == "." + after && s[1..] == after;
      }
    } else {
      CutFinds(before[1..], found, after);
      assert s[1..] == before[1..] + (if found then "." + after else "");
      assert before == [before[0]] + before[1..];
    }
  }

  /** No string has two readings. */
  lemma ReadingIsUnique(d: Decimal)
    requires WellFormed(d)
    ensures PartsOf(Spelled(d)) == d
  {
    SplitSign(d);
    assert SignOf(Spelled(d)) == d.sign;
    assert Spelled(d)[|d.sign|..] == Unsigned(d);
    assert '.' !in d.whole;
    CutFinds(d.whole, d.dot, d.fraction);
  }

  // ---------- parsing and printing, as functions ----------

  /** What `ParseDecimal` must return. */
  function Parsed(s: string): Result<int, ()> {
    var d := PartsOf(s);
    if WellFormed(d) && InRange(d) then Ok(Millionths(d)) else Err(())
  }

  /** A string is accepted exactly if some well-formed decimal within range is spelled
      like it, and then is worth exactly what that decimal is. */
  lemma ParsedMeans(s: string, v: int)
    ensures Parsed(s) == Ok(v) <==> exists d :: WellFormed(d) && InRange(d) && Spelled(d) == s && Millionths(d) == v
  {
    forall d | WellFormed(d) && Spelled(d) == s
      ensures d == PartsOf(s)
    {
      ReadingIsUnique(d);
    }
  }

  function Padded(s: string): (r: string)
    requires s != ""
    ensures |r| > Decimals && (|s| > Decimals ==> r == s)
    decreases Decimals - |s|
  {
    if |s| <= Decimals then Padded("0" + s) else s
  }

  function Formatted(a: int): string {
    var digits := Padded(Printed(if a < 0 then -a else a));
    (if a < 0 then "-" else "") + digits[..|digits| - Decimals] + "." + digits[|digits| - Decimals..]
  }

  /** The decimal that `Format` spells. */
  function Canonical(a: int): Decimal {
    var digits := Padded(Printed(if a < 0 then -a else a));
    Decimal(if a < 0 then "-" else "", digits[..|digits| - Decimals], true, digits[|digits| - Decimals..])
  }

  lemma {:induction false} PaddedKeeps(s: string)
    requires s != "" && AllDigits(s)
    ensures AllDigits(Padded(s)) && NatOf(Padded(s)) == NatOf(s)
    ensures (s[0] != '0' || |s| == 1) ==> (Padded(s)[0] == '0' ==> |Padded(s)| == Decimals + 1)
    decreases Decimals - |s|
  {
    if |s| <= Decimals {
      NatOfConcat("0", s);
      assert NatOf("0") == 0 by { assert "0"[..0] == ""; }
      ScaledZero(|s|);
      PaddedKeeps("0" + s);
      PaddedLength("0" + s);
    }
  }

  lemma {:induction false} PaddedLength(s: string)
    requires s != "" && |s| <= Decimals + 1
    ensures |Padded(s)| == Decimals + 1
    decreases Decimals - |s|
  {
    if |s| <= Decimals {
      PaddedLength("0" + s);
    }
  }

  /** What is printed is a decimal with exactly six places and no needless zeros, worth
      exactly the amount. */
  lemma FormattedMeans(a: int)
    ensures var d := Canonical(a);
            && Formatted(a) == Spelled(d) && WellFormed(d) && Millionths(d) == a
            && d.dot && |d.fraction| == Decimals && d.whole != "" && (d.whole[0] == '0' ==> |d.whole| == 1)
            && d.sign == (if a < 0 then "-" else "")
  {
    var n: nat := if a < 0 then -a else a;
    var digits := Padded(Printed(n));
    PaddedKeeps(Printed(n));
    var d := Canonical(a);
    assert digits == d.whole + d.fraction;
    NatOfConcat(d.whole, d.fraction);
    assert d.whole[0] == digits[0];
  }

  /** Parsing what was printed gives the amount back, for every int64 but the least,
      which the parser refuses. */
  lemma RoundTrip(a: int)
    requires IsInt64(a)
    ensures Parsed(Formatted(a)) == if a == MinInt64 then Err(()) else Ok(a)
  {
    FormattedMeans(a);
    ReadingIsUnique(Canonical(a));
  }

  // ---------- the code ----------

  method IsDigits(s: string) returns (ok: bool)
    ensures ok <==> s != "" && AllDigits(s)
  {
    if s == "" {
      return false;
    }
    for i := 0 to |s|
      invariant AllDigits(s[..i])
    {
      if s[i] < '0' || s[i] > '9' {
        assert !IsDigit(s[i]);
        return false;
      }
    }
    assert s[..|s|] == s;
    return true;
  }

  /** `strconv.ParseInt` of unsigned digits. */
  function ParsedInt(digits: string): Option<int>
    requires AllDigits(digits)
  {
    if NatOf(digits) <= MaxInt64 then Some(NatOf(digits)) else None
  }

  /** The digits the parser puts together are worth the whole part's millions and the
      fraction scaled up. */
  lemma DigitsMean(whole: string, fraction: string, k: nat)
    requires AllDigits(whole) && AllDigits(fraction)
    ensures AllDigits(whole + fraction + Zeros(k))
    ensures NatOf(whole + fraction + Zeros(k)) == Scaled(NatOf(whole), |fraction| + k) + Scaled(NatOf(fraction), k)
  {
    var w, f := NatOf(whole), NatOf(fraction);
    NatOfConcat(whole, fraction);
    Shifted(whole + fraction, k);
    ScaledSum(Scaled(w, |fraction|), f, k);
    ScaledTwice(w, |fraction|, k);
  }

  lemma Shifted(s: string, k: nat)
    requires AllDigits(s)
    ensures AllDigits(s + Zeros(k)) && NatOf(s + Zeros(k)) == Scaled(NatOf(s), k)
  {
    NatOfConcat(s, Zeros(k));
    NatOfZeros(k);
  }

  /** The digits of a decimal that passes the checks. */
  method ParseDigits(whole: string, fraction: string) returns (units: Option<nat>)
    requires AllDigits(whole) && AllDigits(fraction) && |fraction| <= Decimals
    ensures var m := Scaled(NatOf(whole), Decimals) + Scaled(NatOf(fraction), Decimals - |fraction|);
            units == if m <= MaxInt64 then Some(m) else None
  {
    DigitsMean(whole, fraction, Decimals - |fraction|);
    var parsed := ParsedInt(whole + fraction + Zeros(Decimals - |fraction|));
    return if parsed.Some? then Some(parsed.value) else None;
  }

  /** The part of `ParseDecimal` after the sign. */
  method ParseUnsigned(rest: string) returns (units: Option<nat>)
    requires rest != ""
    ensures var (whole, dot, fraction) := CutAtPoint(rest);
            var d := Decimal("", whole, dot, fraction);
            units == if WellFormed(d) && Millionths(d) <= MaxInt64 then Some(Millionths(d)) else None
  {
    var (whole, dot, fraction) := CutAtPoint(rest);
    if dot && '.' in fraction {
      return None;
    }
    if whole == "" && fraction == "" {
      return None;
    }
    var digits := if whole == "" then "0" else whole;
    var wholeOk := IsDigits(digits);
    var fractionOk := IsDigits(fraction);
    if !wholeOk || (fraction != "" && !fractionOk) {
      return None;
    }
    if |fraction| > Decimals {
      return None;
    }
    assert NatOf(digits) == NatOf(whole) by { assert "0"[..0] == ""; }
    units := ParseDigits(digits, fraction);
  }

  /** `ParseDecimal`. */
  method ParseDecimal(s: string) returns (r: Result<int, ()>)
    ensures r == Parsed(s)
  {
    if s == "" {
      return Err(());
    }
    var neg, rest := false, s;
    if s[0] == '-' {
      neg, rest := true, s[1..];
    } else if s[0] == '+' {
      rest := s[1..];
    }
    if rest == "" {
      return Err(());
    }
    var units := ParseUnsigned(rest);
    ghost var d := PartsOf(s);
    assert s[|SignOf(s)|..] == rest;
    SignAside(d);
    if units.None? {
      return Err(());
    }
    var v: int := units.value;
    return Ok(if neg then -v else v);
  }

  lemma SignAside(d: Decimal)
    requires d.sign in {"", "-", "+"}
    ensures var e := d.(sign := "");
            && (WellFormed(d) <==> WellFormed(e))
            && (WellFormed(d) ==> Millionths(d) == (if d.sign == "-" then -Millionths(e) else Millionths(e)) && Millionths(e) >= 0)
  {
  }

  /** `Format`. */
  method Format(a: int) returns (s: string)
    requires IsInt64(a)
    ensures s == Formatted(a)
  {
    var neg := a < 0;
    var digits := Printed(if neg then -a else a);
    ghost var padded := Padded(digits);
    while |digits| < Decimals + 1
      invariant digits != "" && Padded(digits) == padded
      decreases Decimals + 1 - |digits|
    {
      digits := "0" + digits;
    }
    var whole, fraction := digits[..|digits| - Decimals], digits[|digits| - Decimals..];
    s := whole + "." + fraction;
    if neg {
      s := "-" + s;
    }
  }

  /** `FromOnChainUnits`. */
  function FromOnChainUnits(raw: Option<int>, onChainDecimals: int): Result<int, ()> {
    if raw.None? || raw.value < 0 || onChainDecimals < Decimals then Err(())
    else
      ScaleIsPositive(onChainDecimals - Decimals);
      var scaled := raw.value / Scaled(1, onChainDecimals - Decimals);
      if scaled > MaxInt64 then Err(()) else Ok(scaled)
  }

  lemma {:induction false} ScaleIsPositive(k: nat)
    ensures Scaled(1, k) >= 1
  {
    if k > 0 {
      ScaleIsPositive(k - 1);
    }
  }

  /** An on-chain amount is accepted exactly if it is not negative, fine enough, and
      below 2^63 units; the excess digits are cut off, never rounded. */
  lemma RescalingTruncates(raw: Option<int>, onChainDecimals: int)
    ensures FromOnChainUnits(raw, onChainDecimals).Ok? <==>
              raw.Some? && raw.value >= 0 && onChainDecimals >= Decimals
              && raw.value < Scaled(MaxInt64 + 1, onChainDecimals - Decimals)
    ensures forall v :: FromOnChainUnits(raw, onChainDecimals) == Ok(v) ==>
              0 <= v && Scaled(v, onChainDecimals - Decimals) <= raw.value < Scaled(v + 1, onChainDecimals - Decimals)
  {
    if raw.Some? && raw.value >= 0 && onChainDecimals >= Decimals {
      var k := onChainDecimals - Decimals;
      ScaleIsPositive(k);
      Truncates(raw.value, Scaled(1, k), MaxInt64);
      var v := raw.value / Scaled(1, k);
      ScaledIsTimes(v, k);
      ScaledIsTimes(v + 1, k);
      ScaledIsTimes(MaxInt64 + 1, k);
    }
  }

  lemma Truncates(n: nat, scale: nat, limit: nat)
    requires scale >= 1
    ensures n / scale >= 0 && (n / scale) * scale <= n < (n / scale + 1) * scale
    ensures n / scale <= limit <==> n < (limit + 1) * scale
  {
    var q := n / scale;
    assert n == q * scale + n % scale;
    if q <= limit {
      Monotone(q + 1, limit + 1, scale);
    } else {
      Monotone(limit + 1, q, scale);
    }
  }

  lemma Monotone(a: nat, b: nat, c: nat)
    requires a <= b
    ensures a * c <= b * c
  {
    assert b * c == a * c + (b - a) * c;
  }
}
