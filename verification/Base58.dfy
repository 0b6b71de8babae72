/** Base58 decoding of extended keys: the value is preserved, leading zero bytes are
    counted by leading '1's, and so decoding is one-to-one
    (depositwatcher/internal/addresses/bip32.go; the encoding is the one BIP 32's
    section "Serialization format" uses). */
module Base58 {
  import opened Wrappers

  /** The digits and letters without 0, I, O and l. */
  const Alphabet := "123456789" + "ABCDEFGH" + "JKLMN" + "PQRSTUVWXYZ" + "abcdefghijk" + "mnopqrstuvwxyz"

  // ---------- digits in any base ----------

  ghost predicate AreDigits(ds: seq<nat>, base: nat) {
    forall i :: 0 <= i < |ds| ==> ds[i] < base
  }

  /** The number the digits stand for, most significant first. */
  function ValueOf(ds: seq<nat>, base: nat): nat {
    if ds == [] then 0 else ValueOf(ds[..|ds| - 1], base) * base + ds[|ds| - 1]
  }

  predicate NoLeadingZero(ds: seq<nat>) {
    ds == [] || ds[0] != 0
  }

  /** The digits of `n`, without leading zeros. */
  function DigitsOf(n: nat, base: nat): (ds: seq<nat>)
    requires base >= 2
    ensures AreDigits(ds, base) && NoLeadingZero(ds) && ValueOf(ds, base) == n
    decreases n
  {
    if n == 0 then []
    else
      Quotient(n, base);
      var high := DigitsOf(n / base, base);
      assert (high + [n % base])[..|high|] == high;
      assert high == [] ==> n / base == 0 && n % base == n;
      high + [n % base]
  }

  lemma Quotient(n: nat, base: nat)
    requires base >= 2 && n > 0
    ensures n / base < n && n % base < base && n == (n / base) * base + n % base
  {
  }

  lemma Remainder(high: nat, low: nat, base: nat)
    requires low < base
    ensures (high * base + low) / base == high && (high * base + low) % base == low
  {
    DivideUnique(high * base + low, base, high, low);
  }

  lemma DivideUnique(n: nat, base: nat, q: nat, r: nat)
    requires base > 0 && n == q * base + r && r < base
    ensures n / base == q && n % base == r
  {
    var k := q - n / base;
    Distribute(q, n / base, base);
    assert n % base - r == k * base;
    if k >= 1 {
      AtLeast(k, base);
    } else if k <= -1 {
      Distribute(0, k, base);
      AtLeast(-k, base);
    }
  }

  lemma Distribute(a: int, b: int, c: int)
    ensures (a - b) * c == a * c - b * c
  {
  }

  lemma AtLeast(k: nat, base: nat)
    requires k >= 1
    ensures k * base >= base
  {
    Distribute(k, k - 1, base);
  }

  lemma {:induction false} LeadingDigitCounts(ds: seq<nat>, base: nat)
    requires base >= 2 && ds != [] && ds[0] != 0
    ensures ValueOf(ds, base) > 0
  {
    if |ds| > 1 {
      LeadingDigitCounts(ds[..|ds| - 1], base);
    }
  }

  /** A number has one digit sequence without leading zeros. */
  lemma {:induction false} DigitsAreUnique(ds: seq<nat>, es: seq<nat>, base: nat)
    requires base >= 2 && AreDigits(ds, base) && AreDigits(es, base) && NoLeadingZero(ds) && NoLeadingZero(es)
    requires ValueOf(ds, base) == ValueOf(es, base)
    ensures ds == es
    decreases |ds|
  {
    if ds == [] {
      if es != [] {
        LeadingDigitCounts(es, base);
      }
    } else if es == [] {
      LeadingDigitCounts(ds, base);
    } else {
      var i, j := |ds| - 1, |es| - 1;
      Remainder(ValueOf(ds[..i], base), ds[i], base);
      Remainder(ValueOf(es[..j], base), es[j], base);
      DigitsAreUnique(ds[..i], es[..j], base);
      assert ds == ds[..i] + [ds[i]] && es == es[..j] + [es[j]];
    }
  }

  // ---------- leading zeros ----------

  function Zeros(n: nat): seq<nat> {
    seq(n, i => 0)
  }

  function LeadingZeros(ds: seq<nat>): nat {
    if ds != [] && ds[0] == 0 then 1 + LeadingZeros(ds[1..]) else 0
  }

  lemma {:induction false} ZerosSplit(ds: seq<nat>, base: nat)
    ensures LeadingZeros(ds) <= |ds| && ds == Zeros(LeadingZeros(ds)) + ds[LeadingZeros(ds)..]
    ensures NoLeadingZero(ds[LeadingZeros(ds)..])
  {
    if ds != [] && ds[0] == 0 {
      ZerosSplit(ds[1..], base);
      assert ds == [ds[0]] + ds[1..];
      assert Zeros(LeadingZeros(ds)) == [0] + Zeros(LeadingZeros(ds[1..]));
      assert ds[LeadingZeros(ds)..] == ds[1..][LeadingZeros(ds[1..])..];
    }
  }

  lemma {:induction false} ZerosLead(n: nat, rest: seq<nat>)
    requires NoLeadingZero(rest)
    ensures LeadingZeros(Zeros(n) + rest) == n
  {
    if n == 0 {
      assert Zeros(0) + rest == rest;
    } else {
      ZerosLead(n - 1, rest);
      assert (Zeros(n) + rest)[1..] == Zeros(n - 1) + rest;
    }
  }

  lemma {:induction false} ZerosAddNothing(n: nat, rest: seq<nat>, base: nat)
    ensures ValueOf(Zeros(n) + rest, base) == ValueOf(rest, base)
    decreases n + |rest|
  {
    if rest != [] {
      assert (Zeros(n) + rest)[..n + |rest| - 1] == Zeros(n) + rest[..|rest| - 1];
      ZerosAddNothing(n, rest[..|rest| - 1], base);
    } else if n > 0 {
      assert Zeros(n) + rest == Zeros(n) && Zeros(n)[..n - 1] == Zeros(n - 1) + [];
      ZerosAddNothing(n - 1, [], base);
    } else {
      assert Zeros(0) + rest == rest;
    }
  }

  // ---------- changing base ----------

  /** From digits in one base to digits in another, leading zeros kept one for one. */
  function Rebased(ds: seq<nat>, from: nat, to: nat): seq<nat>
    requires to >= 2
  {
    Zeros(LeadingZeros(ds)) + DigitsOf(ValueOf(ds, from), to)
  }

  lemma RebasedKeeps(ds: seq<nat>, from: nat, to: nat)
    requires to >= 2
    ensures AreDigits(Rebased(ds, from, to), to)
    ensures ValueOf(Rebased(ds, from, to), to) == ValueOf(ds, from)
    ensures LeadingZeros(Rebased(ds, from, to)) == LeadingZeros(ds)
  {
    ZerosAddNothing(LeadingZeros(ds), DigitsOf(ValueOf(ds, from), to), to);
    ZerosLead(LeadingZeros(ds), DigitsOf(ValueOf(ds, from), to));
  }

  /** Changing base and back is the identity. */
  lemma RebasedRoundTrip(ds: seq<nat>, from: nat, to: nat)
    requires from >= 2 && to >= 2 && AreDigits(ds, from)
    ensures Rebased(Rebased(ds, from, to), to, from) == ds
  {
    RebasedKeeps(ds, from, to);
    ZerosSplit(ds, from);
    var n := LeadingZeros(ds);
    ZerosAddNothing(n, ds[n..], from);
    DigitsAreUnique(ds[n..], DigitsOf(ValueOf(ds, from), from), from);
  }

  // ---------- strings ----------

  /** The base58Index table: a character's place in the alphabet. */
  function DigitOf(c: char): Option<nat> {
    if exists i :: 0 <= i < |Alphabet| && Alphabet[i] == c
    then
      var i := Position(c, 0);
      Some(i)
    else None
  }

  function Position(c: char, from: nat): (i: nat)
    requires exists i :: from <= i < |Alphabet| && Alphabet[i] == c
    ensures from <= i < |Alphabet| && Alphabet[i] == c && forall j :: from <= j < i ==> Alphabet[j] != c
    decreases |Alphabet| - from
  {
    if Alphabet[from] == c then from else Position(c, from + 1)
  }

  predicate IsBase58(s: string) {
    forall i :: 0 <= i < |s| ==> DigitOf(s[i]).Some?
  }

  function Digits(s: string): (ds: seq<nat>)
    requires IsBase58(s)
    ensures |ds| == |s| && AreDigits(ds, 58)
  {
    seq(|s|, i requires 0 <= i < |s| => DigitOf(s[i]).value)
  }

  function Bytes(s: string): seq<nat>
    requires IsBase58(s)
  {
    Rebased(Digits(s), 58, 256)
  }

  /** The other direction, as a reference: bytes to a base58 string. */
  function Encode(bytes: seq<nat>): (s: string)
    requires AreDigits(bytes, 256)
  {
    RebasedKeeps(bytes, 256, 58);
    var ds := Rebased(bytes, 256, 58);
    seq(|ds|, i requires 0 <= i < |ds| => Alphabet[ds[i]])
  }

  lemma DigitIsAlphabet(c: char)
    ensures DigitOf(c).Some? ==> DigitOf(c).value < |Alphabet| && Alphabet[DigitOf(c).value] == c
  {
  }

  /** No character stands for two digits. */
  lemma AlphabetIsDistinct(i: nat, j: nat)
    requires i < j < |Alphabet|
    ensures Alphabet[i] != Alphabet[j]
  {
    AlphabetAscends(i, j);
  }

  /** The alphabet is written in character order. */
  lemma {:induction false} AlphabetAscends(i: nat, j: nat)
    requires i < j < |Alphabet|
    ensures Alphabet[i] < Alphabet[j]
    decreases j - i
  {
    AlphabetStep(j - 1);
    if i < j - 1 {
      AlphabetAscends(i, j - 1);
    }
  }

  lemma AlphabetStep(i: nat)
    requires i + 1 < |Alphabet|
    ensures Alphabet[i] < Alphabet[i + 1]
  {
  }

  lemma AlphabetIsDigit(i: nat)
    requires i < |Alphabet|
    ensures DigitOf(Alphabet[i]) == Some(i)
  {
    var d := DigitOf(Alphabet[i]).value;
    assert d <= i;
    if d < i {
      AlphabetIsDistinct(d, i);
      assert false;
    }
  }

  /** Decoding keeps the value, and turns each leading '1' into one leading zero byte,
      exactly. */
  lemma DecodingKeeps(s: string)
    requires IsBase58(s)
    ensures AreDigits(Bytes(s), 256) && ValueOf(Bytes(s), 256) == ValueOf(Digits(s), 58)
    ensures LeadingZeros(Bytes(s)) == LeadingOnes(s)
  {
    RebasedKeeps(Digits(s), 58, 256);
    OnesAreZeros(s);
  }

  function LeadingOnes(s: string): nat {
    if s != "" && s[0] == '1' then 1 + LeadingOnes(s[1..]) else 0
  }

  lemma {:induction false} OnesAreZeros(s: string)
    requires IsBase58(s)
    ensures LeadingZeros(Digits(s)) == LeadingOnes(s)
  {
    if s != "" {
      AlphabetIsDigit(0);
      DigitIsAlphabet(s[0]);
      assert Alphabet[0] == '1';
      assert s[0] == '1' <==> Digits(s)[0] == 0;
      assert Digits(s)[1..] == Digits(s[1..]);
      OnesAreZeros(s[1..]);
    }
  }

  lemma SpelledBack(s: string)
    requires IsBase58(s)
    ensures s == seq(|s|, i requires 0 <= i < |s| => Alphabet[Digits(s)[i]])
  {
    forall i | 0 <= i < |s|
      ensures Alphabet[Digits(s)[i]] == s[i]
    {
      DigitIsAlphabet(s[i]);
    }
  }

  /** Decoding loses nothing: encoding the bytes gives the string back, so no two
      base58 strings decode alike. */
  lemma DecodeThenEncode(s: string)
    requires IsBase58(s)
    ensures AreDigits(Bytes(s), 256) && Encode(Bytes(s)) == s
  {
    RebasedKeeps(Digits(s), 58, 256);
    RebasedRoundTrip(Digits(s), 58, 256);
    SpelledBack(s);
  }

  lemma DecodingIsInjective(s: string, t: string)
    requires IsBase58(s) && IsBase58(t) && Bytes(s) == Bytes(t)
    ensures s == t
  {
    DecodeThenEncode(s);
    DecodeThenEncode(t);
  }

  /** And nothing is out of its reach: every byte sequence has a base58 string that
      decodes to it. */
  lemma EncodeThenDecode(bytes: seq<nat>)
    requires AreDigits(bytes, 256)
    ensures IsBase58(Encode(bytes)) && Bytes(Encode(bytes)) == bytes
  {
    var ds, s := Rebased(bytes, 256, 58), Encode(bytes);
    RebasedKeeps(bytes, 256, 58);
    forall i | 0 <= i < |s|
      ensures DigitOf(s[i]) == Some(ds[i])
    {
      AlphabetIsDigit(ds[i]);
    }
    assert Digits(s) == ds;
    RebasedRoundTrip(bytes, 256, 58);
  }

  // ---------- the code ----------

  /** `big.Int.Bytes`: big-endian, no leading zeros. */
  function BigEndian(n: nat): seq<nat> {
    DigitsOf(n, 256)
  }

  /** `base58Decode`. */
  method Base58Decode(s: string) returns (r: Result<seq<nat>, nat>)
    ensures r.Ok? <==> IsBase58(s)
    ensures r.Ok? ==> r.value == Bytes(s)
    ensures r.Err? ==> r.error < |s| && DigitOf(s[r.error]).None? && IsBase58(s[..r.error])
  {
    var num := 0;
    for i := 0 to |s|
      invariant IsBase58(s[..i]) && num == ValueOf(Digits(s[..i]), 58)
    {
      var digit := DigitOf(s[i]);
      if digit.None? {
        return Err(i);
      }
      OneMoreDigit(s, i);
      num := num * 58 + digit.value;
    }
    assert s[..|s|] == s;
    var decoded := BigEndian(num);
    var leadingZeros := CountOnes(s);
    OnesAreZeros(s);
    var out := Padded(leadingZeros, decoded);
    return Ok(out[..]);
  }

  method CountOnes(s: string) returns (ones: nat)
    ensures ones == LeadingOnes(s) <= |s|
  {
    ones := 0;
    while ones < |s| && s[ones] == '1'
      invariant ones <= |s| && ones + LeadingOnes(s[ones..]) == LeadingOnes(s)
    {
      assert s[ones..][1..] == s[ones + 1..];
      ones := ones + 1;
    }
  }

  /** The zeroed buffer, with the decoded bytes copied in behind the leading zeros. */
  method Padded(leadingZeros: nat, decoded: seq<nat>) returns (out: array<nat>)
    ensures fresh(out) && out[..] == Zeros(leadingZeros) + decoded
  {
    out := new nat[leadingZeros + |decoded|](i => 0);
    for i := 0 to |decoded|
      invariant forall j :: 0 <= j < leadingZeros ==> out[j] == 0
      invariant forall j :: 0 <= j < i ==> out[leadingZeros + j] == decoded[j]
    {
      out[leadingZeros + i] := decoded[i];
    }
    assert out[..] == Zeros(leadingZeros) + decoded;
  }

  lemma OneMoreDigit(s: string, i: nat)
    requires i < |s| && IsBase58(s[..i]) && DigitOf(s[i]).Some?
    ensures IsBase58(s[..i + 1]) && ValueOf(Digits(s[..i + 1]), 58) == ValueOf(Digits(s[..i]), 58) * 58 + DigitOf(s[i]).value
  {
    assert s[..i + 1] == s[..i] + [s[i]];
    assert Digits(s[..i + 1])[..i] == Digits(s[..i]);
  }

  /** `base58CheckDecode`: the payload, if the four bytes after it are the start of its
      double hash. */
  method Base58CheckDecode(s: string, sha256: seq<nat> -> seq<nat>) returns (payload: Option<seq<nat>>)
    requires forall b :: |sha256(b)| == 32
    ensures payload.Some? ==> IsBase58(s) && Bytes(s) == payload.value + sha256(sha256(payload.value))[..4]
    ensures payload.None? ==> !IsBase58(s) || forall p :: Bytes(s) != p + sha256(sha256(p))[..4]
  {
    var decoded := Base58Decode(s);
    if decoded.Err? {
      return None;
    }
    var bytes := decoded.value;
    if |bytes| < 4 {
      forall p
        ensures bytes != p + sha256(sha256(p))[..4]
      {
        assert |p + sha256(sha256(p))[..4]| >= 4;
      }
      return None;
    }
    var p, checksum := bytes[..|bytes| - 4], bytes[|bytes| - 4..];
    if sha256(sha256(p))[..4] != checksum {
      forall q
        ensures bytes != q + sha256(sha256(q))[..4]
      {
        var sum := sha256(sha256(q))[..4];
        assert |sum| == 4;
        assert (q + sum)[..|q|] == q && (q + sum)[|q|..] == sum;
      }
      return None;
    }
    assert bytes == p + checksum;
    return Some(p);
  }
}
