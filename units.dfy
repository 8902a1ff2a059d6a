/** util.go: `ByteSizeToFriendlyString`, the human-readable byte size that
    appears in access-log lines and in the 413 envelope. Division by 1024 is
    modelled on exact reals (see README for what float64 rounding changes). */
module Units {
  import opened Text

  const Prefixes: seq<string> := ["B", "kB", "MB", "GB", "TB"]

  function Pow1024(k: nat): (p: int)
    ensures p >= 1
  {
    if k == 0 then 1 else 1024 * Pow1024(k - 1)
  }

  lemma {:induction false} Pow1024Increasing(j: nat, k: nat)
    requires j < k
    ensures Pow1024(j) < Pow1024(k)
    decreases k
  {
    if j < k - 1 {
      Pow1024Increasing(j, k - 1);
    }
  }

  /** The unit the loop settles on, defined directly: the largest k <= 4
      with 1024^k <= length, or 0 when even 1024 exceeds the length. */
  function UnitIndex(length: int): (k: nat)
    ensures k < |Prefixes|
    ensures k > 0 ==> Pow1024(k) <= length
    ensures k < 4 ==> length < Pow1024(k + 1)
  {
    if length < Pow1024(1) then 0
    else if length < Pow1024(2) then 1
    else if length < Pow1024(3) then 2
    else if length < Pow1024(4) then 3
    else 4
  }

  /** The two bounds of `UnitIndex` single out one index. */
  lemma UnitIndexUnique(length: int, k: nat)
    requires k <= 4
    requires k > 0 ==> Pow1024(k) <= length
    requires k < 4 ==> length < Pow1024(k + 1)
    ensures k == UnitIndex(length)
  {
    var u := UnitIndex(length);
    if k < u {
      if k + 1 < u { Pow1024Increasing(k + 1, u); }
    } else if u < k {
      if u + 1 < k { Pow1024Increasing(u + 1, k); }
    }
  }

  /** The unit is bytes exactly for lengths under 1024; in particular zero
      and negative lengths never leave bytes. */
  lemma BytesIffUnder1024(length: int)
    ensures UnitIndex(length) == 0 <==> length < 1024
  {
    assert Pow1024(1) == 1024;
  }

  /** A larger length never gets a smaller unit. */
  lemma UnitIndexMonotone(a: int, b: int)
    requires a <= b
    ensures UnitIndex(a) <= UnitIndex(b)
  {
    var ka, kb := UnitIndex(a), UnitIndex(b);
    if ka > 0 && kb < 4 {
      Pow1024Order(ka, kb + 1);
    }
  }

  /** Powers of 1024 are ordered as their exponents. */
  lemma Pow1024Order(j: nat, k: nat)
    ensures Pow1024(j) < Pow1024(k) ==> j < k
  {
    if k < j {
      Pow1024Increasing(k, j);
    }
  }

  /** The number printed before the unit. */
  function Scaled(length: int): real {
    length as real / Pow1024(UnitIndex(length)) as real
  }

  /** The printed number is below 1024 unless the unit is TB, and at least
      1 whenever the unit is larger than bytes. */
  lemma ScaledInRange(length: int)
    ensures UnitIndex(length) < 4 ==> Scaled(length) < 1024.0
    ensures UnitIndex(length) > 0 ==> Scaled(length) >= 1.0
  {
    var k := UnitIndex(length);
    var p := Pow1024(k) as real;
    assert Pow1024(k + 1) as real == 1024.0 * p;
    assert Scaled(length) * p == length as real;
  }

  // ---------------------------------------------------------------------------
  // `%.2f`
  // ---------------------------------------------------------------------------

  /** The integer nearest to `y`, ties to the even one (what `%.2f` does to
      an exactly representable value). */
  function RoundHalfEven(y: real): (n: int)
    ensures n as real - 0.5 <= y <= n as real + 0.5
    ensures y - y.Floor as real == 0.5 ==> n % 2 == 0
  {
    var f := y.Floor;
    var frac := y - f as real;
    if frac > 0.5 then f + 1
    else if frac < 0.5 then f
    else if f % 2 == 0 then f else f + 1
  }

  /** `fmt.Sprintf("%.2f", x)` for a non-negative value. */
  function FixedTwoNonNegative(x: real): string
    requires x >= 0.0
  {
    var n := RoundHalfEven(x * 100.0);
    assert n >= 0;
    NatToString(n / 100) + "." + [DigitChar(n % 100 / 10), DigitChar(n % 10)]
  }

  /** `fmt.Sprintf("%.2f", x)`. */
  function FixedTwo(x: real): string {
    if x < 0.0 then "-" + FixedTwoNonNegative(-x) else FixedTwoNonNegative(x)
  }

  /** What `ByteSizeToFriendlyString(length)` returns. */
  function FriendlySize(length: int): string {
    FixedTwo(Scaled(length)) + " " + Prefixes[UnitIndex(length)]
  }

  /** The loop of util.go: divide by 1024 while the value is at least 1024
      and a larger unit remains. */
  method ByteSizeToFriendlyString(length: int) returns (s: string)
    ensures s == FriendlySize(length)
  {
    var floatLength := length as real;
    var prefixIndex := 0;
    while floatLength >= 1024.0 && prefixIndex < |Prefixes| - 1
      invariant 0 <= prefixIndex <= 4
      invariant floatLength * Pow1024(prefixIndex) as real == length as real
      invariant prefixIndex > 0 ==> Pow1024(prefixIndex) <= length
      decreases 4 - prefixIndex
    {
      ScaleStep(floatLength, Pow1024(prefixIndex) as real);
      floatLength := floatLength / 1024.0;
      prefixIndex := prefixIndex + 1;
    }
    ExitBound(floatLength, prefixIndex, length);
    UnitIndexUnique(length, prefixIndex);
    s := FixedTwo(floatLength) + " " + Prefixes[prefixIndex];
  }

  lemma ScaleStep(v: real, p: real)
    requires v >= 1024.0 && p >= 1.0
    ensures v * p >= 1024.0 * p
    ensures (v / 1024.0) * (1024.0 * p) == v * p
  {
  }

  lemma ExitBound(v: real, k: nat, length: int)
    requires k <= 4
    requires v * Pow1024(k) as real == length as real
    requires v < 1024.0 || k == 4
    ensures k < 4 ==> length < Pow1024(k + 1)
    ensures v == length as real / Pow1024(k) as real
  {
    var p := Pow1024(k) as real;
    if k < 4 {
      assert Pow1024(k + 1) as real == 1024.0 * p;
      assert v * p < 1024.0 * p;
    }
  }

  lemma Pow1024Values()
    ensures Pow1024(1) == 1024 && Pow1024(2) == 1048576
    ensures Pow1024(3) == 1073741824 && Pow1024(4) == 1099511627776
  {
    assert Pow1024(2) == 1024 * Pow1024(1);
    assert Pow1024(3) == 1024 * Pow1024(2);
    assert Pow1024(4) == 1024 * Pow1024(3);
  }

  /** `%.2f` of a value with at most two decimals prints exactly those. */
  lemma FixedTwoExact(x: real, n: nat)
    requires x * 100.0 == n as real
    ensures FixedTwo(x) == NatToString(n / 100) + "." + [DigitChar(n % 100 / 10), DigitChar(n % 10)]
  {
    assert (x * 100.0).Floor == n;
  }

  /** `FriendlySize` of a length whose scaled value has at most two
      decimals, in terms of the digits of that value. */
  lemma FriendlySizeExact(length: int, n: nat)
    requires Scaled(length) * 100.0 == n as real
    ensures FriendlySize(length) ==
      NatToString(n / 100) + "." + [DigitChar(n % 100 / 10), DigitChar(n % 10)] + " " + Prefixes[UnitIndex(length)]
  {
    FixedTwoExact(Scaled(length), n);
  }

  lemma FriendlySizeOne()
    ensures FriendlySize(1) == "1.00 B"
  {
    Pow1024Values();
    FriendlySizeExact(1, 100);
    assert NatToString(1) == "1";
  }

  /** The size logged for the 404 envelope of an unknown path. */
  lemma FriendlySize160()
    ensures FriendlySize(160) == "160.00 B"
  {
    Pow1024Values();
    FriendlySizeExact(160, 16000);
    assert NatToString(16) == NatToString(1) + "6";
    assert NatToString(160) == NatToString(16) + "0";
  }

  lemma FriendlySize1023()
    ensures FriendlySize(1023) == "1023.00 B"
  {
    Pow1024Values();
    FriendlySizeExact(1023, 102300);
    assert NatToString(10) == NatToString(1) + "0";
    assert NatToString(102) == NatToString(10) + "2";
    assert NatToString(1023) == NatToString(102) + "3";
  }

  lemma FriendlySize1024()
    ensures FriendlySize(1024) == "1.00 kB"
  {
    Pow1024Values();
    assert UnitIndex(1024) == 1;
    FriendlySizeExact(1024, 100);
    assert NatToString(1) == "1";
  }

  lemma FriendlySize1536()
    ensures FriendlySize(1536) == "1.50 kB"
  {
    Pow1024Values();
    assert UnitIndex(1536) == 1;
    FriendlySizeExact(1536, 150);
    assert NatToString(1) == "1";
  }

  lemma FriendlySizeMegabyte()
    ensures FriendlySize(1048576) == "1.00 MB"
  {
    Pow1024Values();
    assert UnitIndex(1048576) == 2;
    FriendlySizeExact(1048576, 100);
    assert NatToString(1) == "1";
  }

  /** The GB value util_test.go checks: 3214822145 bytes is 2.994... GB. */
  lemma FriendlySizeGigabytes()
    ensures FriendlySize(3214822145) == "2.99 GB"
  {
    Pow1024Values();
    assert UnitIndex(3214822145) == 3;
    var x := Scaled(3214822145);
    assert x == 3214822145.0 / 1073741824.0;
    assert 299.0 <= x * 100.0 < 299.5;
    assert (x * 100.0).Floor == 299;
    assert RoundHalfEven(x * 100.0) == 299;
    assert NatToString(2) == "2";
  }
}
