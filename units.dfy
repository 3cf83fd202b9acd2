/**
 * The unit normaliser of `SystemInfo`: the display exponent of a byte count,
 * its label, the zero-padded four-byte unit field, and the value scaled to
 * tenths of the chosen unit.
 */
module Units {
  import opened Ints

  /** The base used for every memory quantity (binary prefixes). */
  const BASE: nat := 1024

  /** The exponents `GetExp` can select. */
  const MAX_EXP: nat := 4

  function Pow(b: nat, k: nat): (r: nat)
    ensures b >= 1 ==> r >= 1
  {
    if k == 0 then 1 else b * Pow(b, k - 1)
  }

  lemma {:induction false} PowStrictlyIncreasing(b: nat, i: nat, j: nat)
    requires b >= 2 && i < j
    ensures Pow(b, i) < Pow(b, j)
  {
    if j == i + 1 {
      assert Pow(b, j) == b * Pow(b, i);
    } else {
      PowStrictlyIncreasing(b, i, j - 1);
      assert Pow(b, j) == b * Pow(b, j - 1);
    }
  }

  /** The powers of `BASE` that `GetExp` compares against. */
  lemma BasePowers()
    ensures Pow(BASE, 0) == 1
    ensures Pow(BASE, 1) == 0x400
    ensures Pow(BASE, 2) == 0x10_0000
    ensures Pow(BASE, 3) == 0x4000_0000
    ensures Pow(BASE, 4) == 0x100_0000_0000
  {
    assert Pow(BASE, 1) == BASE * Pow(BASE, 0);
    assert Pow(BASE, 2) == BASE * Pow(BASE, 1);
    assert Pow(BASE, 3) == BASE * Pow(BASE, 2);
    assert Pow(BASE, 4) == BASE * Pow(BASE, 3);
  }

  /** `u64::pow(base, 4)` does not overflow. */
  ghost predicate PowersFitU64(base: nat) {
    Pow(base, MAX_EXP) < U64_BOUND
  }

  /**
   * The display exponent of `num`: the largest `k` in 1..4 with
   * `num > base^k`, and 0 when there is none.  The comparison is strict, so
   * `num == base^k` selects `k - 1`.
   */
  function GetExp(num: nat, base: nat): (e: nat)
    requires PowersFitU64(base)
    ensures e <= MAX_EXP
    ensures e >= 1 ==> num > Pow(base, e)
    ensures forall k :: e < k <= MAX_EXP ==> num <= Pow(base, k)
  {
    if num > Pow(base, 4) then 4
    else if num > Pow(base, 3) then 3
    else if num > Pow(base, 2) then 2
    else if num > base then 1
    else 0
  }

  /** A larger count never gets a smaller exponent. */
  lemma GetExpMonotone(a: u64, b: u64, base: nat)
    requires PowersFitU64(base) && a <= b
    ensures GetExp(a, base) <= GetExp(b, base)
  {
  }

  /** At an exact power `base^k` the exponent is `k - 1`; one byte more gives `k`. */
  lemma GetExpAtPowerBoundary(base: nat, k: nat)
    requires base >= 2 && PowersFitU64(base) && 1 <= k <= MAX_EXP
    ensures GetExp(Pow(base, k), base) == k - 1
    ensures GetExp(Pow(base, k) + 1, base) == k
  {
    forall i | 1 <= i < k ensures Pow(base, i) < Pow(base, k) {
      PowStrictlyIncreasing(base, i, k);
    }
    forall i | k < i <= MAX_EXP ensures Pow(base, k) < Pow(base, i) {
      PowStrictlyIncreasing(base, k, i);
    }
    assert Pow(base, 1) == base * Pow(base, 0);
    if k < MAX_EXP {
      PowStrictlyIncreasing(base, k, MAX_EXP);
    }
  }

  /** The label of an exponent; anything outside 0..4 is "UB". */
  function GetUnit(exp: nat): (unit: string)
    ensures 1 <= |unit| <= 2
    ensures forall i :: 0 <= i < |unit| ==> 'A' <= unit[i] <= 'Z'
    ensures unit[|unit| - 1] == 'B'
    ensures unit == "UB" <==> exp > MAX_EXP
  {
    match exp
    case 0 => "B"
    case 1 => "KB"
    case 2 => "MB"
    case 3 => "GB"
    case 4 => "TB"
    case _ => "UB"
  }

  /** Distinct exponents in range have distinct labels, so the label names the exponent. */
  lemma GetUnitInjective(e1: nat, e2: nat)
    requires e1 <= MAX_EXP && e2 <= MAX_EXP && GetUnit(e1) == GetUnit(e2)
    ensures e1 == e2
  {
  }

  /** The exponent `GetExp` selects never has the "UB" label. */
  lemma GetExpNeverUnknownUnit(num: u64, base: nat)
    requires PowersFitU64(base)
    ensures GetUnit(GetExp(num, base)) != "UB"
  {
  }

  /** The bytes of an ASCII string. */
  function AsciiBytes(s: string): (r: seq<u8>)
    requires forall i :: 0 <= i < |s| ==> s[i] as int < 0x80
    ensures |r| == |s|
    ensures forall i :: 0 <= i < |s| ==> r[i] == s[i] as int
  {
    seq(|s|, i requires 0 <= i < |s| => s[i] as int)
  }

  /**
   * `pop_4u8`: the first (at most) four bytes of `bytes`, padded with zero
   * bytes to exactly four.  Its definition lives in a helper file that is
   * not part of this model; this is the behaviour the callers rely on.
   */
  function Pop4(bytes: seq<u8>): (r: seq<u8>)
    ensures |r| == 4
    ensures forall i :: 0 <= i < 4 ==> r[i] == (if i < |bytes| then bytes[i] else 0)
  {
    if |bytes| >= 4 then bytes[..4] else bytes + seq(4 - |bytes|, _ => 0)
  }

  /** The four-byte unit field for an exponent: its label's bytes, zero-padded. */
  function UnitField(exp: nat): (r: seq<u8>)
    ensures |r| == 4
    ensures r[..|GetUnit(exp)|] == AsciiBytes(GetUnit(exp))
    ensures forall i :: |GetUnit(exp)| <= i < 4 ==> r[i] == 0
    ensures r[0] != 0
  {
    Pop4(AsciiBytes(GetUnit(exp)))
  }

  /**
   * `num` in tenths of `base^e`, truncated: the integer reading of
   * `(num as f64 / base^e as f64 * 10.0)` before the `as u16` cast.
   */
  function ScaledTenths(num: nat, base: nat, e: nat): (tenths: nat)
    requires base >= 1
    ensures tenths * Pow(base, e) <= num * 10 < (tenths + 1) * Pow(base, e)
  {
    var p := Pow(base, e);
    var q := num * 10 / p;
    assert num * 10 == q * p + num * 10 % p;
    q
  }

  lemma MulMonotone(a: nat, b: nat, d: nat)
    requires a <= b
    ensures a * d <= b * d
  {
  }

  lemma DivAtMost(x: nat, c: nat, d: nat)
    requires d > 0 && x <= c * d
    ensures x / d <= c
  {
    var q := x / d;
    assert q * d <= x;
    if q > c {
      assert false;
    }
  }

  lemma DivAtLeast(x: nat, c: nat, d: nat)
    requires d > 0 && x >= c * d
    ensures x / d >= c
  {
    var q, r := x / d, x % d;
    assert x == q * d + r && r < d;
    if q < c {
      MulMonotone(q + 1, c, d);
      assert false;
    }
  }

  /**
   * Below the top exponent the scaled value is at most ten times the base;
   * above exponent 0 it is at least ten (one whole unit).
   */
  lemma {:induction false} ScaledTenthsBounds(num: u64, base: nat)
    requires base >= 1 && PowersFitU64(base)
    ensures GetExp(num, base) < MAX_EXP ==> ScaledTenths(num, base, GetExp(num, base)) <= 10 * base
    ensures GetExp(num, base) >= 1 ==> ScaledTenths(num, base, GetExp(num, base)) >= 10
  {
    var e := GetExp(num, base);
    var p := Pow(base, e);
    if e < MAX_EXP {
      assert Pow(base, e + 1) == base * p;
      assert num * 10 <= (10 * base) * p;
      DivAtMost(num * 10, 10 * base, p);
    }
    if e >= 1 {
      assert num * 10 >= 10 * p;
      DivAtLeast(num * 10, 10, p);
    }
  }

  /**
   * With base 1024 the scaled value fits a u16 without saturating: below
   * "TB" it is at most 10240, and in "TB" it does for every count up to
   * 6553 TiB.
   */
  lemma ScaledTenthsFitU16(num: u64)
    ensures GetExp(num, BASE) < MAX_EXP ==> ScaledTenths(num, BASE, GetExp(num, BASE)) <= 10240
    ensures num <= 6553 * Pow(BASE, MAX_EXP) ==> ScaledTenths(num, BASE, GetExp(num, BASE)) < U16_BOUND
  {
    BasePowers();
    var e := GetExp(num, BASE);
    ScaledTenthsBounds(num, BASE);
    if e == MAX_EXP && num <= 6553 * Pow(BASE, MAX_EXP) {
      DivAtMost(num * 10, 65530, Pow(BASE, MAX_EXP));
    }
  }

  /** 16 GiB of RAM is shown as "GB" with the value 160 (16.0). */
  lemma SixteenGibibytes()
    ensures GetExp(0x4_0000_0000, BASE) == 3
    ensures ScaledTenths(0x4_0000_0000, BASE, 3) == 160
    ensures GetUnit(3) == "GB"
  {
    BasePowers();
  }
}
