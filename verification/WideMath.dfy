/** 256-bit intermediates of the fee-vesting contract. */
module WideMath {
  import opened Base

  // Schoolbook multiplication on 64-bit halves and bitwise long division on 128-bit limbs. Every value has
  // type `u128`, so verifying these bodies is verifying that no operation in them overflows.

  const TWO64: int := 0x1_0000_0000_0000_0000
  const TWO128: int := 0x1_0000_0000_0000_0000_0000_0000_0000_0000

  newtype u128 = x: int | 0 <= x < 0x1_0000_0000_0000_0000_0000_0000_0000_0000

  datatype Wide = Wide(hi: u128, lo: u128) {
    function Value(): int {
      hi as int * TWO128 + lo as int
    }
  }

  // ---- multiplication ----------------------------------------------------------------

  function LowHalf(x: u128): (r: u128)
    ensures r as int == x as int % TWO64 < TWO64
  {
    x % 0x1_0000_0000_0000_0000
  }

  function HighHalf(x: u128): (r: u128)
    ensures r as int == x as int / TWO64 < TWO64
  {
    x / 0x1_0000_0000_0000_0000
  }

  /** `mid << 64` drops what is above bit 127; the or-ed halves do not overlap. */
  function Join(high: u128, low: u128): (r: u128)
    requires low as int < TWO64
    ensures r as int == high as int % TWO64 * TWO64 + low as int
  {
    LowHalf(high) * 0x1_0000_0000_0000_0000 + low
  }

  /** Half-width factors have a product with room to spare for two carries. */
  function HalfProduct(x: u128, y: u128): (r: u128)
    requires x as int < TWO64 && y as int < TWO64
    ensures r as int == x as int * y as int <= TWO128 - 2 * TWO64 + 1
  {
    ProductAtMost(x as int, y as int, TWO64 - 1);
    x * y
  }

  lemma ProductAtMost(x: nat, y: nat, m: nat)
    requires x <= m && y <= m
    ensures 0 <= x * y <= m * m
  {
  }

  /** The product of any two unsigned 128-bit numbers, exactly. */
  function MulWide(a: u128, b: u128): (r: Wide)
    ensures r.Value() == a as int * b as int
  {
    var aLo, aHi, bLo, bHi := LowHalf(a), HighHalf(a), LowHalf(b), HighHalf(b);
    var ll, lh, hl, hh := HalfProduct(aLo, bLo), HalfProduct(aLo, bHi), HalfProduct(aHi, bLo), HalfProduct(aHi, bHi);
    var mid := HighHalf(ll) + LowHalf(lh) + LowHalf(hl);
    SchoolBook(aLo as int, aHi as int, bLo as int, bHi as int, TWO64);
    Halves(ll as int, lh as int, hl as int, hh as int, TWO64);
    Wide(hh + HighHalf(lh) + HighHalf(hl) + HighHalf(mid), Join(mid, LowHalf(ll)))
  }

  lemma SchoolBook(aLo: int, aHi: int, bLo: int, bHi: int, base: int)
    ensures (aHi * base + aLo) * (bHi * base + bLo)
            == aHi * bHi * (base * base) + (aLo * bHi + aHi * bLo) * base + aLo * bLo
  {
  }

  /** Carrying the middle column loses nothing. */
  lemma Halves(ll: int, lh: int, hl: int, hh: int, base: int)
    requires base > 0
    ensures var mid := ll / base + lh % base + hl % base;
            (hh + lh / base + hl / base + mid / base) * (base * base) + (mid % base * base + ll % base)
            == hh * (base * base) + (lh + hl) * base + ll
  {
  }

  // ---- long division --------------------------------------------------------------------

  function Pow2(i: nat): (p: nat)
    ensures p > 0
  {
    if i == 0 then 1 else 2 * Pow2(i - 1)
  }

  lemma {:induction false} Pow2Grows(i: nat, j: nat)
    requires i <= j
    ensures Pow2(i) <= Pow2(j)
    decreases j
  {
    if i < j {
      Pow2Grows(i, j - 1);
    }
  }

  lemma Pow2At2()
    ensures Pow2(2) == 4
  {
  }

  lemma Pow2At128()
    ensures Pow2(128) == TWO128
  {
    hide Pow2;
    Pow2At2();
    Pow2Adds(2, 2);
    Pow2Adds(4, 4);
    Pow2Adds(8, 8);
    Pow2Adds(16, 16);
    Pow2Adds(32, 32);
    Pow2Adds(64, 64);
  }

  lemma {:induction false} Pow2Adds(i: nat, j: nat)
    ensures Pow2(i + j) == Pow2(i) * Pow2(j)
    decreases j
  {
    if j > 0 {
      Pow2Adds(i, j - 1);
    }
  }

  /** `(x >> i) & 1`. */
  function Bit(x: int, i: nat): int {
    x / Pow2(i) % 2
  }

  /** `x | (1 << i)`. */
  function SetBit(x: int, i: nat): int {
    if Bit(x, i) == 1 then x else x + Pow2(i)
  }

  /** One bit of long division. */
  lemma DivStep(n: nat, bit: int, d: int)
    requires d > 0 && 0 <= bit <= 1
    ensures var cur := 2 * (n % d) + bit;
            && (2 * n + bit) / d == 2 * (n / d) + (if cur >= d then 1 else 0)
            && (2 * n + bit) % d == (if cur >= d then cur - d else cur)
  {
    var q, r := n / d, n % d;
    assert n == q * d + r;
    var cur := 2 * r + bit;
    if cur >= d {
      assert 2 * n + bit == (2 * q + 1) * d + (cur - d);
      DivUnique(2 * n + bit, d, 2 * q + 1, cur - d);
    } else {
      assert 2 * n + bit == (2 * q) * d + cur;
      DivUnique(2 * n + bit, d, 2 * q, cur);
    }
  }

  /** Reading one more bit of a limb. */
  lemma ShiftDown(x: nat, i: nat)
    ensures x / Pow2(i) == 2 * (x / Pow2(i + 1)) + Bit(x, i)
    ensures 0 <= Bit(x, i) <= 1
  {
    var y, p := x / Pow2(i), Pow2(i);
    var q, r := y / 2, y % 2;
    assert x == (2 * q + r) * p + x % p;
    assert (2 * q + r) * p == q * (2 * p) + r * p;
    assert r * p + x % p < 2 * p by { if r == 0 { assert r * p == 0; } else { assert r * p == p; } }
    assert r * p >= 0;
    DivUnique(x, 2 * p, q, r * p + x % p);
  }

  /** Or-ing a bit into a multiple of a higher power adds it. */
  lemma SetFreshBit(k: nat, i: nat)
    ensures SetBit(k * Pow2(i + 1), i) == (2 * k + 1) * Pow2(i)
    ensures k * Pow2(i + 1) == (2 * k) * Pow2(i)
  {
    var p := Pow2(i);
    assert k * Pow2(i + 1) == (2 * k) * p;
    DivAddMultiple(0, 2 * k, p);
  }

  /** A remainder below `d` shifted up by `w` divides to less than `w`. */
  lemma CarriedQuotient(r: nat, y: nat, w: nat, d: int)
    requires r < d && y < w
    ensures 0 <= r * w + y && 0 <= (r * w + y) / d < w
  {
    var q := (r * w + y) / d;
    MulNonNegative(r, w);
    MulDistributes(d, r, w);
    MulDistributes(d - r, 1, w);
    MulNonNegative(d - r - 1, w);
    assert r * w + y == q * d + (r * w + y) % d;
    MulDistributes(q, w, d);
    if q >= w {
      MulNonNegative(q - w, d);
    }
  }

  /** The bits still to be read of a value below `w * p`. */
  lemma HighPart(x: nat, p: int, w: int)
    requires p > 0 && x < w * p
    ensures 0 <= x / p < w
  {
  }

  lemma Scaled(q: nat, w: int, p: nat)
    requires q < w && p > 0
    ensures 0 <= q * p < w * p
  {
  }

  /** The quotient bits of a limb fit the limb. */
  lemma QuotientFits(r: nat, x: nat, i: nat, d: int)
    requires d > 0 && r < d && i <= 128 && x < TWO128
    ensures var m := r * Pow2(128 - i) + x / Pow2(i);
            0 <= m / d && 0 <= m / d * Pow2(i) < TWO128
  {
    Pow2At128();
    Pow2Adds(128 - i, i);
    hide Pow2;
    var p, w := Pow2(i), Pow2(128 - i);
    HighPart(x, p, w);
    CarriedQuotient(r, x / p, w, d);
    Scaled((r * w + x / p) / d, w, p);
  }

  /** One limb of the division, from the remainder `r` carried in: what the loop has after reading all
      but its lowest `i` bits. */
  ghost predicate LimbDone(r: nat, x: nat, i: nat, d: int, rem: int, quotient: int)
    requires d > 0 && i <= 128
  {
    var m := r * Pow2(128 - i) + x / Pow2(i);
    rem == m % d && quotient == m / d * Pow2(i)
  }

  lemma LimbStart(r: nat, x: nat, d: int)
    requires 0 <= r < d && x < TWO128
    ensures LimbDone(r, x, 128, d, r, 0)
  {
    Pow2At128();
    DivUnique(x, TWO128, 0, x);
    DivUnique(r, d, 0, r);
  }

  lemma LimbEnd(r: nat, x: nat, d: int, rem: int, quotient: int)
    requires d > 0 && LimbDone(r, x, 0, d, rem, quotient)
    ensures rem == (r * TWO128 + x) % d && quotient == (r * TWO128 + x) / d
  {
    Pow2At128();
    assert x / Pow2(0) == x;
  }

  /** One pass of either loop. */
  lemma LimbStep(r: nat, x: nat, i: nat, d: int, rem: int, quotient: int)
    requires d > 0 && r < d && x < TWO128 && 0 < i <= 128
    requires LimbDone(r, x, i, d, rem, quotient)
    ensures var cur := 2 * rem + Bit(x, i - 1);
            && 0 <= rem < d && 0 <= Bit(x, i - 1) <= 1
            && LimbDone(r, x, i - 1, d, if cur >= d then cur - d else cur,
                        if cur >= d then SetBit(quotient, i - 1) else quotient)
            && (cur >= d ==> 0 <= SetBit(quotient, i - 1) < TWO128)
  {
    var m := r * Pow2(128 - i) + x / Pow2(i);
    NextPartial(r, x, i);
    DivStep(m, Bit(x, i - 1), d);
    QuotientFits(r, x, i - 1, d);
    QuotientFits(r, x, i, d);
    SetFreshBit(m / d, i - 1);
    hide Pow2, Bit, SetBit;
  }

  lemma Doubled(r: nat, w: nat)
    ensures r * (2 * w) == 2 * (r * w) && r * w >= 0
  {
  }

  /** One more bit of the partial dividend. */
  lemma NextPartial(r: nat, x: nat, i: nat)
    requires 0 < i <= 128
    ensures var m := r * Pow2(128 - i) + x / Pow2(i);
            m >= 0 && r * Pow2(128 - (i - 1)) + x / Pow2(i - 1) == 2 * m + Bit(x, i - 1)
    ensures 0 <= Bit(x, i - 1) <= 1
  {
    ShiftDown(x, i - 1);
    var w := Pow2(128 - i);
    assert Pow2(128 - (i - 1)) == 2 * w by { assert 128 - (i - 1) - 1 == 128 - i; }
    hide Pow2, Bit;
    Doubled(r, w);
  }

  // ---- the loops themselves ------------------------------------------------------------------

  /** `(rem << 1) | bit`, with the bit that `<<` drops. */
  function ShiftIn(rem: u128, bit: int): (r: u128)
    requires 0 <= bit <= 1
    ensures 2 * rem as int + bit < TWO128 ==> r as int == 2 * rem as int + bit
  {
    ((2 * rem as int) % TWO128 + bit) as u128
  }

  /** Long division of a 256-bit value. The result is the low limb of the exact floor quotient cast to
      i128, and the high limb is zero exactly when the quotient fits 128 bits. */
  method DivWideByI128(product: Wide, divisor: int) returns (quotient: int, highLimbZero: bool)
    requires 0 < divisor <= I128_MAX
    ensures highLimbZero <==> product.Value() / divisor < TWO128
    ensures quotient == CastI128(product.Value() / divisor % TWO128)
    ensures quotient == product.Value() / divisor <==> product.Value() / divisor <= I128_MAX
  {
    var d := divisor as u128;
    var rem: u128, quotientHi: u128, quotientLo: u128 := 0, 0, 0;
    ghost var hi, lo: int := product.hi as int, product.lo as int;
    hide LimbDone, SetBit, Bit;

    LimbStart(0, hi, divisor);
    var i := 128;
    while i > 0
      invariant 0 <= i <= 128
      invariant LimbDone(0, hi, i, divisor, rem as int, quotientHi as int)
    {
      LimbStep(0, hi, i, divisor, rem as int, quotientHi as int);
      i := i - 1;
      var cur := ShiftIn(rem, Bit(product.hi as int, i));
      if cur >= d {
        rem := cur - d;
        quotientHi := SetBit(quotientHi as int, i) as u128;
      } else {
        rem := cur;
      }
    }
    LimbEnd(0, hi, divisor, rem as int, quotientHi as int);
    ghost var carried := rem as int;

    LimbStart(carried, lo, divisor);
    var j := 128;
    while j > 0
      invariant 0 <= j <= 128
      invariant LimbDone(carried, lo, j, divisor, rem as int, quotientLo as int)
    {
      LimbStep(carried, lo, j, divisor, rem as int, quotientLo as int);
      j := j - 1;
      var cur := ShiftIn(rem, Bit(product.lo as int, j));
      if cur >= d {
        rem := cur - d;
        quotientLo := SetBit(quotientLo as int, j) as u128;
      } else {
        rem := cur;
      }
    }
    LimbEnd(carried, lo, divisor, rem as int, quotientLo as int);
    WholeQuotient(product, divisor, quotientHi as int, quotientLo as int);
    quotient := CastI128(quotientLo as int);
    highLimbZero := quotientHi == 0;
  }

  /** `as i128` on an unsigned 128-bit value. */
  function CastI128(x: int): int {
    if x > I128_MAX then x - TWO128 else x
  }

  /** Reading the floor off its two limbs. */
  lemma WholeQuotient(product: Wide, d: int, high: nat, low: nat)
    requires d > 0 && low < TWO128
    requires high == product.hi as int / d
    requires low == (product.hi as int % d * TWO128 + product.lo as int) / d
    ensures product.Value() / d == high * TWO128 + low
    ensures product.Value() / d % TWO128 == low
    ensures high == 0 <==> product.Value() / d < TWO128
    ensures CastI128(low) == product.Value() / d <==> product.Value() / d <= I128_MAX
  {
    TwoLimbs(product.hi as int, product.lo as int, d);
    DivUnique(high * TWO128 + low, TWO128, high, low);
  }

  /** Dividing limb by limb, carrying the remainder, divides the whole. */
  lemma TwoLimbs(hi: nat, lo: nat, d: int)
    requires d > 0 && lo < TWO128
    ensures (hi * TWO128 + lo) / d == hi / d * TWO128 + (hi % d * TWO128 + lo) / d
    ensures 0 <= (hi % d * TWO128 + lo) / d < TWO128
  {
    var q, r := hi / d, hi % d;
    var low := r * TWO128 + lo;
    CarriedQuotient(r, lo, TWO128, d);
    assert hi == q * d + r;
    assert (q * d) * TWO128 == (q * TWO128) * d;
    DivAddMultiple(low, q * TWO128, d);
  }
}
