/** The time-weighted view of a bond: warming stake counts in proportion to its age. */
module EffectiveStake {
  import opened Base
  import opened Stakes
  import opened StakeTotals

  /** What the contract multiplies out before it divides. */
  function Product(t: Tranche, now: nat): int {
    t.amount * Min(Max(0, now - t.since), STAKE_WARMUP_LEDGERS)
  }

  /** A warming tranche ramps linearly from nothing to its amount over the warmup. */
  function Weight(t: Tranche, now: nat): int {
    Product(t, now) / STAKE_WARMUP_LEDGERS
  }

  function WeightSum(ts: seq<Tranche>, n: nat, now: nat): int
    requires n <= |ts|
  {
    if n == 0 then 0 else WeightSum(ts, n - 1, now) + Weight(ts[n - 1], now)
  }

  function Effective(info: StakeInfo, now: nat): int {
    var matured := Mature(info, now);
    matured.settled + WeightSum(matured.tranches, |matured.tranches|, now)
  }

  /** The first `n` products fit an i128, and so does the running sum after each. */
  predicate SumFits(settled: int, ts: seq<Tranche>, n: nat, now: nat)
    requires n <= |ts|
  {
    n == 0 ||
    (SumFits(settled, ts, n - 1, now) && Fits(Product(ts[n - 1], now)) && Fits(settled + WeightSum(ts, n, now)))
  }

  /** The read in i128 arithmetic: it aborts when a product or the sum does not fit. */
  function EffectiveResult(info: StakeInfo, now: nat): Result<int> {
    var matured := Mature(info, now);
    if SumFits(matured.settled, matured.tranches, |matured.tranches|, now) then Ok(Effective(info, now)) else Err(Trap)
  }

  method GetEffectiveStake(info: StakeInfo, now: nat) returns (r: Result<int>)
    ensures r == EffectiveResult(info, now)
    ensures Sound(info) && r.Ok? ==> r.value == info.settled + RampSum(info.tranches, |info.tranches|, now)
  {
    if Sound(info) {
      EffectiveIsRampSum(info, now);
    }
    var cell := new StakeCell(info);
    cell.MatureWarming(now);
    var effective := cell.settled;
    for i := 0 to |cell.tranches|
      invariant cell.Value() == Mature(info, now)
      invariant SumFits(cell.settled, cell.tranches, i, now)
      invariant effective == cell.settled + WeightSum(cell.tranches, i, now)
    {
      var elapsed := Max(0, now - cell.tranches[i].since);
      var clamped := Max(0, Min(elapsed, STAKE_WARMUP_LEDGERS));
      var product := cell.tranches[i].amount * clamped;
      assert product == Product(cell.tranches[i], now);
      effective := effective + product / STAKE_WARMUP_LEDGERS;
      if !Fits(product) || !Fits(effective) {
        SumStops(cell.settled, cell.tranches, i + 1, |cell.tranches|, now);
        return Err(Trap);
      }
    }
    return Ok(effective);
  }

  lemma {:induction false} SumStops(settled: int, ts: seq<Tranche>, i: nat, n: nat, now: nat)
    requires i <= n <= |ts| && !SumFits(settled, ts, i, now)
    ensures !SumFits(settled, ts, n, now)
    decreases n
  {
    if i < n {
      SumStops(settled, ts, i, n - 1, now);
    }
  }

  // ---- one tranche ------------------------------------------------------------------

  /** What one stored tranche adds to the effective stake, ripe or not. */
  function Worth(t: Tranche, now: nat): int {
    if Ripe(t, now) then t.amount else Weight(t, now)
  }

  function WorthSum(ts: seq<Tranche>, n: nat, now: nat): int
    requires n <= |ts|
  {
    if n == 0 then 0 else WorthSum(ts, n - 1, now) + Worth(ts[n - 1], now)
  }

  lemma ShareBounds(x: nat, e: nat, w: nat)
    requires 0 < w && e <= w
    ensures 0 <= x * e / w <= x
  {
    assert 0 <= x * e <= x * w by { MulNonNegative(x, e); MulNonNegative(x, w - e); }
    DivMonotone(0, x * e, w);
    DivMonotone(x * e, x * w, w);
    DivAddMultiple(0, x, w);
  }

  /** Cutting a tranche by `d` cuts its share by between 0 and `d`, whatever the flooring does. */
  lemma ShareLipschitz(x: nat, d: nat, e: nat, w: nat)
    requires 0 < w && e <= w && d <= x
    ensures x * e / w - d <= (x - d) * e / w <= x * e / w
  {
    assert x * e == (x - d) * e + d * e;
    assert d * e <= d * w;
    DivMonotone((x - d) * e, x * e, w);
    DivMonotone(x * e, d * w + (x - d) * e, w);
    DivAddMultiple((x - d) * e, d, w);
  }

  lemma ShareMonotone(x: nat, e: nat, f: nat, w: nat)
    requires 0 < w && e <= f
    ensures x * e / w <= x * f / w
  {
    assert x * e <= x * f;
    DivMonotone(x * e, x * f, w);
  }

  lemma WorthBounds(t: Tranche, now: nat)
    requires t.amount >= 0
    ensures 0 <= Worth(t, now) <= t.amount
  {
    ShareBounds(t.amount, Min(Max(0, now - t.since), STAKE_WARMUP_LEDGERS), STAKE_WARMUP_LEDGERS);
  }

  lemma WorthGrows(t: Tranche, now: nat, later: nat)
    requires t.amount >= 0 && now <= later
    ensures Worth(t, now) <= Worth(t, later)
  {
    WorthBounds(t, now);
    ShareMonotone(t.amount, Min(Max(0, now - t.since), STAKE_WARMUP_LEDGERS),
                  Min(Max(0, later - t.since), STAKE_WARMUP_LEDGERS), STAKE_WARMUP_LEDGERS);
  }

  lemma WorthCut(t: Tranche, d: nat, now: nat)
    requires d <= t.amount
    ensures Worth(t, now) - d <= Worth(t.(amount := t.amount - d), now) <= Worth(t, now)
  {
    ShareLipschitz(t.amount, d, Min(Max(0, now - t.since), STAKE_WARMUP_LEDGERS), STAKE_WARMUP_LEDGERS);
  }

  // ---- tranche lists ------------------------------------------------------------------

  lemma {:induction false} WorthSumBounds(ts: seq<Tranche>, n: nat, now: nat)
    requires n <= |ts| && PositiveUpTo(ts, n)
    ensures 0 <= RipeSum(ts, n, now) <= WorthSum(ts, n, now) <= Sum(ts, n)
  {
    if n > 0 {
      WorthSumBounds(ts, n - 1, now);
      WorthBounds(ts[n - 1], now);
    }
  }

  lemma {:induction false} WorthSumGrows(ts: seq<Tranche>, n: nat, now: nat, later: nat)
    requires n <= |ts| && PositiveUpTo(ts, n) && now <= later
    ensures WorthSum(ts, n, now) <= WorthSum(ts, n, later)
  {
    if n > 0 {
      WorthSumGrows(ts, n - 1, now, later);
      WorthGrows(ts[n - 1], now, later);
    }
  }

  lemma {:induction false} SameSums(s: seq<Tranche>, t: seq<Tranche>, n: nat, now: nat)
    requires n <= |s| && n <= |t| && forall i :: 0 <= i < n ==> s[i] == t[i]
    ensures WeightSum(s, n, now) == WeightSum(t, n, now) && WorthSum(s, n, now) == WorthSum(t, n, now)
  {
    if n > 0 {
      SameSums(s, t, n - 1, now);
    }
  }

  lemma {:induction false} UnripeWeights(ts: seq<Tranche>, n: nat, now: nat)
    requires n <= |ts|
    ensures var left := Unripe(ts, n, now);
            RipeSum(ts, n, now) + WeightSum(left, |left|, now) == WorthSum(ts, n, now)
  {
    if n > 0 {
      UnripeWeights(ts, n - 1, now);
      var left := Unripe(ts, n - 1, now);
      if Ripe(ts[n - 1], now) {
        assert left + [] == left;
      } else {
        SameSums(left + [ts[n - 1]], left, |left|, now);
      }
    }
  }

  lemma EffectiveIsWorth(info: StakeInfo, now: nat)
    ensures Effective(info, now) == info.settled + WorthSum(info.tranches, |info.tranches|, now)
  {
    UnripeWeights(info.tranches, |info.tranches|, now);
  }

  lemma {:induction false} DrainedWorth(ts: seq<Tranche>, n: nat, a: int, now: nat)
    requires n <= |ts| && PositiveUpTo(ts, n) && 0 <= a <= Sum(ts, n)
    ensures var left := Drained(ts, n, a);
            && WorthSum(ts, n, now) - a <= WorthSum(left, |left|, now) <= WorthSum(ts, n, now)
            && Shortfall(ts, n, a) == 0
  {
    if a == 0 {
      SameSums(ts[..n], ts, n, now);
    } else if n > 0 {
      var last := ts[n - 1];
      if a >= last.amount {
        DrainedWorth(ts, n - 1, a - last.amount, now);
        WorthBounds(last, now);
      } else {
        var left := Drained(ts, n, a);
        SameSums(left, ts, n - 1, now);
        WorthCut(last, a, now);
      }
    }
  }

  // ---- the effective stake of a sound bond ------------------------------------------------

  lemma {:induction false} UnripeWorth(ts: seq<Tranche>, n: nat, now: nat)
    requires n <= |ts|
    ensures var left := Unripe(ts, n, now);
            WorthSum(left, |left|, now) == WeightSum(left, |left|, now)
  {
    if n > 0 {
      UnripeWorth(ts, n - 1, now);
      var left := Unripe(ts, n - 1, now);
      if Ripe(ts[n - 1], now) {
        assert left + [] == left;
      } else {
        SameSums(left + [ts[n - 1]], left, |left|, now);
      }
    }
  }

  lemma MatureKeepsEffective(info: StakeInfo, now: nat)
    requires Sound(info)
    ensures Sound(Mature(info, now)) && Mature(info, now).warming >= 0
    ensures Effective(Mature(info, now), now) == Effective(info, now)
  {
    var ts, n := info.tranches, |info.tranches|;
    MatureSound(info, now);
    UnripeWeights(ts, n, now);
    EffectiveIsWorth(info, now);
    EffectiveIsWorth(Mature(info, now), now);
    UnripeWorth(ts, n, now);
  }

  // ---- the ramp itself ------------------------------------------------------------------------

  /** What a tranche of `amount` is worth at an age: in proportion to it, rounded down, through a day of 17,280
      ledgers, and all of it from then on. At the last ledger every warmup has ended. */
  ghost function Ramp(amount: nat, since: nat, now: nat): (x: int)
    ensures now >= U32_MAX || now - since >= 17_280 ==> x == amount
    ensures now < U32_MAX && now <= since ==> x == 0
    ensures now < U32_MAX && 0 <= now - since < 17_280 ==>
              x * 17_280 <= amount * (now - since) < (x + 1) * 17_280
  {
    if now >= U32_MAX || now - since >= 17_280 then amount
    else if now <= since then 0
    else
      FloorBounds(amount * (now - since), 17_280);
      amount * (now - since) / 17_280
  }

  ghost function RampSum(ts: seq<Tranche>, n: nat, now: nat): int
    requires n <= |ts| && PositiveUpTo(ts, n)
  {
    if n == 0 then 0 else RampSum(ts, n - 1, now) + Ramp(ts[n - 1].amount, ts[n - 1].since, now)
  }

  lemma WorthIsRamp(t: Tranche, now: nat)
    requires t.amount > 0
    ensures Worth(t, now) == Ramp(t.amount, t.since, now)
  {
    if !Ripe(t, now) && now <= t.since {
      assert t.amount * 0 / STAKE_WARMUP_LEDGERS == 0;
    }
  }

  lemma {:induction false} WorthSumIsRampSum(ts: seq<Tranche>, n: nat, now: nat)
    requires n <= |ts| && PositiveUpTo(ts, n)
    ensures WorthSum(ts, n, now) == RampSum(ts, n, now)
  {
    if n > 0 {
      WorthSumIsRampSum(ts, n - 1, now);
      WorthIsRamp(ts[n - 1], now);
    }
  }

  /** The effective stake is settled stake plus each tranche on its own ramp, ripe or not. */
  lemma EffectiveIsRampSum(info: StakeInfo, now: nat)
    requires Sound(info)
    ensures Effective(info, now) == info.settled + RampSum(info.tranches, |info.tranches|, now)
  {
    EffectiveIsWorth(info, now);
    WorthSumIsRampSum(info.tranches, |info.tranches|, now);
  }

  /** One tranche in its first day: the part above settled is its amount times its age over 17,280. */
  lemma OneTrancheRamps(info: StakeInfo, t: Tranche, now: nat)
    requires Sound(info) && info.tranches == [t] && t.since <= now < U32_MAX && now - t.since < 17_280
    ensures var x := Effective(info, now) - info.settled;
            x * 17_280 <= t.amount * (now - t.since) < (x + 1) * 17_280
  {
    EffectiveIsRampSum(info, now);
    assert RampSum(info.tranches, 1, now) == RampSum(info.tranches, 0, now) + Ramp(t.amount, t.since, now);
  }

  // ---- when the read completes --------------------------------------------------------------

  /** Maturing drops the ripe tranches and keeps the others as they are. */
  lemma {:induction false} UnripeProducts(ts: seq<Tranche>, n: nat, now: nat)
    requires n <= |ts|
    ensures var left := Unripe(ts, n, now);
            (forall j :: 0 <= j < |left| ==> Product(left[j], now) <= I128_MAX) <==>
            (forall i :: 0 <= i < n && !Ripe(ts[i], now) ==> Product(ts[i], now) <= I128_MAX)
  {
    hide Product;
    if n > 0 {
      UnripeProducts(ts, n - 1, now);
      var before, left := Unripe(ts, n - 1, now), Unripe(ts, n, now);
      assert (forall i :: 0 <= i < n && !Ripe(ts[i], now) ==> Product(ts[i], now) <= I128_MAX) <==>
             (forall i :: 0 <= i < n - 1 && !Ripe(ts[i], now) ==> Product(ts[i], now) <= I128_MAX)
             && (Ripe(ts[n - 1], now) || Product(ts[n - 1], now) <= I128_MAX);
      if Ripe(ts[n - 1], now) {
        assert left == before;
      } else {
        assert left[|before|] == ts[n - 1] && forall j :: 0 <= j < |before| ==> left[j] == before[j];
      }
    }
  }

  lemma {:induction false} WeightSumBounds(ts: seq<Tranche>, n: nat, now: nat)
    requires n <= |ts| && PositiveUpTo(ts, n)
    ensures 0 <= WeightSum(ts, n, now) <= Sum(ts, n)
  {
    if n > 0 {
      WeightSumBounds(ts, n - 1, now);
      ShareBounds(ts[n - 1].amount, Min(Max(0, now - ts[n - 1].since), STAKE_WARMUP_LEDGERS), STAKE_WARMUP_LEDGERS);
    }
  }

  lemma ProductNonNegative(t: Tranche, now: nat)
    requires t.amount > 0
    ensures Product(t, now) >= 0
  {
    MulNonNegative(t.amount, Min(Max(0, now - t.since), STAKE_WARMUP_LEDGERS));
  }

  /** The running sum stays below the active stake, so only the products can get in the way. */
  lemma {:induction false} SumFitsExactly(settled: nat, ts: seq<Tranche>, n: nat, now: nat)
    requires n <= |ts| && PositiveUpTo(ts, n) && settled + Sum(ts, n) <= I128_MAX
    ensures SumFits(settled, ts, n, now) <==> forall i :: 0 <= i < n ==> Product(ts[i], now) <= I128_MAX
  {
    hide Product, WeightSum;
    if n > 0 {
      SumFitsExactly(settled, ts, n - 1, now);
      WeightSumBounds(ts, n, now);
      ProductNonNegative(ts[n - 1], now);
    }
  }

  /** The read of a sound bond whose active stake fits an i128 completes if and only if, for every tranche
      still warming, the amount times its clamped age fits one too. */
  lemma EffectiveCompletesExactly(info: StakeInfo, now: nat)
    requires Sound(info) && Active(info) <= I128_MAX
    ensures EffectiveResult(info, now).Ok? <==>
              forall i :: 0 <= i < |info.tranches| && !Ripe(info.tranches[i], now) ==>
                Product(info.tranches[i], now) <= I128_MAX
    ensures EffectiveResult(info, now).Ok? ==> EffectiveResult(info, now).value == Effective(info, now)
  {
    hide Product, SumFits;
    MatureSound(info, now);
    var matured := Mature(info, now);
    UnripeProducts(info.tranches, |info.tranches|, now);
    SumFitsExactly(matured.settled, matured.tranches, |matured.tranches|, now);
  }

  /** Matured stake is a lower bound and active stake an upper one, at every ledger. */
  lemma EffectiveBetween(info: StakeInfo, now: nat)
    requires Sound(info)
    ensures Mature(info, now).settled <= Effective(info, now) <= Active(info)
  {
    EffectiveIsWorth(info, now);
    WorthSumBounds(info.tranches, |info.tranches|, now);
  }

  /** Left alone it never falls, including across the ledger where a tranche becomes settled. */
  lemma EffectiveGrows(info: StakeInfo, now: nat, later: nat)
    requires Sound(info) && now <= later
    ensures Effective(info, now) <= Effective(info, later)
  {
    EffectiveIsWorth(info, now);
    EffectiveIsWorth(info, later);
    WorthSumGrows(info.tranches, |info.tranches|, now, later);
  }

  /** A top-up buys nothing at its own ledger, except at the last representable one, where the
      saturated warmup has already ended. */
  lemma TopUpIsWorthless(info: StakeInfo, amount: int, now: nat)
    requires Sound(info) && amount > 0 && now <= U32_MAX
    requires TopUp(info, amount, now).Ok?
    ensures Effective(TopUp(info, amount, now).value, now)
            == Effective(info, now) + if now == U32_MAX then amount else 0
  {
    MatureKeepsEffective(info, now);
    var matured, after := Mature(info, now), TopUp(info, amount, now).value;
    EffectiveIsWorth(matured, now);
    EffectiveIsWorth(after, now);
    SameSums(after.tranches, matured.tranches, |matured.tranches|, now);
    assert Weight(Tranche(amount, now), now) == amount * 0 / STAKE_WARMUP_LEDGERS == 0;
  }

  /** Unstaking lowers the effective stake, and by no more than the amount unstaked. */
  lemma UnstakeLowersByAtMost(info: StakeInfo, amount: int, now: nat, timeout: nat)
    requires Sound(info)
    requires Unstake(info, amount, now, timeout).Ok?
    ensures Effective(info, now) - amount
            <= Effective(Unstake(info, amount, now, timeout).value, now) <= Effective(info, now)
  {
    MatureKeepsEffective(info, now);
    var matured, after := Mature(info, now), Unstake(info, amount, now, timeout).value;
    EffectiveIsWorth(matured, now);
    EffectiveIsWorth(after, now);
    DrainedWorth(matured.tranches, |matured.tranches|, Min(amount, matured.warming), now);
  }
}
