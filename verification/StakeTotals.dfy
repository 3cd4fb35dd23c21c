/** What every operation on a bond keeps, and the exact change it makes to the stake held. */
module StakeTotals {
  import opened Base
  import opened Stakes

  ghost predicate PositiveUpTo(ts: seq<Tranche>, n: nat)
    requires n <= |ts|
  {
    forall i :: 0 <= i < n ==> ts[i].amount > 0
  }

  /** The bond's buckets are non-negative and its warming total is what its tranches hold. */
  ghost predicate Sound(info: StakeInfo) {
    var n := |info.tranches|;
    && info.settled >= 0 && info.unbonding >= 0 && info.releaseAt <= U32_MAX
    && PositiveUpTo(info.tranches, n) && info.warming == Sum(info.tranches, n)
  }

  lemma {:induction false} UnripePositive(ts: seq<Tranche>, n: nat, now: nat)
    requires n <= |ts| && PositiveUpTo(ts, n)
    ensures var left := Unripe(ts, n, now);
            && PositiveUpTo(left, |left|) && Sum(left, |left|) == Sum(ts, n) - RipeSum(ts, n, now)
  {
    if n > 0 {
      UnripePositive(ts, n - 1, now);
      var left := Unripe(ts, n - 1, now);
      if Ripe(ts[n - 1], now) {
        assert left + [] == left;
      } else {
        SumSame(left + [ts[n - 1]], left, |left|);
      }
    }
  }

  lemma {:induction false} SumSame(s: seq<Tranche>, t: seq<Tranche>, n: nat)
    requires n <= |s| && n <= |t| && forall i :: 0 <= i < n ==> s[i] == t[i]
    ensures Sum(s, n) == Sum(t, n)
  {
    if n > 0 {
      SumSame(s, t, n - 1);
    }
  }

  lemma {:induction false} TrancheSumBounds(ts: seq<Tranche>, n: nat, now: nat)
    requires n <= |ts| && PositiveUpTo(ts, n)
    ensures 0 <= RipeSum(ts, n, now) <= Sum(ts, n)
    ensures Sum(ts, n) == 0 ==> n == 0
  {
    if n > 0 {
      TrancheSumBounds(ts, n - 1, now);
    }
  }

  lemma {:induction false} DrainedSum(ts: seq<Tranche>, n: nat, a: int)
    requires n <= |ts| && PositiveUpTo(ts, n) && 0 <= a <= Sum(ts, n)
    ensures var left := Drained(ts, n, a);
            && PositiveUpTo(left, |left|) && Sum(left, |left|) == Sum(ts, n) - a
            && Shortfall(ts, n, a) == 0
  {
    if a == 0 {
      SumSame(ts[..n], ts, n);
    } else if n > 0 {
      if a >= ts[n - 1].amount {
        DrainedSum(ts, n - 1, a - ts[n - 1].amount);
      } else {
        SumSame(Drained(ts, n, a), ts, n - 1);
      }
    }
  }

  /** Maturing moves stake between buckets and keeps every total. */
  lemma MatureSound(info: StakeInfo, now: nat)
    requires Sound(info)
    ensures Sound(Mature(info, now)) && 0 <= Mature(info, now).warming <= info.warming
    ensures Active(Mature(info, now)) == Active(info)
    ensures Slashable(Mature(info, now)) == Slashable(info)
    ensures info.settled <= Mature(info, now).settled
    ensures Slashable(info) >= 0
  {
    UnripePositive(info.tranches, |info.tranches|, now);
    TrancheSumBounds(info.tranches, |info.tranches|, now);
  }

  lemma TopUpSound(info: StakeInfo, amount: int, now: nat)
    requires Sound(info) && amount > 0 && TopUp(info, amount, now).Ok?
    ensures Sound(TopUp(info, amount, now).value)
    ensures Slashable(TopUp(info, amount, now).value) == Slashable(info) + amount
  {
    MatureSound(info, now);
    var matured, after := Mature(info, now), TopUp(info, amount, now).value;
    SumSame(after.tranches, matured.tranches, |matured.tranches|);
  }

  lemma UnstakeSound(info: StakeInfo, amount: int, now: nat, timeout: nat)
    requires Sound(info) && Unstake(info, amount, now, timeout).Ok?
    ensures Sound(Unstake(info, amount, now, timeout).value)
    ensures Slashable(Unstake(info, amount, now, timeout).value) == Slashable(info)
    ensures Active(Unstake(info, amount, now, timeout).value) == Active(info) - amount
  {
    MatureSound(info, now);
    var matured := Mature(info, now);
    DrainedSum(matured.tranches, |matured.tranches|, Min(amount, matured.warming));
  }

  lemma ReleaseSound(info: StakeInfo, now: nat)
    requires Sound(info) && Release(info, now).Ok?
    ensures var (after, paid) := Release(info, now).value;
            && Sound(after) && paid == info.unbonding > 0 && after.unbonding == 0
            && Slashable(after) == Slashable(info) - paid && Active(after) == Active(info)
  {
    MatureSound(info, now);
  }

  lemma TakeBucketsSound(info: StakeInfo, amount: int)
    requires Sound(info) && info.warming >= 0 && 0 <= amount <= Slashable(info)
    ensures Sound(TakeBuckets(info, amount))
    ensures Slashable(TakeBuckets(info, amount)) == Slashable(info) - amount
    ensures TakeBuckets(info, amount).warming == info.warming - Min(amount, info.warming)
  {
    DrainedSum(info.tranches, |info.tranches|, Min(amount, info.warming));
  }

  lemma SlashSound(info: StakeInfo, cap: int, now: nat)
    requires Sound(info)
    ensures var (after, taken) := Slash(info, cap, now);
            && Sound(after) && Slashable(after) == Slashable(info) - taken
            && 0 <= taken <= Slashable(info) && taken <= Max(0, cap)
  {
    MatureSound(info, now);
    SlashSizeBounds(Slashable(info), cap);
    if SlashAmount(Mature(info, now), cap) != 0 {
      TakeBucketsSound(Mature(info, now), SlashAmount(Mature(info, now), cap));
    }
  }

  /** The slash is a twentieth of everything slashable, rounded down, or the cap. */
  lemma SlashIsShare(info: StakeInfo, cap: nat, now: nat)
    requires Sound(info)
    ensures Slash(info, cap, now).1 == Min(Slashable(info) / 20, cap)
  {
    MatureSound(info, now);
    MulBpsIsFloor(Slashable(info), SLASH_BPS);
    MulBpsRange(Slashable(info), SLASH_BPS);
  }

  lemma SlashSizeBounds(slashable: int, cap: int)
    ensures 0 <= SlashSize(slashable, cap) <= Max(0, slashable)
    ensures SlashSize(slashable, cap) <= Max(0, cap)
  {
  }
}
