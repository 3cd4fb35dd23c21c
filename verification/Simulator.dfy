/** The incentive simulator's copy of the settlement, and its match. */
module Simulator {
  import opened Base
  import opened Stakes
  import opened StakeTotals
  import opened Settlement
  import opened Preview

  datatype Stake = Stake(warming: int, settled: int, unbonding: int)

  datatype Params = Params(feeBps: int, slashBps: int, slashCapBpsOfAmount: int)

  const CONTRACT: Params := Params(PLATFORM_FEE_BPS, SLASH_BPS, SLASH_CAP_BPS_OF_AMOUNT)

  datatype SimSettlement = SimSettlement(
    fee: int, share: int, redistributionShare: int, dust: int, totalSlashed: int, slashPlatformTake: int)

  function PlatformTake(s: SimSettlement): int {
    s.fee + s.dust + s.slashPlatformTake
  }

  /** Draws from warming, then settled, then unbonding. */
  function SimSlash(info: Stake, slashBps: int, cap: int): (Stake, int) {
    var slashable := info.settled + info.warming + info.unbonding;
    if slashable <= 0 then (info, 0)
    else
      var amount := Min(Min(MulBps(slashable, slashBps), cap), slashable);
      if amount <= 0 then (info, 0)
      else
        var w := Min(amount, info.warming);
        var s := Min(amount - w, info.settled);
        var u := Min(amount - w - s, info.unbonding);
        (Stake(info.warming - w, info.settled - s, info.unbonding - u), amount)
  }

  method SlashInPlace(losers: array<Stake>, i: nat, slashBps: int, cap: int) returns (amount: int)
    requires i < losers.Length
    modifies losers
    ensures amount == SimSlash(old(losers[i]), slashBps, cap).1
    ensures losers[i] == SimSlash(old(losers[i]), slashBps, cap).0
    ensures forall j :: 0 <= j < losers.Length && j != i ==> losers[j] == old(losers[j])
  {
    var slashable := losers[i].settled + losers[i].warming + losers[i].unbonding;
    if slashable <= 0 {
      return 0;
    }
    amount := Min(Min(MulBps(slashable, slashBps), cap), slashable);
    if amount <= 0 {
      return 0;
    }
    var left := amount;
    var take := Min(left, losers[i].warming);
    losers[i] := losers[i].(warming := losers[i].warming - take);
    left := left - take;
    take := Min(left, losers[i].settled);
    losers[i] := losers[i].(settled := losers[i].settled - take);
    left := left - take;
    take := Min(left, losers[i].unbonding);
    losers[i] := losers[i].(unbonding := losers[i].unbonding - take);
  }

  /** The running totals after the first `k` losers. */
  function SimTotals(losers: seq<Stake>, k: nat, slashBps: int, cap: int, n: int): Tally
    requires k <= |losers| && n > 0
  {
    if k == 0 then NOTHING_SLASHED
    else Split(SimTotals(losers, k - 1, slashBps, cap, n), SimSlash(losers[k - 1], slashBps, cap).1, n)
  }

  function SimResolve(amount: int, winners: nat, losers: seq<Stake>, p: Params): SimSettlement
    requires winners > 0
  {
    var fee := MulBps(amount, p.feeBps);
    var share := (amount - fee) / winners;
    var t := SimTotals(losers, |losers|, p.slashBps, MulBps(amount, p.slashCapBpsOfAmount), winners);
    SimSettlement(fee, share, t.perWorker, amount - fee - share * winners, t.total, t.platformTake)
  }

  method ResolveInPlace(amount: int, winners: nat, losers: array<Stake>, p: Params) returns (s: SimSettlement)
    requires winners > 0
    modifies losers
    ensures s == SimResolve(amount, winners, old(losers[..]), p)
    ensures forall i :: 0 <= i < losers.Length ==>
              losers[i] == SimSlash(old(losers[i]), p.slashBps, MulBps(amount, p.slashCapBpsOfAmount)).0
  {
    var fee := MulBps(amount, p.feeBps);
    var pool := amount - fee;
    var share := pool / winners;
    var dust := pool - share * winners;
    var cap := MulBps(amount, p.slashCapBpsOfAmount);
    var totalSlashed, slashPlatformTake, redistributionShare := 0, 0, 0;
    ghost var start := losers[..];
    for i := 0 to losers.Length
      invariant Tally(slashPlatformTake, redistributionShare, totalSlashed)
                == SimTotals(start, i, p.slashBps, cap, winners)
      invariant forall j :: 0 <= j < i ==> losers[j] == SimSlash(start[j], p.slashBps, cap).0
      invariant forall j :: i <= j < losers.Length ==> losers[j] == start[j]
    {
      var slashed := SlashInPlace(losers, i, p.slashBps, cap);
      if slashed > 0 {
        var workerPortion := WorkerPortion(slashed);
        var platformPortion := slashed - workerPortion;
        var redistShare := workerPortion / winners;
        var redistDust := workerPortion - redistShare * winners;
        redistributionShare := redistributionShare + redistShare;
        slashPlatformTake := slashPlatformTake + (platformPortion + redistDust);
        totalSlashed := totalSlashed + slashed;
      }
    }
    s := SimSettlement(fee, share, redistributionShare, dust, totalSlashed, slashPlatformTake);
  }

  // ---- agreement with the contract ------------------------------------------------------

  /** The three buckets the simulator keeps of a matured bond; a worker without one has nothing. */
  function Project(stakes: Bonds, w: Address, now: nat): Stake {
    if w !in stakes then Stake(0, 0, 0)
    else var info := Mature(stakes[w], now); Stake(info.warming, info.settled, info.unbonding)
  }

  /** Projecting then slashing is slashing then projecting, for any sound tranche list. */
  lemma ProjectCommutesWithSlash(stakes: Bonds, w: Address, cap: int, now: nat)
    requires AllSound(stakes)
    ensures var (after, taken) := SlashWorker(stakes, w, SlasherAt(cap, now));
            var (simAfter, simTaken) := SimSlash(Project(stakes, w, now), SLASH_BPS, cap);
            taken == simTaken && Project(after, w, now) == simAfter
  {
    if w in stakes {
      var info := Mature(stakes[w], now);
      MatureSound(stakes[w], now);
      SlashSizeBounds(Slashable(info), cap);
      var amount := SlashAmount(info, cap);
      if amount > 0 {
        TakeBucketsSound(info, amount);
        MaturedStaysMatured(stakes[w], amount, now);
      }
    }
  }

  /** Slashing a matured bond leaves nothing ripe behind, so re-reading it changes nothing. */
  lemma MaturedStaysMatured(stored: StakeInfo, amount: int, now: nat)
    requires Sound(stored) && 0 <= amount <= Slashable(stored)
    ensures var after := TakeBuckets(Mature(stored, now), amount);
            Mature(after, now).settled == after.settled && Mature(after, now).warming == after.warming
            && Mature(after, now).unbonding == after.unbonding
  {
    var info := Mature(stored, now);
    MatureSound(stored, now);
    UnripeNotRipe(stored.tranches, |stored.tranches|, now);
    DrainedNotRipe(info.tranches, |info.tranches|, Min(amount, info.warming), now);
    var after := TakeBuckets(info, amount);
    NoRipeSum(after.tranches, |after.tranches|, now);
  }

  ghost predicate NoneRipe(ts: seq<Tranche>, now: nat) {
    forall i :: 0 <= i < |ts| ==> !Ripe(ts[i], now)
  }

  lemma {:induction false} UnripeNotRipe(ts: seq<Tranche>, n: nat, now: nat)
    requires n <= |ts|
    ensures NoneRipe(Unripe(ts, n, now), now)
  {
    if n > 0 {
      UnripeNotRipe(ts, n - 1, now);
    }
  }

  lemma {:induction false} DrainedNotRipe(ts: seq<Tranche>, n: nat, a: int, now: nat)
    requires n <= |ts| && NoneRipe(ts, now)
    ensures NoneRipe(Drained(ts, n, a), now)
  {
    if n > 0 && a > 0 && a >= ts[n - 1].amount {
      DrainedNotRipe(ts, n - 1, a - ts[n - 1].amount, now);
    } else if n > 0 && a > 0 {
      assert !Ripe(ts[n - 1], now);
    }
  }

  lemma {:induction false} NoRipeSum(ts: seq<Tranche>, n: nat, now: nat)
    requires n <= |ts| && NoneRipe(ts, now)
    ensures RipeSum(ts, n, now) == 0
  {
    if n > 0 {
      NoRipeSum(ts, n - 1, now);
    }
  }

  /** Losers' projected buckets, in order. */
  function Projected(stakes: Bonds, losers: seq<Address>, now: nat): seq<Stake> {
    seq(|losers|, i requires 0 <= i < |losers| => Project(stakes, losers[i], now))
  }

  /** Slashing a loser's projection is what the slasher does to its bond. */
  ghost predicate Mirrors(stakes: Bonds, losers: seq<Address>, cap: int, now: nat, f: Slasher) {
    forall w :: w in losers ==>
      && SlashWorker(stakes, w, f).1 == SimSlash(Project(stakes, w, now), SLASH_BPS, cap).1
      && Project(SlashWorker(stakes, w, f).0, w, now) == SimSlash(Project(stakes, w, now), SLASH_BPS, cap).0
  }

  lemma {:induction false} RunningTotalsAgree(stakes: Bonds, losers: seq<Address>, k: nat, cap: int, now: nat,
                                              f: Slasher, n: nat)
    requires k <= |losers| && n > 0 && NoDup(losers) && Mirrors(stakes, losers, cap, now, f)
    ensures SimTotals(Projected(stakes, losers, now), k, SLASH_BPS, cap, n)
            == Distribute(stakes, losers, k, f, n).tally
  {
    hide Split, SimSlash, Project, Slash;
    if k > 0 {
      RunningTotalsAgree(stakes, losers, k - 1, cap, now, f, n);
      var before := Distribute(stakes, losers, k - 1, f, n);
      DistributeFrame(stakes, losers, k - 1, f, n, losers[k - 1]);
      assert SlashWorker(before.stakes, losers[k - 1], f).1 == SlashWorker(stakes, losers[k - 1], f).1;
    }
  }

  /** A loser's bond after the whole pass is its bond after its own slash. */
  lemma {:induction false} LoserAfterDistribute(stakes: Bonds, losers: seq<Address>, k: nat, i: nat, f: Slasher, n: nat)
    requires i < k <= |losers| && n > 0 && NoDup(losers)
    ensures var after, own := Distribute(stakes, losers, k, f, n).stakes, SlashWorker(stakes, losers[i], f).0;
            (losers[i] in after <==> losers[i] in own) && (losers[i] in own ==> after[losers[i]] == own[losers[i]])
    decreases k
  {
    if i < k - 1 {
      LoserAfterDistribute(stakes, losers, k - 1, i, f, n);
    } else {
      DistributeFrame(stakes, losers, i, f, n, losers[i]);
    }
  }

  /** With the deployed parameters and distinct losers, the simulator's settlement is the contract's:
      the winners' credit, the platform's take, the total slashed and every loser's buckets. */
  lemma SimulatorIsContract(stakes: Bonds, amount: nat, n: nat, losers: seq<Address>, now: nat)
    requires n > 0 && NoDup(losers) && AllSound(stakes)
    ensures var b := UncheckedBill(stakes, amount, n, losers, LoserSlash(amount, now));
            var s := SimResolve(amount, n, Projected(stakes, losers, now), CONTRACT);
            && s.share + s.redistributionShare == b.workerCredit
            && PlatformTake(s) == b.platformTake
            && s.totalSlashed == b.slashes.tally.total
    ensures var b := UncheckedBill(stakes, amount, n, losers, LoserSlash(amount, now));
            forall i :: 0 <= i < |losers| ==>
              Project(b.slashes.stakes, losers[i], now)
              == SimSlash(Project(stakes, losers[i], now), SLASH_BPS, SlashCap(amount)).0
  {
    var cap, f := SlashCap(amount), SlasherAt(SlashCap(amount), now);
    forall w | w in losers
      ensures SlashWorker(stakes, w, f).1 == SimSlash(Project(stakes, w, now), SLASH_BPS, cap).1
      ensures Project(SlashWorker(stakes, w, f).0, w, now) == SimSlash(Project(stakes, w, now), SLASH_BPS, cap).0
    {
      ProjectCommutesWithSlash(stakes, w, cap, now);
    }
    RunningTotalsAgree(stakes, losers, |losers|, cap, now, f, n);
    LosersAgree(stakes, losers, cap, now, f, n);
  }

  lemma LosersAgree(stakes: Bonds, losers: seq<Address>, cap: int, now: nat, f: Slasher, n: nat)
    requires n > 0 && NoDup(losers) && Mirrors(stakes, losers, cap, now, f)
    ensures var after := Distribute(stakes, losers, |losers|, f, n).stakes;
            forall i :: 0 <= i < |losers| ==>
              Project(after, losers[i], now) == SimSlash(Project(stakes, losers[i], now), SLASH_BPS, cap).0
  {
    var after := Distribute(stakes, losers, |losers|, f, n).stakes;
    forall i | 0 <= i < |losers|
      ensures Project(after, losers[i], now) == SimSlash(Project(stakes, losers[i], now), SLASH_BPS, cap).0
    {
      LoserAfterDistribute(stakes, losers, |losers|, i, f, n);
    }
  }
}
