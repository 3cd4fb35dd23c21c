/** The arithmetic of the preview, against the settlement. */
module Preview {
  import opened Base
  import opened Stakes
  import opened StakeTotals
  import opened Settlement

  // The preview multiplies first and splits the slashes once in total, where the settlement divides first and
  // splits them loser by loser; they are compared over unbounded integers.

  datatype ResolvePreview = ResolvePreview(
    fee: int, dust: int, sharePerWorker: int, totalSlashed: int, platformTake: int)

  function PreviewSlash(stakes: Bonds, w: Address, cap: int, now: nat): int {
    if w !in stakes then 0
    else
      var slashable := Slashable(Mature(stakes[w], now));
      if slashable <= 0 then 0
      else Max(0, Min(Min(slashable * SLASH_BPS / BPS_DENOM, cap), slashable))
  }

  function PreviewTotal(stakes: Bonds, losers: seq<Address>, k: nat, cap: int, now: nat): int
    requires k <= |losers|
  {
    if k == 0 then 0
    else PreviewTotal(stakes, losers, k - 1, cap, now) + PreviewSlash(stakes, losers[k - 1], cap, now)
  }

  function PreviewOf(stakes: Bonds, amount: int, n: int, losers: seq<Address>, now: nat): ResolvePreview
    requires n > 0
  {
    var fee := amount * PLATFORM_FEE_BPS / BPS_DENOM;
    var pool := amount - fee;
    var share := pool / n;
    var dust := pool - share * n;
    var total := PreviewTotal(stakes, losers, |losers|, amount * SLASH_CAP_BPS_OF_AMOUNT / BPS_DENOM, now);
    var workerPortion := MulBps(total, SLASH_REDISTRIBUTE_BPS);
    var redistShare := workerPortion / n;
    var redistDust := workerPortion - redistShare * n;
    ResolvePreview(fee, dust, share + redistShare, total, fee + dust + (total - workerPortion) + redistDust)
  }

  // ---- what the contract can compute of it --------------------------------------------------

  /** Reading one loser's slash multiplies its whole bond. */
  predicate ReadFits(stakes: Bonds, w: Address, now: nat) {
    w in stakes ==> var slashable := Slashable(Mature(stakes[w], now)); slashable <= 0 || Fits(slashable * SLASH_BPS)
  }

  /** The first `k` reads, and the running total after each. */
  predicate ReadsFit(stakes: Bonds, losers: seq<Address>, k: nat, cap: int, now: nat)
    requires k <= |losers|
  {
    k == 0 ||
    (&& ReadsFit(stakes, losers, k - 1, cap, now) && ReadFits(stakes, losers[k - 1], now)
     && Fits(PreviewTotal(stakes, losers, k, cap, now)))
  }

  /** The preview in i128 arithmetic: a product or sum that does not fit aborts the call. */
  function PreviewResult(stakes: Bonds, amount: int, n: int, losers: seq<Address>, now: nat): Result<ResolvePreview>
    requires n > 0
  {
    var cap := amount * SLASH_CAP_BPS_OF_AMOUNT / BPS_DENOM;
    var p := PreviewOf(stakes, amount, n, losers, now);
    if !Fits(amount * PLATFORM_FEE_BPS) || !Fits(amount * SLASH_CAP_BPS_OF_AMOUNT) then Err(Trap)
    else if !ReadsFit(stakes, losers, |losers|, cap, now) then Err(Trap)
    else if !Fits(p.sharePerWorker) || !Fits(p.platformTake) then Err(Trap)
    else Ok(p)
  }

  method PreviewResolve(stakes: Bonds, amount: int, n: int, losers: seq<Address>, now: nat)
    returns (r: Result<ResolvePreview>)
    requires n > 0
    ensures r == PreviewResult(stakes, amount, n, losers, now)
  {
    if !Fits(amount * PLATFORM_FEE_BPS) {
      return Err(Trap);
    }
    var fee := amount * PLATFORM_FEE_BPS / BPS_DENOM;
    var pool := amount - fee;
    var sharePerWorker := pool / n;
    var dust := pool - sharePerWorker * n;
    if !Fits(amount * SLASH_CAP_BPS_OF_AMOUNT) {
      return Err(Trap);
    }
    var slashCap := amount * SLASH_CAP_BPS_OF_AMOUNT / BPS_DENOM;
    var totalSlashed := 0;
    for i := 0 to |losers|
      invariant totalSlashed == PreviewTotal(stakes, losers, i, slashCap, now)
      invariant ReadsFit(stakes, losers, i, slashCap, now)
    {
      var fits := ReadFits(stakes, losers[i], now);
      if fits {
        totalSlashed := totalSlashed + PreviewSlash(stakes, losers[i], slashCap, now);
      }
      if !fits || !Fits(totalSlashed) {
        ReadsStop(stakes, losers, i + 1, |losers|, slashCap, now);
        return Err(Trap);
      }
    }
    var workerPortion := MulBps(totalSlashed, SLASH_REDISTRIBUTE_BPS);
    var platformPortion := totalSlashed - workerPortion;
    var redistShare := workerPortion / n;
    var redistDust := workerPortion - redistShare * n;
    if !Fits(sharePerWorker + redistShare) || !Fits(fee + dust + platformPortion + redistDust) {
      return Err(Trap);
    }
    return Ok(ResolvePreview(fee, dust, sharePerWorker + redistShare, totalSlashed,
                             fee + dust + platformPortion + redistDust));
  }

  lemma {:induction false} ReadsStop(stakes: Bonds, losers: seq<Address>, i: nat, k: nat, cap: int, now: nat)
    requires i <= k <= |losers| && !ReadsFit(stakes, losers, i, cap, now)
    ensures !ReadsFit(stakes, losers, k, cap, now)
    decreases k
  {
    if i < k {
      ReadsStop(stakes, losers, i, k - 1, cap, now);
    }
  }

  /** While the total fits, the reads fit exactly when every loser's whole bond can be multiplied. */
  lemma {:induction false} ReadsFitExactly(stakes: Bonds, losers: seq<Address>, k: nat, cap: int, now: nat)
    requires k <= |losers| && AllSound(stakes)
    requires PreviewTotal(stakes, losers, k, cap, now) <= I128_MAX
    ensures PreviewTotal(stakes, losers, k, cap, now) >= 0
    ensures ReadsFit(stakes, losers, k, cap, now) <==>
              forall i :: 0 <= i < k && losers[i] in stakes ==> Slashable(stakes[losers[i]]) * SLASH_BPS <= I128_MAX
  {
    hide Mature, PreviewSlash;
    if k > 0 {
      PreviewSlashIsSlash(stakes, losers[k - 1], cap, now);
      ReadsFitExactly(stakes, losers, k - 1, cap, now);
      OneReadFits(stakes, losers[k - 1], now);
    }
  }

  lemma OneReadFits(stakes: Bonds, w: Address, now: nat)
    requires AllSound(stakes)
    ensures ReadFits(stakes, w, now) <==> w in stakes ==> Slashable(stakes[w]) * SLASH_BPS <= I128_MAX
  {
    if w in stakes {
      MatureSound(stakes[w], now);
    }
  }

  // ---- the comparison ------------------------------------------------------------------

  /** How many of the first `k` losers have something to lose. */
  function SlashedCount(stakes: Bonds, losers: seq<Address>, k: nat, cap: int, now: nat): nat
    requires k <= |losers|
  {
    if k == 0 then 0
    else SlashedCount(stakes, losers, k - 1, cap, now)
         + if PreviewSlash(stakes, losers[k - 1], cap, now) > 0 then 1 else 0
  }

  lemma PreviewSlashIsSlash(stakes: Bonds, w: Address, cap: int, now: nat)
    ensures PreviewSlash(stakes, w, cap, now) == SlashWorker(stakes, w, SlasherAt(cap, now)).1 >= 0
  {
  }

  /** The winners' share of `x` slashed stroops is one floor, however it is written. */
  lemma RedistributionFloor(x: nat, n: nat)
    requires n > 0
    ensures WorkerPortion(x) / n == x / (2 * n)
  {
    MulBpsIsFloor(x, SLASH_REDISTRIBUTE_BPS);
    assert WorkerPortion(x) == x / 2;
    var q, r := x / 2 / n, x / 2 % n;
    assert x == (q * n + r) * 2 + x % 2;
    assert (q * n + r) * 2 == q * (2 * n) + 2 * r;
    DivUnique(x, 2 * n, q, 2 * r + x % 2);
  }

  lemma RedistributionMerges(a: nat, b: nat, n: nat)
    requires n > 0
    ensures WorkerPortion(a) / n + WorkerPortion(b) / n <= WorkerPortion(a + b) / n
    ensures WorkerPortion(a + b) / n <= WorkerPortion(a) / n + WorkerPortion(b) / n + 1
    ensures WorkerPortion(0) / n == 0
  {
    RedistributionFloor(a, n);
    RedistributionFloor(b, n);
    RedistributionFloor(a + b, n);
    RedistributionFloor(0, n);
    FloorSuperadditive(a, b, 2 * n);
  }

  /** The gap between the two redistributions after one more loser. */
  lemma GapStep(perWorker: int, total: nat, count: nat, slashed: nat, n: nat)
    requires n > 0
    requires count == 0 ==> total == 0
    requires 0 <= WorkerPortion(total) / n - perWorker <= Max(count - 1, 0)
    ensures 0 <= WorkerPortion(total + slashed) / n - (perWorker + WorkerPortion(slashed) / n)
    ensures WorkerPortion(total + slashed) / n - (perWorker + WorkerPortion(slashed) / n) <= count
    ensures WorkerPortion(0) / n == 0
  {
    RedistributionMerges(total, slashed, n);
  }

  /** What the preview reads off the original state, loser by loser. */
  ghost predicate Foretells(stakes: Bonds, losers: seq<Address>, cap: int, now: nat, f: Slasher) {
    forall w :: w in losers ==> PreviewSlash(stakes, w, cap, now) == SlashWorker(stakes, w, f).1 >= 0
  }

  lemma {:induction false} TotalsAgree(stakes: Bonds, losers: seq<Address>, k: nat, cap: int, now: nat, f: Slasher,
                                       n: nat)
    requires k <= |losers| && n > 0 && NoDup(losers) && Foretells(stakes, losers, cap, now, f)
    ensures var t := Distribute(stakes, losers, k, f, n).tally;
            var total := PreviewTotal(stakes, losers, k, cap, now);
            var slashed := SlashedCount(stakes, losers, k, cap, now);
            && t.total == total >= 0
            && (slashed == 0 ==> total == 0)
            && 0 <= WorkerPortion(total) / n - t.perWorker <= Max(slashed - 1, 0)
  {
    hide WorkerPortion, Slash, PreviewSlash;
    if k == 0 {
      RedistributionMerges(0, 0, n);
    } else {
      TotalsAgree(stakes, losers, k - 1, cap, now, f, n);
      var before := Distribute(stakes, losers, k - 1, f, n);
      DistributeFrame(stakes, losers, k - 1, f, n, losers[k - 1]);
      assert SlashWorker(before.stakes, losers[k - 1], f).1 == PreviewSlash(stakes, losers[k - 1], cap, now);
      GapStep(before.tally.perWorker, before.tally.total, SlashedCount(stakes, losers, k - 1, cap, now),
              PreviewSlash(stakes, losers[k - 1], cap, now), n);
    }
  }

  // ---- the exact gap ------------------------------------------------------------------------

  /** What each loser's slash leaves over when its winners' half is shared out, summed. */
  function Remainders(stakes: Bonds, losers: seq<Address>, k: nat, cap: int, now: nat, n: int): int
    requires k <= |losers| && n > 0
  {
    if k == 0 then 0
    else Remainders(stakes, losers, k - 1, cap, now, n) + PreviewSlash(stakes, losers[k - 1], cap, now) % (2 * n)
  }

  lemma OneRemainder(slashed: nat, n: nat)
    requires n > 0
    ensures slashed == WorkerPortion(slashed) / n * (2 * n) + slashed % (2 * n)
    ensures slashed % (2 * n) >= 0
  {
    RedistributionFloor(slashed, n);
    hide WorkerPortion;
    assert slashed == slashed / (2 * n) * (2 * n) + slashed % (2 * n);
  }

  /** The total slashed is what the winners get per head, doubled, and the remainders. */
  lemma {:induction false} RemaindersAddUp(stakes: Bonds, losers: seq<Address>, k: nat, cap: int, now: nat, f: Slasher,
                                           n: nat)
    requires k <= |losers| && n > 0 && NoDup(losers) && Foretells(stakes, losers, cap, now, f)
    ensures var t := Distribute(stakes, losers, k, f, n).tally;
            var rems := Remainders(stakes, losers, k, cap, now, n);
            rems >= 0 && t.total == t.perWorker * (2 * n) + rems
  {
    hide WorkerPortion, Slash, PreviewSlash;
    if k > 0 {
      RemaindersAddUp(stakes, losers, k - 1, cap, now, f, n);
      var before := Distribute(stakes, losers, k - 1, f, n);
      DistributeFrame(stakes, losers, k - 1, f, n, losers[k - 1]);
      var slashed := PreviewSlash(stakes, losers[k - 1], cap, now);
      assert SlashWorker(before.stakes, losers[k - 1], f).1 == slashed;
      OneRemainder(slashed, n);
      PerWorkerStep(before.tally, slashed, n);
      MulDistributes(before.tally.perWorker, -(WorkerPortion(slashed) / n), 2 * n);
    }
  }

  lemma PerWorkerStep(t: Tally, slashed: nat, n: nat)
    requires n > 0
    ensures Split(t, slashed, n).perWorker == t.perWorker + WorkerPortion(slashed) / n
    ensures Split(t, slashed, n).total == t.total + slashed
  {
    RedistributionFloor(0, n);
  }

  /** On the same state and lists the preview and the settlement agree on the fee, the dust and the
      total slashed. The previewed share exceeds the real credit by exactly the losers' remainders over
      twice the winners, which is at most one less than the losers actually slashed, and its platform
      take is lower by exactly that times the winners. */
  lemma PreviewAgainstSettlement(stakes: Bonds, amount: nat, n: nat, losers: seq<Address>, now: nat)
    requires n > 0 && NoDup(losers)
    ensures var p := PreviewOf(stakes, amount, n, losers, now);
            var b := UncheckedBill(stakes, amount, n, losers, LoserSlash(amount, now));
            var k := SlashedCount(stakes, losers, |losers|, SlashCap(amount), now);
            var d := p.sharePerWorker - b.workerCredit;
            && p.fee == Fee(amount) && p.dust == Dust(amount, n)
            && p.totalSlashed == b.slashes.tally.total
            && d == Remainders(stakes, losers, |losers|, SlashCap(amount), now, n) / (2 * n)
            && 0 <= d <= Max(k - 1, 0)
            && b.platformTake - p.platformTake == d * n
  {
    hide Distribute, PreviewTotal, SlashedCount, SlasherAt, Remainders;
    MulBpsIsFloor(amount, PLATFORM_FEE_BPS);
    MulBpsIsFloor(amount, SLASH_CAP_BPS_OF_AMOUNT);
    var f := SlasherAt(SlashCap(amount), now);
    forall w | w in losers ensures PreviewSlash(stakes, w, SlashCap(amount), now) == SlashWorker(stakes, w, f).1 >= 0 {
      PreviewSlashIsSlash(stakes, w, SlashCap(amount), now);
    }
    TotalsAgree(stakes, losers, |losers|, SlashCap(amount), now, f, n);
    SlashesConserved(stakes, losers, |losers|, f, n);
    var b := UncheckedBill(stakes, amount, n, losers, LoserSlash(amount, now));
    var redistShare := WorkerPortion(b.slashes.tally.total) / n;
    var p := PreviewOf(stakes, amount, n, losers, now);
    assert p.sharePerWorker - b.workerCredit == redistShare - b.slashes.tally.perWorker;
    MulDistributes(redistShare, b.slashes.tally.perWorker, n);
    RemaindersAddUp(stakes, losers, |losers|, SlashCap(amount), now, f, n);
    RedistributionFloor(b.slashes.tally.total, n);
    DivAddMultiple(Remainders(stakes, losers, |losers|, SlashCap(amount), now, n), b.slashes.tally.perWorker, 2 * n);
  }

  /** The preview conserves too: what it promises the platform and the winners is the amount and the slashes. */
  lemma PreviewConserves(stakes: Bonds, amount: nat, n: nat, losers: seq<Address>, now: nat)
    requires n > 0 && NoDup(losers)
    ensures var p := PreviewOf(stakes, amount, n, losers, now);
            && p.platformTake >= 0 && p.sharePerWorker >= 0
            && p.platformTake + p.sharePerWorker * n == amount + p.totalSlashed
  {
    hide PreviewOf, UncheckedBill, Remainders, SlashedCount;
    PreviewAgainstSettlement(stakes, amount, n, losers, now);
    var f := LoserSlash(amount, now);
    BillConserves(stakes, amount, n, losers, f);
    var p, b := PreviewOf(stakes, amount, n, losers, now), UncheckedBill(stakes, amount, n, losers, f);
    MulDistributes(p.sharePerWorker, b.workerCredit, n);
    PreviewTakes(stakes, amount, n, losers, now);
  }

  lemma PreviewTakes(stakes: Bonds, amount: nat, n: nat, losers: seq<Address>, now: nat)
    requires n > 0 && PreviewOf(stakes, amount, n, losers, now).totalSlashed >= 0
    ensures PreviewOf(stakes, amount, n, losers, now).platformTake >= 0
  {
    hide PreviewTotal, MulBps;
    var p := PreviewOf(stakes, amount, n, losers, now);
    MulBpsIsFloor(amount, PLATFORM_FEE_BPS);
    MulBpsRange(amount, PLATFORM_FEE_BPS);
    MulBpsRange(p.totalSlashed, SLASH_REDISTRIBUTE_BPS);
    PortionSplit(amount - p.fee, n);
    PortionSplit(WorkerPortion(p.totalSlashed), n);
  }

  /** The preview is the settlement exactly when the remainders do not add up to another stroop each:
      a caller can sum them from the bonds before the call. */
  lemma PreviewExactWhen(stakes: Bonds, amount: nat, n: nat, losers: seq<Address>, now: nat)
    requires n > 0 && NoDup(losers)
    ensures var p := PreviewOf(stakes, amount, n, losers, now);
            var b := UncheckedBill(stakes, amount, n, losers, LoserSlash(amount, now));
            var exact := Remainders(stakes, losers, |losers|, SlashCap(amount), now, n) < 2 * n;
            && (p.sharePerWorker == b.workerCredit <==> exact)
            && (p.platformTake == b.platformTake <==> exact)
  {
    hide Remainders, PreviewOf, UncheckedBill, SlashCap, SlashedCount;
    PreviewAgainstSettlement(stakes, amount, n, losers, now);
    var rems := Remainders(stakes, losers, |losers|, SlashCap(amount), now, n);
    RemaindersNonNegative(stakes, losers, |losers|, SlashCap(amount), now, n);
    SmallQuotient(rems, n);
  }

  lemma SmallQuotient(rems: nat, n: nat)
    requires n > 0
    ensures rems < 2 * n <==> rems / (2 * n) == 0
    ensures rems / (2 * n) == 0 <==> rems / (2 * n) * n == 0
  {
    var m := 2 * n;
    if rems < m {
      DivUnique(rems, m, 0, rems);
    } else {
      DivMonotone(m, rems, m);
      DivUnique(m, m, 1, 0);
      NoZeroProduct(rems / m, n);
    }
  }

  lemma NoZeroProduct(q: int, n: int)
    requires q > 0 && n > 0
    ensures q * n > 0
  {
  }

  lemma {:induction false} RemaindersNonNegative(stakes: Bonds, losers: seq<Address>, k: nat, cap: int, now: nat,
                                                 n: nat)
    requires k <= |losers| && n > 0
    ensures Remainders(stakes, losers, k, cap, now, n) >= 0
  {
    if k > 0 {
      RemaindersNonNegative(stakes, losers, k - 1, cap, now, n);
    }
  }

  function Settled(amount: int): StakeInfo {
    NO_STAKE.(settled := amount)
  }

  /** An input on which they differ: two losers with 20 stroops each settle as one stroop of slash apiece,
      which is too little to share, while the preview shares the two together. */
  lemma PreviewPromisesMore(a: Address, b: Address, now: nat)
    requires a != b
    ensures var stakes := map[a := Settled(20), b := Settled(20)];
            var p := PreviewOf(stakes, 100, 1, [a, b], now);
            var bill := UncheckedBill(stakes, 100, 1, [a, b], LoserSlash(100, now));
            p.sharePerWorker == bill.workerCredit + 1 && p.platformTake == bill.platformTake - 1
  {
    hide PreviewOf, UncheckedBill;
    var stakes := map[a := Settled(20), b := Settled(20)];
    PreviewAgainstSettlement(stakes, 100, 1, [a, b], now);
    TwentyEach(stakes, a, b, now);
    FeeSplit(100, 1);
  }

  lemma TwentyEach(stakes: Bonds, a: Address, b: Address, now: nat)
    requires a != b && stakes == map[a := Settled(20), b := Settled(20)]
    ensures Remainders(stakes, [a, b], 2, 100, now, 1) == 2
  {
    hide Mature;
    assert Mature(Settled(20), now) == Settled(20) by { SettledStays(20, now); }
    assert PreviewSlash(stakes, a, 100, now) == 1;
    assert PreviewSlash(stakes, b, 100, now) == 1;
    assert Remainders(stakes, [a, b], 1, 100, now, 1) == 1;
  }

  lemma SettledStays(amount: int, now: nat)
    ensures Mature(Settled(amount), now) == Settled(amount)
  {
  }
}
