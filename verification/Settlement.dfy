/** The money of one settlement: fee, pool split, slashes and their redistribution. */
module Settlement {
  import opened Base
  import opened Stakes
  import opened StakeTotals

  const PLATFORM_FEE_BPS: int := 2000
  const SLASH_CAP_BPS_OF_AMOUNT: int := 10_000
  const SLASH_REDISTRIBUTE_BPS: int := 5_000

  type Bonds = map<Address, StakeInfo>

  // ---- slashing the losers ---------------------------------------------------------

  /** How one stored bond is slashed: the bond left and the amount taken. */
  type Slasher = StakeInfo -> (StakeInfo, int)

  function SlasherAt(cap: int, now: nat): Slasher {
    info => Slash(info, cap, now)
  }

  /** A worker who never staked is skipped. */
  function SlashWorker(stakes: Bonds, w: Address, f: Slasher): (Bonds, int) {
    if w !in stakes then (stakes, 0)
    else var r := f(stakes[w]); (stakes[w := r.0], r.1)
  }

  /** Running totals of a slashing pass: the platform's part, each winner's part, and the whole. */
  datatype Tally = Tally(platformTake: int, perWorker: int, total: int)

  const NOTHING_SLASHED: Tally := Tally(0, 0, 0)

  function WorkerPortion(slashed: int): int {
    MulBps(slashed, SLASH_REDISTRIBUTE_BPS)
  }

  /** One loser's slash split among `n` winners; what does not divide goes to the platform. */
  function Split(t: Tally, slashed: int, n: int): Tally
    requires n > 0
  {
    if slashed <= 0 then t
    else
      var workerPortion := WorkerPortion(slashed);
      var share := workerPortion / n;
      Tally(t.platformTake + (slashed - workerPortion) + (workerPortion - share * n),
            t.perWorker + share,
            t.total + slashed)
  }

  /** What slashing a list of losers moves, before any of it is paid out. */
  datatype Slashes = Slashes(stakes: Bonds, tally: Tally)

  function AddSlash(d: Slashes, loser: Address, f: Slasher, n: int): Slashes
    requires n > 0
  {
    var (stakes, slashed) := SlashWorker(d.stakes, loser, f);
    Slashes(stakes, Split(d.tally, slashed, n))
  }

  /** The first `k` losers, in order. */
  function Distribute(stakes: Bonds, losers: seq<Address>, k: nat, f: Slasher, n: int): Slashes
    requires k <= |losers| && n > 0
  {
    if k == 0 then Slashes(stakes, NOTHING_SLASHED)
    else AddSlash(Distribute(stakes, losers, k - 1, f, n), losers[k - 1], f, n)
  }

  predicate TallyFits(t: Tally) {
    Fits(t.platformTake) && Fits(t.perWorker) && Fits(t.total)
  }

  /** What reaches the platform and the `n` winners together. */
  function Spread(t: Tally, n: int): int {
    t.platformTake + t.perWorker * n
  }

  /** `t` is componentwise at most `u`. */
  predicate AtMost(t: Tally, u: Tally) {
    t.platformTake <= u.platformTake && t.perWorker <= u.perWorker && t.total <= u.total
  }

  /** Each loser only adds, so if the totals fit an i128 then so did every partial sum. */
  lemma SplitGrows(t: Tally, slashed: int, n: int)
    requires n > 0
    ensures var u := Split(t, slashed, n);
            AtMost(t, u) && Spread(u, n) - u.total == Spread(t, n) - t.total
  {
    if slashed > 0 {
      MulBpsRange(slashed, SLASH_REDISTRIBUTE_BPS);
      PortionSplit(WorkerPortion(slashed), n);
      MulDistributes(t.perWorker + WorkerPortion(slashed) / n, t.perWorker, n);
    }
  }

  lemma PortionSplit(portion: int, n: int)
    requires n > 0
    ensures 0 <= portion - portion / n * n < n
    ensures portion >= 0 ==> portion / n >= 0
  {
  }

  lemma {:induction false} DistributeMonotone(stakes: Bonds, losers: seq<Address>, j: nat, k: nat, f: Slasher, n: int)
    requires j <= k <= |losers| && n > 0
    ensures AtMost(Distribute(stakes, losers, j, f, n).tally, Distribute(stakes, losers, k, f, n).tally)
    decreases k
  {
    if j < k {
      DistributeMonotone(stakes, losers, j, k - 1, f, n);
      var before := Distribute(stakes, losers, k - 1, f, n);
      SplitGrows(before.tally, SlashWorker(before.stakes, losers[k - 1], f).1, n);
    }
  }

  /** Every stroop slashed goes either to the winners, in equal parts, or to the platform. */
  lemma {:induction false} SlashesConserved(stakes: Bonds, losers: seq<Address>, k: nat, f: Slasher, n: int)
    requires k <= |losers| && n > 0
    ensures var t := Distribute(stakes, losers, k, f, n).tally;
            Spread(t, n) == t.total
  {
    if k > 0 {
      SlashesConserved(stakes, losers, k - 1, f, n);
      var before := Distribute(stakes, losers, k - 1, f, n);
      SplitGrows(before.tally, SlashWorker(before.stakes, losers[k - 1], f).1, n);
    }
  }

  ghost predicate AllSound(stakes: Bonds) {
    forall w :: w in stakes ==> Sound(stakes[w])
  }

  /** A slasher that keeps bonds sound and takes what it reports out of them. */
  ghost predicate SoundSlasher(f: Slasher) {
    forall info {:trigger f(info)} :: Sound(info) ==>
      Sound(f(info).0) && f(info).1 >= 0 && Slashable(f(info).0) == Slashable(info) - f(info).1
  }

  lemma SlasherAtSound(cap: int, now: nat)
    ensures SoundSlasher(SlasherAt(cap, now))
  {
    forall info | Sound(info)
      ensures var r := SlasherAt(cap, now)(info);
              Sound(r.0) && r.1 >= 0 && Slashable(r.0) == Slashable(info) - r.1
    {
      SlashSound(info, cap, now);
    }
  }

  /** Any slasher that keeps a property of bonds and takes what it reports out of them does so
      for a whole list of losers. */
  lemma {:induction false} DistributeKeeps(
    stakes: Bonds, losers: seq<Address>, k: nat, f: Slasher, n: int, good: StakeInfo -> bool, size: StakeInfo -> int)
    requires k <= |losers| && n > 0
    requires forall w :: w in stakes ==> good(stakes[w])
    requires forall i {:trigger f(i)} :: good(i) ==> good(f(i).0) && f(i).1 >= 0 && size(f(i).0) == size(i) - f(i).1
    ensures var d := Distribute(stakes, losers, k, f, n);
            && (forall w :: w in d.stakes ==> good(d.stakes[w])) && d.stakes.Keys == stakes.Keys
            && SumBy(d.stakes, size) == SumBy(stakes, size) - d.tally.total
  {
    if k > 0 {
      DistributeKeeps(stakes, losers, k - 1, f, n, good, size);
      var before, loser := Distribute(stakes, losers, k - 1, f, n), losers[k - 1];
      if loser in before.stakes {
        SumUpdate(before.stakes, loser, f(before.stakes[loser]).0, size);
      }
    }
  }

  /** The bonds lose exactly what is reported slashed. */
  lemma DistributeSound(stakes: Bonds, losers: seq<Address>, k: nat, f: Slasher, n: int)
    requires k <= |losers| && n > 0 && AllSound(stakes) && SoundSlasher(f)
    ensures var d := Distribute(stakes, losers, k, f, n);
            && AllSound(d.stakes) && d.stakes.Keys == stakes.Keys
            && SumBy(d.stakes, Slashable) == SumBy(stakes, Slashable) - d.tally.total
  {
    DistributeKeeps(stakes, losers, k, f, n, Sound, Slashable);
  }

  // ---- the bill -----------------------------------------------------------------------

  function Fee(amount: int): int { MulBps(amount, PLATFORM_FEE_BPS) }

  function Share(amount: int, n: int): int
    requires n > 0
  {
    (amount - Fee(amount)) / n
  }

  function Dust(amount: int, n: int): int
    requires n > 0
  {
    amount - Fee(amount) - Share(amount, n) * n
  }

  function SlashCap(amount: int): int { MulBps(amount, SLASH_CAP_BPS_OF_AMOUNT) }

  /** How the losers of a question of `amount` are slashed at ledger `now`. */
  function LoserSlash(amount: int, now: nat): Slasher {
    SlasherAt(SlashCap(amount), now)
  }

  /** Everything a settlement of `amount` moves. */
  datatype Bill = Bill(slashes: Slashes, platformTake: int, workerCredit: int)

  function UncheckedBill(stakes: Bonds, amount: int, n: int, losers: seq<Address>, f: Slasher): Bill
    requires n > 0
  {
    var d := Distribute(stakes, losers, |losers|, f, n);
    Bill(d, Fee(amount) + Dust(amount, n) + d.tally.platformTake, Share(amount, n) + d.tally.perWorker)
  }

  /** With the contract's checked additions. */
  function MakeBill(stakes: Bonds, amount: int, n: int, losers: seq<Address>, f: Slasher): Result<Bill>
    requires n > 0
  {
    var bill := UncheckedBill(stakes, amount, n, losers, f);
    if TallyFits(bill.slashes.tally) && Fits(bill.platformTake) && Fits(bill.workerCredit)
    then Ok(bill) else Err(ArithmeticOverflow)
  }

  lemma FeeSplit(amount: nat, n: nat)
    requires n > 0
    ensures 0 <= Fee(amount) <= amount && 0 <= Share(amount, n) && 0 <= Dust(amount, n) < n
    ensures Fee(amount) + Dust(amount, n) + Share(amount, n) * n == amount
    ensures SlashCap(amount) == amount && Fee(amount) == amount / 5 && Share(amount, n) == (amount - amount / 5) / n
  {
    MulBpsIsFloor(amount, PLATFORM_FEE_BPS);
    MulBpsRange(amount, PLATFORM_FEE_BPS);
  }

  /** Half of each loser's slash, in equal parts: a twentieth of everything slashable, at most the amount in
      question, halved and divided by the number of winners, rounded down each time. */
  function HalfShares(stakes: Bonds, losers: seq<Address>, k: nat, amount: nat, n: nat): int
    requires k <= |losers| && n > 0
  {
    if k == 0 then 0
    else
      HalfShares(stakes, losers, k - 1, amount, n) +
      if losers[k - 1] in stakes then Min(Slashable(stakes[losers[k - 1]]) / 20, amount) / 2 / n else 0
  }

  /** And the whole of what the losers lose. */
  function SlashTotal(stakes: Bonds, losers: seq<Address>, k: nat, amount: nat): int
    requires k <= |losers|
  {
    if k == 0 then 0
    else
      SlashTotal(stakes, losers, k - 1, amount) +
      if losers[k - 1] in stakes then Min(Slashable(stakes[losers[k - 1]]) / 20, amount) else 0
  }

  lemma OneSplit(t: Tally, slashed: nat, n: nat)
    requires n > 0
    ensures Split(t, slashed, n).perWorker == t.perWorker + slashed / 2 / n
    ensures Split(t, slashed, n).total == t.total + slashed
  {
    MulBpsIsFloor(slashed, SLASH_REDISTRIBUTE_BPS);
  }

  /** Slashing some workers leaves everyone else's bond alone. */
  lemma {:induction false} DistributeFrame(stakes: Bonds, losers: seq<Address>, k: nat, f: Slasher, n: int, w: Address)
    requires k <= |losers| && n > 0
    requires forall i :: 0 <= i < k ==> losers[i] != w
    ensures var after := Distribute(stakes, losers, k, f, n).stakes;
            (w in after <==> w in stakes) && (w in stakes ==> after[w] == stakes[w])
  {
    if k > 0 {
      DistributeFrame(stakes, losers, k - 1, f, n, w);
    }
  }

  /** What distinct losers lose and what each winner gets of it, loser by loser. */
  lemma {:induction false} SlashesSpelledOut(stakes: Bonds, losers: seq<Address>, k: nat, amount: nat, now: nat, n: nat)
    requires k <= |losers| && n > 0 && NoDup(losers) && AllSound(stakes)
    ensures var t := Distribute(stakes, losers, k, LoserSlash(amount, now), n).tally;
            && t.perWorker == HalfShares(stakes, losers, k, amount, n)
            && t.total == SlashTotal(stakes, losers, k, amount)
  {
    hide Slash, Slashable, Split;
    if k > 0 {
      var f, loser := LoserSlash(amount, now), losers[k - 1];
      SlashesSpelledOut(stakes, losers, k - 1, amount, now, n);
      DistributeFrame(stakes, losers, k - 1, f, n, loser);
      var before := Distribute(stakes, losers, k - 1, f, n);
      FeeSplit(amount, n);
      if loser in stakes {
        SlashIsShare(stakes[loser], amount, now);
        MatureSound(stakes[loser], now);
        OneSplit(before.tally, Min(Slashable(stakes[loser]) / 20, amount), n);
      } else {
        OneSplit(before.tally, 0, n);
      }
    }
  }

  /** A settlement credits each of `n` winners an equal share of four fifths of the amount and of half of every
      slash; the platform takes the rest of both. */
  lemma BillSpelledOut(stakes: Bonds, amount: nat, n: nat, losers: seq<Address>, now: nat)
    requires n > 0 && NoDup(losers) && AllSound(stakes)
    ensures var b := UncheckedBill(stakes, amount, n, losers, LoserSlash(amount, now));
            && b.workerCredit == (amount - amount / 5) / n + HalfShares(stakes, losers, |losers|, amount, n)
            && b.platformTake == amount + SlashTotal(stakes, losers, |losers|, amount) - b.workerCredit * n
  {
    FeeSplit(amount, n);
    SlashesSpelledOut(stakes, losers, |losers|, amount, now, n);
    BillConserves(stakes, amount, n, losers, LoserSlash(amount, now));
  }

  /** Conservation: the platform's take and the winners' credits are the amount and the slashes. */
  lemma BillConserves(stakes: Bonds, amount: nat, n: nat, losers: seq<Address>, f: Slasher)
    requires n > 0
    ensures var b := UncheckedBill(stakes, amount, n, losers, f);
            && b.platformTake + b.workerCredit * n == amount + b.slashes.tally.total
            && b.platformTake >= 0 && b.workerCredit >= 0 && b.slashes.tally.total >= 0
            && b.platformTake <= amount + b.slashes.tally.total
  {
    FeeSplit(amount, n);
    SlashesConserved(stakes, losers, |losers|, f, n);
    DistributeMonotone(stakes, losers, 0, |losers|, f, n);
    var b := UncheckedBill(stakes, amount, n, losers, f);
    MulDistributes(b.workerCredit, b.slashes.tally.perWorker, n);
    MulNonNegative(b.workerCredit, n);
  }

  /** Nothing overflows while the amount and the stakes it can touch are backed by an i128. */
  lemma BillFits(stakes: Bonds, amount: nat, n: nat, losers: seq<Address>, f: Slasher)
    requires n > 0 && AllSound(stakes) && SoundSlasher(f)
    requires amount + SumBy(stakes, Slashable) <= I128_MAX
    ensures MakeBill(stakes, amount, n, losers, f).Ok?
  {
    BillConserves(stakes, amount, n, losers, f);
    SlashTotalBounded(stakes, losers, f, n);
    var b := UncheckedBill(stakes, amount, n, losers, f);
    SlashesConserved(stakes, losers, |losers|, f, n);
    DistributeMonotone(stakes, losers, 0, |losers|, f, n);
    PartsFit(b.slashes.tally.platformTake, b.slashes.tally.perWorker, n, b.slashes.tally.total);
    PartsFit(b.platformTake, b.workerCredit, n, amount + b.slashes.tally.total);
  }

  lemma SlashTotalBounded(stakes: Bonds, losers: seq<Address>, f: Slasher, n: nat)
    requires n > 0 && AllSound(stakes) && SoundSlasher(f)
    ensures 0 <= Distribute(stakes, losers, |losers|, f, n).tally.total <= SumBy(stakes, Slashable)
  {
    var d := Distribute(stakes, losers, |losers|, f, n);
    DistributeSound(stakes, losers, |losers|, f, n);
    DistributeMonotone(stakes, losers, 0, |losers|, f, n);
    forall w | w in d.stakes ensures Slashable(d.stakes[w]) >= 0 {
      MatureSound(d.stakes[w], 0);
    }
    SumNonNegative(d.stakes, Slashable);
  }

  lemma PartsFit(take: nat, each: nat, n: nat, whole: int)
    requires n > 0 && take + each * n == whole <= I128_MAX
    ensures Fits(take) && Fits(each)
  {
    assert each <= each * n;
  }

  // ---- crediting the winners --------------------------------------------------------------

  function CreditOwed(owed: map<Address, int>, w: Address, amount: int): Result<map<Address, int>> {
    if !Fits(Get(owed, w) + amount) then Err(ArithmeticOverflow)
    else Ok(owed[w := Get(owed, w) + amount])
  }

  function CreditAll(owed: map<Address, int>, workers: seq<Address>, k: nat, amount: int): Result<map<Address, int>>
    requires k <= |workers|
  {
    if k == 0 then Ok(owed)
    else
      var before :- CreditAll(owed, workers, k - 1, amount);
      CreditOwed(before, workers[k - 1], amount)
  }

  lemma {:induction false} CreditAllSum(owed: map<Address, int>, workers: seq<Address>, k: nat, amount: nat)
    requires k <= |workers| && NonNegative(owed)
    requires CreditAll(owed, workers, k, amount).Ok?
    ensures var after := CreditAll(owed, workers, k, amount).value;
            && NonNegative(after) && SumBy(after, Identity) == SumBy(owed, Identity) + amount * k
            && (forall w :: w in after ==> w in owed || w in workers)
  {
    if k > 0 {
      CreditAllSum(owed, workers, k - 1, amount);
      var before := CreditAll(owed, workers, k - 1, amount).value;
      SumUpdate(before, workers[k - 1], Get(before, workers[k - 1]) + amount, Identity);
      assert amount * (k - 1) + amount == amount * k;
    }
  }

  lemma CreditsGrow(amount: nat, k: nat, n: nat)
    requires 0 < k <= n
    ensures amount * (k - 1) + amount <= amount * n
  {
  }

  lemma {:induction false} CreditAllFits(owed: map<Address, int>, workers: seq<Address>, k: nat, amount: nat)
    requires k <= |workers| && NonNegative(owed)
    requires SumBy(owed, Identity) + amount * |workers| <= I128_MAX
    ensures CreditAll(owed, workers, k, amount).Ok?
  {
    if k > 0 {
      CreditAllFits(owed, workers, k - 1, amount);
      CreditAllSum(owed, workers, k - 1, amount);
      var before := CreditAll(owed, workers, k - 1, amount).value;
      var w := workers[k - 1];
      if w in before {
        SumMember(before, w, Identity);
      } else {
        SumNonNegative(before, Identity);
      }
      CreditsGrow(amount, k, |workers|);
    }
  }

  /** Distinct winners are each credited once; everyone else keeps what they had. */
  lemma {:induction false} CreditAllPointwise(owed: map<Address, int>, workers: seq<Address>, k: nat, amount: int,
                                              a: Address)
    requires k <= |workers| && NoDup(workers)
    requires CreditAll(owed, workers, k, amount).Ok?
    ensures Get(CreditAll(owed, workers, k, amount).value, a)
            == Get(owed, a) + if a in workers[..k] then amount else 0
  {
    if k > 0 {
      CreditAllPointwise(owed, workers, k - 1, amount, a);
      assert workers[..k] == workers[..k - 1] + [workers[k - 1]];
      assert workers[k - 1] !in workers[..k - 1];
    }
  }

  // ---- worker lists ------------------------------------------------------------------------

  /** No address twice, in one list or across both. */
  predicate DistinctLists(workers: seq<Address>, losers: seq<Address>) {
    && NoDup(workers) && NoDup(losers)
    && forall i, j :: 0 <= i < |workers| && 0 <= j < |losers| ==> workers[i] != losers[j]
  }

  lemma DistinctListsConcat(workers: seq<Address>, losers: seq<Address>)
    ensures DistinctLists(workers, losers) <==> NoDup(workers + losers)
  {
    var all := workers + losers;
    assert forall i :: 0 <= i < |workers| ==> all[i] == workers[i];
    assert forall j :: 0 <= j < |losers| ==> all[|workers| + j] == losers[j];
    if NoDup(all) {
      forall i, j | 0 <= i < j < |losers| ensures losers[i] != losers[j] {
        assert all[|workers| + i] != all[|workers| + j];
      }
      forall i, j | 0 <= i < |workers| && 0 <= j < |losers| ensures workers[i] != losers[j] {
        assert all[i] != all[|workers| + j];
      }
    }
  }

  method ValidateWorkerLists(workers: seq<Address>, losers: seq<Address>) returns (r: Result<()>)
    ensures r == if DistinctLists(workers, losers) then Ok(()) else Err(InvalidWorkerLists)
  {
    for i := 0 to |workers|
      invariant forall a, b :: 0 <= a < i && a < b < |workers| ==> workers[a] != workers[b]
      invariant forall a, b :: 0 <= a < i && 0 <= b < |losers| ==> workers[a] != losers[b]
    {
      for j := i + 1 to |workers|
        invariant forall b :: i < b < j ==> workers[i] != workers[b]
      {
        if workers[j] == workers[i] {
          return Err(InvalidWorkerLists);
        }
      }
      for j := 0 to |losers|
        invariant forall b :: 0 <= b < j ==> workers[i] != losers[b]
      {
        if losers[j] == workers[i] {
          return Err(InvalidWorkerLists);
        }
      }
    }
    for i := 0 to |losers|
      invariant forall a, b :: 0 <= a < i && a < b < |losers| ==> losers[a] != losers[b]
    {
      for j := i + 1 to |losers|
        invariant forall b :: i < b < j ==> losers[i] != losers[b]
      {
        if losers[j] == losers[i] {
          return Err(InvalidWorkerLists);
        }
      }
    }
    return Ok(());
  }
}
