/** The read-only calls preview_resolve() and get_effective_stake() as callers see them. */
module DryRun {
  import opened Base
  import opened Settlement
  import opened Preview
  import opened PendingIndex
  import opened Ledger
  import opened Invariant
  import opened Solvency
  import opened TwoStep
  import opened Stakes
  import opened StakeTotals
  import opened Leaderboard
  import opened Calls
  import opened Runs
  import opened Challenges
  import opened EffectiveStake

  function PreviewCall(w: World, id: QuestionId, workers: seq<Address>, losers: seq<Address>): Result<ResolvePreview> {
    var _ :- CheckLists(w.esc.config, workers, losers, true);
    if id !in w.esc.questions then Err(QuestionNotFound)
    else if w.esc.questions[id].status != Pending then Err(QuestionNotPending)
    else PreviewResult(w.esc.stakes, w.esc.questions[id].amount, |workers|, losers, w.now)
  }

  /** What a caller can check beforehand: the amount survives a multiplication by 10,000 and each loser's whole
      bond one by 500. */
  predicate Multipliable(s: Store, id: QuestionId, losers: seq<Address>)
    requires id in s.questions
  {
    && s.questions[id].amount * BPS_DENOM <= I128_MAX
    && forall i :: 0 <= i < |losers| && losers[i] in s.stakes ==> Slashable(s.stakes[losers[i]]) * SLASH_BPS <= I128_MAX
  }

  /** Once the guards pass, the preview completes exactly when these products fit; otherwise it aborts. */
  lemma PreviewCompletesExactly(w: World, id: QuestionId, workers: seq<Address>, losers: seq<Address>)
    requires Inv(w) && HasStatus(w.esc.questions, id, Pending)
    requires CheckLists(w.esc.config, workers, losers, true).Ok?
    ensures PreviewCall(w, id, workers, losers).Ok? <==> Multipliable(w.esc, id, losers)
    ensures PreviewCall(w, id, workers, losers).Err? ==> PreviewCall(w, id, workers, losers) == Err(Trap)
  {
    hide SumBy, CheckLists, PreviewOf, Tables, Enumerates, ReadsFit, PreviewTotal;
    CheckListsMeans(w.esc.config, workers, losers, true);
    var amount, n := w.esc.questions[id].amount, |workers|;
    var total := PreviewTotal(w.esc.stakes, losers, |losers|, amount, w.now);
    QuestionBounded(w.esc, id);
    PreviewBacked(w, id, losers, n);
    PreviewConserves(w.esc.stakes, amount, n, losers, w.now);
    var p := PreviewOf(w.esc.stakes, amount, n, losers, w.now);
    PartsFit(p.platformTake, p.sharePerWorker, n, amount + p.totalSlashed);
    ReadsFitExactly(w.esc.stakes, losers, |losers|, amount, w.now);
  }

  /** The amount and the previewed slashes are backed together, and the preview's cap is the amount. */
  lemma PreviewBacked(w: World, id: QuestionId, losers: seq<Address>, n: nat)
    requires Inv(w) && HasStatus(w.esc.questions, id, Pending) && n > 0 && NoDup(losers)
    ensures var amount := w.esc.questions[id].amount;
            var total := PreviewTotal(w.esc.stakes, losers, |losers|, amount, w.now);
            && amount * SLASH_CAP_BPS_OF_AMOUNT / BPS_DENOM == amount
            && total >= 0 && amount + total <= I128_MAX
            && PreviewOf(w.esc.stakes, amount, n, losers, w.now).totalSlashed == total
  {
    hide SumBy, Tables, Enumerates, Distribute, SlasherAt, SlashedCount, WorkerPortion;
    var amount := w.esc.questions[id].amount;
    QuestionBounded(w.esc, id);
    FeeSplit(amount, n);
    MulBpsIsFloor(amount, SLASH_CAP_BPS_OF_AMOUNT);
    var f := SlasherAt(amount, w.now);
    SlasherAtSound(amount, w.now);
    forall a | a in losers
      ensures PreviewSlash(w.esc.stakes, a, amount, w.now) == SlashWorker(w.esc.stakes, a, f).1 >= 0
    {
      PreviewSlashIsSlash(w.esc.stakes, a, amount, w.now);
    }
    TotalsAgree(w.esc.stakes, losers, |losers|, amount, w.now, f, n);
    SlashTotalBounded(w.esc.stakes, losers, f, n);
    ClaimParts(w.esc);
    SumMember(w.esc.questions, id, LiveAmount);
    HeldBounded(w.tok, w.esc.me);
  }

  /** A preview refused by a guard is the refusal resolve() would give. One that completes names, with the
      losers' remainders, each winner's credit and the platform's take to the stroop; the only thing it cannot
      foresee is a full u32 counter. And where resolve() succeeds, it completes exactly when its products fit. */
  lemma PreviewForetellsResolve(w: World, id: QuestionId, workers: seq<Address>, losers: seq<Address>)
    requires Inv(w)
    ensures var p, r := PreviewCall(w, id, workers, losers), Resolve(w, id, workers, losers);
            && (p.Err? && p.error != Trap ==> r == Err(p.error))
            && (r.Ok? ==> id in w.esc.questions && (p.Ok? <==> Multipliable(w.esc, id, losers)))
            && (p.Ok? && r.Err? ==> RecordAllFails(w, workers))
            && (p.Ok? && r.Ok? ==>
                var n, amount := |workers|, w.esc.questions[id].amount;
                var d := Remainders(w.esc.stakes, losers, |losers|, SlashCap(amount), w.now, n) / (2 * n);
                && (forall a :: Get(r.value.esc.owed, a)
                                == Get(w.esc.owed, a) + if a in workers then p.value.sharePerWorker - d else 0)
                && RouteTake(w.tok, w.esc.me, w.esc.config, p.value.platformTake + d * n) == Ok(r.value.tok))
  {
    hide SumBy, Resolve, CheckLists, PreviewOf, UncheckedBill, Remainders, SettleTogether, RouteTake, Books, Tables,
         Enumerates, SlashedCount, SlashCap, ReadsFit, Multipliable;
    if CheckLists(w.esc.config, workers, losers, true).Ok? && HasStatus(w.esc.questions, id, Pending) {
      CheckListsMeans(w.esc.config, workers, losers, true);
      QuestionBounded(w.esc, id);
      var amount := w.esc.questions[id].amount;
      PreviewCompletesExactly(w, id, workers, losers);
      ResolveIsSettle(w, id, workers, losers);
      PreviewAgainstSettlement(w.esc.stakes, amount, |workers|, losers, w.now);
      if Resolve(w, id, workers, losers).Ok? {
        SettlementPays(w, id, w.esc.questions[id], workers, losers, 0, LoserSlash(amount, w.now));
      } else {
        ResolveFailsOnCounters(w, id, workers, losers);
      }
    } else {
      ResolveGuards(w, id, workers, losers);
    }
  }

  ghost predicate RecordAllFails(w: World, workers: seq<Address>) {
    RecordAll(w.esc.board, workers, |workers|).Err?
  }

  lemma ResolveGuards(w: World, id: QuestionId, workers: seq<Address>, losers: seq<Address>)
    requires CheckLists(w.esc.config, workers, losers, true).Err? || !HasStatus(w.esc.questions, id, Pending)
    ensures PreviewCall(w, id, workers, losers).Err?
    ensures Resolve(w, id, workers, losers) == Err(PreviewCall(w, id, workers, losers).error)
  {
    hide CheckLists;
  }

  lemma ResolveFailsOnCounters(w: World, id: QuestionId, workers: seq<Address>, losers: seq<Address>)
    requires Inv(w) && HasStatus(w.esc.questions, id, Pending)
    requires CheckLists(w.esc.config, workers, losers, true).Ok? && Resolve(w, id, workers, losers).Err?
    ensures RecordAllFails(w, workers)
  {
    hide SumBy, Resolve, SettleTogether, SlasherAt;
    var q := w.esc.questions[id];
    CheckListsMeans(w.esc.config, workers, losers, true);
    ResolveIsSettle(w, id, workers, losers);
    SlasherAtSound(SlashCap(q.amount), w.now);
    TablesUntouched(w.esc.questions, w.esc.resolutions, w.esc.escalated, w.esc.bonds, id, q.(status := Resolved));
    SettleTogetherSafe(w, id, q, workers, losers, 0, LoserSlash(q.amount, w.now));
  }

  // ---- an input on which the preview aborts and resolve() does not -------------------------------

  const TEN36: int := 1_000_000_000_000_000_000_000_000_000_000_000_000

  /** A question of any amount that does not survive the multiplication, opened in a deployed contract: resolve()
      with one winner succeeds, and its preview aborts. */
  lemma PreviewAbortsFromDeployment(w: World, payer: Address, id: QuestionId, amount: int, winner: Address)
    requires CanOpen(w, payer, amount) && SoundToken(w.tok) && amount * BPS_DENOM > I128_MAX
    ensures var v := After(w, DoSubmit(payer, id, amount));
            Resolve(v, id, [winner], []).Ok? && PreviewCall(v, id, [winner], []) == Err(Trap)
  {
    hide SumBy, Resolve, PreviewCall, Inv, CheckLists;
    var v := After(w, DoSubmit(payer, id, amount));
    SubmitOpens(w, payer, id, amount);
    DeployedSafe(w);
    StepInv(w, DoSubmit(payer, id, amount));
    BoardStillEmpty(w, payer, id, amount);
    RecordAllFits(v.esc.board, [winner], 1);
    OneWinnerAccepted(v.esc.config, winner);
    PreviewCompletesExactly(v, id, [winner], []);
    if Resolve(v, id, [winner], []).Err? {
      ResolveFailsOnCounters(v, id, [winner], []);
    }
  }

  lemma BoardStillEmpty(w: World, payer: Address, id: QuestionId, amount: int)
    requires CanOpen(w, payer, amount)
    ensures After(w, DoSubmit(payer, id, amount)).esc.board == EMPTY_BOARD
  {
    hide Transfer, Add;
  }

  lemma OneWinnerAccepted(c: Config, winner: Address)
    requires WithinBounds(c, 1)
    ensures CheckLists(c, [winner], [], true).Ok?
  {
  }

  /** In particular at 10^36 stroops. */
  lemma PreviewAbortsAtTen36(w: World, payer: Address, id: QuestionId, winner: Address)
    requires CanOpen(w, payer, TEN36) && SoundToken(w.tok)
    ensures var v := After(w, DoSubmit(payer, id, TEN36));
            Resolve(v, id, [winner], []).Ok? && PreviewCall(v, id, [winner], []) == Err(Trap)
  {
    PreviewAbortsFromDeployment(w, payer, id, TEN36, winner);
  }

  // ---- the effective stake -------------------------------------------------------------------

  function EffectiveStakeOf(w: World, worker: Address): Result<int> {
    EffectiveResult(StakeOf(w.esc, worker), w.now)
  }

  /** In every solvent state, a worker's effective stake can be read if and only if, for each tranche still
      warming, its amount times its clamped age fits an i128; what is read lies between matured and active. */
  lemma EffectiveReadExactly(w: World, worker: Address)
    requires Inv(w)
    ensures var info, r := StakeOf(w.esc, worker), EffectiveStakeOf(w, worker);
            && (r.Ok? <==> forall i :: 0 <= i < |info.tranches| && !Ripe(info.tranches[i], w.now) ==>
                             Product(info.tranches[i], w.now) <= I128_MAX)
            && (r.Err? ==> r.error == Trap)
            && (r.Ok? ==>
                && Mature(info, w.now).settled <= r.value <= Active(info)
                && Sound(info) && r.value == info.settled + RampSum(info.tranches, |info.tranches|, w.now))
  {
    hide SumBy, Tables, Enumerates, StakeOf, Product;
    StakeBounded(w.esc, worker);
    HeldBounded(w.tok, w.esc.me);
    var info := StakeOf(w.esc, worker);
    EffectiveCompletesExactly(info, w.now);
    EffectiveBetween(info, w.now);
    EffectiveIsRampSum(info, w.now);
  }

  /** A worker whose bond is one tranche in its first day of 17,280 ledgers reads as settled stake plus the amount
      times its age over the day. */
  lemma OneTrancheReads(w: World, worker: Address, t: Tranche)
    requires Inv(w) && StakeOf(w.esc, worker).tranches == [t] && t.since <= w.now < U32_MAX && w.now - t.since < 17_280
    ensures var r := EffectiveStakeOf(w, worker);
            r.Ok? ==>
              var x := r.value - StakeOf(w.esc, worker).settled;
              x * 17_280 <= t.amount * (w.now - t.since) < (x + 1) * 17_280
  {
    hide SumBy, Tables, Enumerates, StakeOf, Product, Effective;
    StakeBounded(w.esc, worker);
    OneTrancheRamps(StakeOf(w.esc, worker), t, w.now);
    HeldBounded(w.tok, w.esc.me);
    EffectiveCompletesExactly(StakeOf(w.esc, worker), w.now);
  }

  /** A stake of more than half of an i128, posted in a deployed contract, cannot be read two ledgers later. */
  lemma EffectiveAbortsFromDeployment(w: World, worker: Address, amount: int)
    requires Deployed(w) && !w.esc.config.paused && w.Signs(worker) && SoundToken(w.tok)
    requires 0 < amount <= Get(w.tok, worker) && 2 * amount > I128_MAX && w.now + 2 < U32_MAX
    ensures var v := Run(w, [DoStake(worker, amount), Wait(2)], 2);
            Active(StakeOf(v.esc, worker)) == amount && EffectiveStakeOf(v, worker) == Err(Trap)
  {
    hide SumBy, EffectiveResult, PostStake, Deployed;
    var calls := [DoStake(worker, amount), Wait(2)];
    assert Run(w, calls, 0) == w;
    HeldBounded(w.tok, worker);
    StakePosted(w, worker, amount);
    var u := PostStake(w, worker, amount).value;
    assert Run(w, calls, 1) == u;
    assert Run(w, calls, 2) == u.(now := w.now + 2);
    FreshBondAborts(u.esc.stakes[worker], amount, w.now);
  }

  /** Two ledgers into its warmup, more than half of an i128 no longer multiplies. */
  lemma FreshBondAborts(info: StakeInfo, amount: int, since: nat)
    requires info == NO_STAKE.(warming := amount, tranches := [Tranche(amount, since)])
    requires 0 < amount <= I128_MAX && 2 * amount > I128_MAX && since + 2 < U32_MAX
    ensures Active(info) == amount && EffectiveResult(info, since + 2) == Err(Trap)
  {
    hide EffectiveResult;
    FreshBondSound(info, amount, since);
    EffectiveCompletesExactly(info, since + 2);
    OnlyTraps(info, since + 2);
    assert !Ripe(info.tranches[0], since + 2);
    assert Product(info.tranches[0], since + 2) == amount * 2;
  }

  lemma OnlyTraps(info: StakeInfo, now: nat)
    ensures EffectiveResult(info, now).Err? ==> EffectiveResult(info, now) == Err(Trap)
  {
  }

  lemma StakePosted(w: World, worker: Address, amount: int)
    requires Deployed(w) && !w.esc.config.paused && w.Signs(worker)
    requires 0 < amount <= Get(w.tok, worker) && amount <= I128_MAX
    ensures var r := PostStake(w, worker, amount);
            && r.Ok? && r.value.now == w.now && worker in r.value.esc.stakes
            && r.value.esc.stakes[worker] == NO_STAKE.(warming := amount, tranches := [Tranche(amount, w.now)])
  {
    assert Mature(NO_STAKE, w.now) == NO_STAKE;
    assert [] + [Tranche(amount, w.now)] == [Tranche(amount, w.now)];
  }

  lemma FreshBondSound(info: StakeInfo, amount: int, now: nat)
    requires amount > 0 && info == NO_STAKE.(warming := amount, tranches := [Tranche(amount, now)])
    ensures Sound(info) && Active(info) == amount
  {
    assert Sum(info.tranches, 1) == Sum(info.tranches, 0) + amount;
  }
}
