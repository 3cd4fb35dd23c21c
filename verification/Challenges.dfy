/** Challenges that have no way out: flagged resolutions, and the bonds posted against them. */
module Challenges {
  import opened Base
  import opened Settlement
  import opened PendingIndex
  import opened Leaderboard
  import opened Ledger
  import opened Calls
  import opened Invariant
  import opened Solvency
  import opened Lifecycle
  import opened Frames
  import opened Runs
  import opened TwoStep

  /** A flagged resolution has no exit, and neither has one whose window reaches the last ledger. */
  predicate Stuck(res: Resolution) {
    res.disputed || res.deadline >= U32_MAX
  }

  ghost predicate StuckAt(w: World, id: QuestionId) {
    id in w.esc.resolutions && Stuck(w.esc.resolutions[id])
  }

  lemma TablesFramed(w: World, call: Call, v: World)
    requires Framed(w, call, v)
    ensures Starts(w, call) && v.esc.resolutions == ResolutionsAfter(w, call)
  {
    hide Starts, Writes, Legal, Winners, StakesAfter, RecordAll;
  }

  /** No call by anyone, the admin included, releases a stuck resolution. */
  lemma StuckStep(w: World, call: Call, id: QuestionId)
    requires Inv(w) && StuckAt(w, id)
    ensures Inv(After(w, call)) && StuckAt(After(w, call), id)
    ensures Lookup(After(w, call), id) == Lookup(w, id)
  {
    hide Step, SumBy, Books, Enumerates, Claims, Framed;
    if Step(w, call).Ok? {
      StepSafe(w, call);
      StepFramed(w, call);
      TablesFramed(w, call, Step(w, call).value);
      StepEvolves(w, call, id);
    }
  }

  /** The money of a question whose resolution is stuck stays in the escrow in every run. */
  lemma {:induction false} StuckForever(w: World, calls: seq<Call>, k: nat, id: QuestionId)
    requires k <= |calls| && Inv(w) && StuckAt(w, id)
    ensures Inv(Run(w, calls, k)) && StuckAt(Run(w, calls, k), id)
    ensures id in w.esc.questions && Run(w, calls, k).Held() >= w.esc.questions[id].amount > 0
    ensures Lookup(Run(w, calls, k), id) == Lookup(w, id)
  {
    hide After, SumBy, Books, Enumerates, Claims;
    if k > 0 {
      StuckForever(w, calls, k - 1, id);
      StuckStep(Run(w, calls, k - 1), calls[k - 1], id);
    }
    EveryClaimBacked(Run(w, calls, k), 0, id);
  }

  // ---- how the contract gets there --------------------------------------------------------

  /** Flagging is all it takes. */
  lemma DisputeSticks(w: World, id: QuestionId)
    requires id in w.esc.resolutions
    ensures StuckAt(After(w, DoDispute(id)), id)
  {
  }

  /** A window sticks exactly when it reaches the last ledger. */
  lemma WindowSticks(w: World, id: QuestionId, workers: seq<Address>, losers: seq<Address>, window: nat)
    requires ResolveChallengeable(w, id, workers, losers, window).Ok?
    ensures StuckAt(After(w, DoResolveChallengeable(id, workers, losers, window)), id) <==> w.now + window >= U32_MAX
  {
    hide CheckLists;
  }

  /** A deployed contract in which `payer` can open a question of `amount` and one winner is a quorum. */
  predicate CanOpen(w: World, payer: Address, amount: int) {
    && Deployed(w) && !w.esc.config.paused && w.Signs(payer) && 0 < amount <= Get(w.tok, payer)
    && WithinBounds(w.esc.config, 1)
  }

  /** From deployment: a question is opened, resolved with any window, and flagged; it is stuck. */
  lemma FlaggedFromDeployment(w: World, payer: Address, id: QuestionId, amount: int, winner: Address, window: nat)
    requires CanOpen(w, payer, amount)
    ensures var calls := [DoSubmit(payer, id, amount), DoResolveChallengeable(id, [winner], [], window), DoDispute(id)];
            StuckAt(Run(w, calls, 3), id)
  {
    var calls := [DoSubmit(payer, id, amount), DoResolveChallengeable(id, [winner], [], window), DoDispute(id)];
    ResolvedFromDeployment(w, payer, id, amount, winner, window, calls);
    DisputeSticks(Run(w, calls, 2), id);
  }

  /** From deployment, with no flag at all: a window that reaches the last ledger is enough. */
  lemma SaturatedFromDeployment(w: World, payer: Address, id: QuestionId, amount: int, winner: Address, window: nat)
    requires CanOpen(w, payer, amount) && w.now + window >= U32_MAX
    ensures var calls := [DoSubmit(payer, id, amount), DoResolveChallengeable(id, [winner], [], window)];
            StuckAt(Run(w, calls, 2), id)
  {
    var calls := [DoSubmit(payer, id, amount), DoResolveChallengeable(id, [winner], [], window)];
    ResolvedFromDeployment(w, payer, id, amount, winner, window, calls);
  }

  lemma ResolvedFromDeployment(w: World, payer: Address, id: QuestionId, amount: int, winner: Address, window: nat,
                               calls: seq<Call>)
    requires CanOpen(w, payer, amount) && |calls| >= 2
    requires calls[0] == DoSubmit(payer, id, amount) && calls[1] == DoResolveChallengeable(id, [winner], [], window)
    ensures id in Run(w, calls, 2).esc.resolutions
    ensures Run(w, calls, 2).esc.resolutions[id] == Resolution([winner], [], SatAdd(w.now, window), false)
  {
    assert Run(w, calls, 0) == w;
    SubmitOpens(w, payer, id, amount);
    assert Run(w, calls, 1) == Submit(w, payer, id, amount).value;
    MarkOne(Run(w, calls, 1), id, winner, window);
    hide Submit, ResolveChallengeable;
    assert Run(w, calls, 2) == ResolveChallengeable(Run(w, calls, 1), id, [winner], [], window).value;
  }

  lemma SubmitOpens(w: World, payer: Address, id: QuestionId, amount: int)
    requires CanOpen(w, payer, amount)
    ensures var r := Submit(w, payer, id, amount);
            r.Ok? && HasStatus(r.value.esc.questions, id, Pending) && r.value.now == w.now
            && r.value.esc.config == w.esc.config
  {
  }

  lemma MarkOne(w: World, id: QuestionId, winner: Address, window: nat)
    requires HasStatus(w.esc.questions, id, Pending) && WithinBounds(w.esc.config, 1)
    ensures var r := ResolveChallengeable(w, id, [winner], [], window);
            r.Ok? && id in r.value.esc.resolutions
            && r.value.esc.resolutions[id] == Resolution([winner], [], SatAdd(w.now, window), false)
  {
  }

  // ---- bonds ----------------------------------------------------------------------------------

  predicate Finalizes(w: World, call: Call, id: QuestionId) {
    call == DoFinalize(id) && Step(w, call).Ok?
  }

  /** A bond enters the table only at a fresh id of an open resolution, and no call but the finalization of
      its own question changes it or takes it out. */
  lemma BondFrame(w: World, call: Call, id: QuestionId)
    ensures id in w.esc.bonds && !Finalizes(w, call, id) ==>
              id in After(w, call).esc.bonds && After(w, call).esc.bonds[id] == w.esc.bonds[id]
    ensures id !in w.esc.bonds && id in After(w, call).esc.bonds ==>
              call.DoPostBond? && call.id == id && After(w, call).esc.bonds[id] == Bond(call.challenger, call.amount)
    ensures Finalizes(w, call, id) ==> id !in After(w, call).esc.bonds
  {
    hide Step, RecordAll;
    if Step(w, call).Ok? {
      StepFramed(w, call);
    }
  }

  /** In every run a posted bond stays as it is until its question is finalized. */
  lemma {:induction false} BondStays(w: World, calls: seq<Call>, k: nat, id: QuestionId)
    requires k <= |calls| && id in w.esc.bonds
    requires forall i :: 0 <= i < k ==> !Finalizes(Run(w, calls, i), calls[i], id)
    ensures id in Run(w, calls, k).esc.bonds && Run(w, calls, k).esc.bonds[id] == w.esc.bonds[id]
  {
    hide Step;
    if k > 0 {
      BondStays(w, calls, k - 1, id);
      BondFrame(Run(w, calls, k - 1), calls[k - 1], id);
    }
  }

  /** A question and its bond are both backed, together. */
  lemma BondAndQuestionHeld(w: World, id: QuestionId)
    requires Inv(w) && id in w.esc.bonds
    ensures id in w.esc.questions && w.Held() >= w.esc.questions[id].amount + w.esc.bonds[id].amount
  {
    hide SumBy, Enumerates;
    assert HasStatus(w.esc.questions, id, ResolvedPending);
    ClaimParts(w.esc);
    SumMember(w.esc.questions, id, LiveAmount);
    SumMember(w.esc.bonds, id, BondValue);
  }

  /** So the bond on a stuck resolution is never returned, forfeited or otherwise moved: in every run it and
      the question's money stay in the escrow. */
  lemma {:induction false} StuckBondForever(w: World, calls: seq<Call>, k: nat, id: QuestionId)
    requires k <= |calls| && Inv(w) && StuckAt(w, id) && id in w.esc.bonds
    ensures Inv(Run(w, calls, k)) && id in Run(w, calls, k).esc.bonds
    ensures Run(w, calls, k).esc.bonds[id] == w.esc.bonds[id]
    ensures id in w.esc.questions && Run(w, calls, k).Held() >= w.esc.questions[id].amount + w.esc.bonds[id].amount
  {
    hide Step, Inv;
    StuckForever(w, calls, k, id);
    forall i | 0 <= i < k ensures !Finalizes(Run(w, calls, i), calls[i], id) {
      StuckForever(w, calls, i, id);
      if Finalizes(Run(w, calls, i), calls[i], id) {
        StepFramed(Run(w, calls, i), calls[i]);
        NotPastLast(Run(w, calls, i), id);
      }
    }
    BondStays(w, calls, k, id);
    BondAndQuestionHeld(Run(w, calls, k), id);
  }

  lemma NotPastLast(w: World, id: QuestionId)
    requires Inv(w) && StuckAt(w, id)
    ensures !Finalizable(w, id)
  {
    hide SoundStore, SumBy;
  }

  /** A bond is posted against a resolution and the admin agrees with the challenger by flagging it. Whatever
      anyone does from then on, the challenger's bond is still in the table. */
  lemma FlaggedBondNeverReturns(w: World, challenger: Address, id: QuestionId, amount: int, calls: seq<Call>, k: nat)
    requires Inv(w) && PostChallengeBond(w, challenger, id, amount).Ok? && k <= |calls|
    ensures var v := After(After(w, DoPostBond(challenger, id, amount)), DoDispute(id));
            && StuckAt(v, id)
            && id in Run(v, calls, k).esc.bonds && Run(v, calls, k).esc.bonds[id] == Bond(challenger, amount)
            && Run(v, calls, k).Held() >= amount
  {
    hide Step, Inv, SumBy;
    var u := After(w, DoPostBond(challenger, id, amount));
    PostedBond(w, challenger, id, amount);
    StepSafe(w, DoPostBond(challenger, id, amount));
    StepInv(w, DoPostBond(challenger, id, amount));
    DisputeSticks(u, id);
    BondFrame(u, DoDispute(id), id);
    StepInv(u, DoDispute(id));
    var v := After(u, DoDispute(id));
    StuckBondForever(v, calls, k, id);
    EveryClaimBacked(Run(v, calls, k), 0, id);
  }

  lemma StepInv(w: World, call: Call)
    requires Inv(w)
    ensures Inv(After(w, call))
  {
    hide Step, Inv;
    StepSafe(w, call);
  }

  lemma PostedBond(w: World, challenger: Address, id: QuestionId, amount: int)
    requires PostChallengeBond(w, challenger, id, amount).Ok?
    ensures var u := After(w, DoPostBond(challenger, id, amount));
            id in u.esc.bonds && u.esc.bonds[id] == Bond(challenger, amount) && id in u.esc.resolutions
  {
    hide Transfer;
  }

  // ---- when a bond does leave --------------------------------------------------------------------

  /** Recording distinct workers succeeds only if every counter has room. */
  lemma {:induction false} RecordAllNeeds(board: Board, workers: seq<Address>, k: nat)
    requires k <= |workers| && NoDup(workers) && RecordAll(board, workers, k).Ok?
    ensures forall i :: 0 <= i < k ==> CountOf(board, workers[i]) < U32_MAX
  {
    if k > 0 {
      RecordAllNeeds(board, workers, k - 1);
      RecordOnce(board, workers, k - 1);
    }
  }

  /** Finalization succeeds exactly for an unflagged resolution past its window whose winners' counters have
      room. */
  lemma FinalizesExactlyWhen(w: World, id: QuestionId)
    requires Inv(w)
    ensures FinalizeResolve(w, id).Ok? <==>
              Finalizable(w, id) && CountsFit(w.esc.board, w.esc.resolutions[id].workers)
  {
    hide SumBy, Enumerates, Books, FinalizeResolve, RecordAll;
    FinalizeSafe(w, id);
    if Finalizable(w, id) {
      var ws := w.esc.resolutions[id].workers;
      if FinalizeResolve(w, id).Ok? {
        FinalizeRecords(w, id);
        RecordAllNeeds(w.esc.board, ws, |ws|);
      } else if CountsFit(w.esc.board, ws) {
        RecordAllFits(w.esc.board, ws, |ws|);
      }
    }
  }

  lemma FinalizeRecords(w: World, id: QuestionId)
    requires FinalizeResolve(w, id).Ok?
    ensures id in w.esc.resolutions
    ensures var ws := w.esc.resolutions[id].workers; RecordAll(w.esc.board, ws, |ws|).Ok?
  {
    hide SettleTogether, RecordAll;
    StepFramed(w, DoFinalize(id));
  }

  /** A finalized bond is forfeited: the payout addresses receive it on top of the settlement's take, and the
      challenger, unless one of them, receives nothing. */
  lemma BondIsForfeited(w: World, id: QuestionId)
    requires Inv(w) && OutsidePayouts(w.esc.me, w.esc.config)
    requires id in w.esc.bonds && FinalizeResolve(w, id).Ok?
    ensures id in w.esc.questions && id in w.esc.resolutions && w.esc.resolutions[id].workers != []
    ensures var v, bond := FinalizeResolve(w, id).value, w.esc.bonds[id];
            var q, res := w.esc.questions[id], w.esc.resolutions[id];
            var bill := UncheckedBill(w.esc.stakes, q.amount, |res.workers|, res.losers, LoserSlash(q.amount, w.now));
            && id !in v.esc.bonds
            && RouteTake(w.tok, w.esc.me, w.esc.config, bill.platformTake + bond.amount) == Ok(v.tok)
            && v.Held() == w.Held() - bill.platformTake - bond.amount
            && (Bystander(w.esc.me, w.esc.config, bond.challenger) ==>
                Get(v.tok, bond.challenger) == Get(w.tok, bond.challenger))
  {
    hide SumBy, Books, Enumerates, SettleTogether, RouteTake, UncheckedBill, SlasherAt, RecordAll, Bystander;
    FinalizesExactlyWhen(w, id);
    assert HasStatus(w.esc.questions, id, ResolvedPending);
    var q, res, bond := w.esc.questions[id], w.esc.resolutions[id], w.esc.bonds[id];
    var ready := w.(esc := w.esc.(resolutions := w.esc.resolutions - {id}, bonds := w.esc.bonds - {id}));
    QuestionBounded(w.esc, id);
    SettlementPays(ready, id, q, res.workers, res.losers, bond.amount, LoserSlash(q.amount, w.now));
    var v := FinalizeResolve(w, id).value;
    assert v == SettleTogether(ready, id, q, res.workers, res.losers, bond.amount, LoserSlash(q.amount, w.now)).value;
    BondFrame(w, DoFinalize(id), id);
    assert v.esc.me == w.esc.me by { FinalizeSafe(w, id); }
    var bill := UncheckedBill(w.esc.stakes, q.amount, |res.workers|, res.losers, LoserSlash(q.amount, w.now));
    BillConserves(w.esc.stakes, q.amount, |res.workers|, res.losers, LoserSlash(q.amount, w.now));
    RoutePaysFromHere(w.tok, w.esc.me, w.esc.config, bill.platformTake + bond.amount);
    if Bystander(w.esc.me, w.esc.config, bond.challenger) {
      RouteBystander(w.tok, w.esc.me, w.esc.config, bill.platformTake + bond.amount, bond.challenger);
    }
  }

  /** A payout that succeeds takes exactly the take out of the escrow. */
  lemma RoutePaysFromHere(tok: Balances, me: Address, c: Config, take: int)
    requires OutsidePayouts(me, c) && SaneConfig(c) && take >= 0 && RouteTake(tok, me, c, take).Ok?
    ensures Get(RouteTake(tok, me, c, take).value, me) == Get(tok, me) - take
  {
    if c.goods.Some? {
      MulBpsRange(take, c.goods.value.bps);
    }
    hide MulBps;
  }

  /** The world in which nobody had posted the bond. */
  function Unbonded(w: World, id: QuestionId): World {
    w.(esc := w.esc.(bonds := w.esc.bonds - {id}))
  }

  lemma UnbondedSafe(w: World, id: QuestionId)
    requires Inv(w)
    ensures Inv(Unbonded(w, id))
  {
    hide SumBy, Enumerates;
    DropBond(w.esc.bonds, id);
    if id in w.esc.bonds {
      QuestionBounded(w.esc, id);
    }
  }

  /** A bond changes nothing in a finalized settlement except that it joins the platform's take: the
      stored state is the same, no bystander's balance differs, and the escrow pays out the bond more. */
  lemma BondGoesToPlatform(w: World, id: QuestionId)
    requires Inv(w) && OutsidePayouts(w.esc.me, w.esc.config)
    requires id in w.esc.bonds && FinalizeResolve(w, id).Ok?
    ensures var v, u := FinalizeResolve(w, id), FinalizeResolve(Unbonded(w, id), id);
            && u.Ok? && v.value.esc == u.value.esc
            && v.value.Held() == u.value.Held() - w.esc.bonds[id].amount
            && forall a :: Bystander(w.esc.me, w.esc.config, a) ==> Get(v.value.tok, a) == Get(u.value.tok, a)
  {
    hide SumBy, Books, Tables, Enumerates, SettleTogether, RouteTake, UncheckedBill, SlasherAt, Bystander;
    UnbondedSafe(w, id);
    FinalizesExactlyWhen(w, id);
    FinalizesExactlyWhen(Unbonded(w, id), id);
    QuestionBounded(w.esc, id);
    var q, res, bond := w.esc.questions[id], w.esc.resolutions[id], w.esc.bonds[id].amount;
    var f := LoserSlash(q.amount, w.now);
    var ready := w.(esc := w.esc.(resolutions := w.esc.resolutions - {id}, bonds := w.esc.bonds - {id}));
    assert w.esc.bonds - {id} - {id} == w.esc.bonds - {id};
    ForfeitOnlyMovesTokens(ready, id, q, res.workers, res.losers, bond, f);
    SettlementStores(ready, id, q, res.workers, res.losers, bond, f);
    SettlementStores(ready, id, q, res.workers, res.losers, 0, f);
    BillConserves(w.esc.stakes, q.amount, |res.workers|, res.losers, f);
    var take := UncheckedBill(w.esc.stakes, q.amount, |res.workers|, res.losers, f).platformTake;
    SameForOthers(w.tok, w.esc.me, w.esc.config, take, bond);
  }

  /** Paying out more only concerns the payer and the paid. */
  lemma SameForOthers(tok: Balances, me: Address, c: Config, take: nat, more: nat)
    requires OutsidePayouts(me, c) && SaneConfig(c)
    requires RouteTake(tok, me, c, take + more).Ok? && RouteTake(tok, me, c, take + 0).Ok?
    ensures var v, u := RouteTake(tok, me, c, take + more).value, RouteTake(tok, me, c, take + 0).value;
            && Get(v, me) == Get(u, me) - more
            && forall a :: Bystander(me, c, a) ==> Get(v, a) == Get(u, a)
  {
    hide RouteTake, Bystander;
    RoutePaysFromHere(tok, me, c, take + more);
    RoutePaysFromHere(tok, me, c, take + 0);
    forall a | Bystander(me, c, a)
      ensures Get(RouteTake(tok, me, c, take + more).value, a) == Get(RouteTake(tok, me, c, take + 0).value, a)
    {
      RouteBystander(tok, me, c, take + more, a);
      RouteBystander(tok, me, c, take + 0, a);
    }
  }

  /** Counters only grow. */
  lemma {:induction false} RecordAllGrows(board: Board, workers: seq<Address>, k: nat, a: Address)
    requires k <= |workers| && RecordAll(board, workers, k).Ok?
    ensures CountOf(RecordAll(board, workers, k).value, a) >= CountOf(board, a)
  {
    if k > 0 {
      RecordAllGrows(board, workers, k - 1, a);
      RecordCounts(RecordAll(board, workers, k - 1).value, workers[k - 1]);
    }
  }

  /** A recorded resolution whose winners' counters lack room. */
  ghost predicate FullAt(w: World, id: QuestionId) {
    id in w.esc.resolutions && !CountsFit(w.esc.board, w.esc.resolutions[id].workers)
  }

  /** Counters only grow, and an open resolution keeps its winners until it is finalized. */
  lemma WinnersStay(w: World, call: Call, v: World, id: QuestionId, a: Address)
    requires Framed(w, call, v) && id in w.esc.resolutions && !HasStatus(w.esc.questions, id, Pending)
    requires call != DoFinalize(id)
    ensures id in v.esc.resolutions && v.esc.resolutions[id].workers == w.esc.resolutions[id].workers
    ensures CountOf(v.esc.board, a) >= CountOf(w.esc.board, a)
  {
    hide RecordAll, Winners, Writes, Legal, Finalizable, CountOf;
    RecordAllGrows(w.esc.board, Winners(w, call), |Winners(w, call)|, a);
  }

  lemma FullStep(w: World, call: Call, id: QuestionId)
    requires Inv(w) && FullAt(w, id)
    ensures Inv(After(w, call)) && FullAt(After(w, call), id) && !Finalizes(w, call, id)
  {
    hide Step, Inv, FinalizeResolve, Finalizable, Framed, CountOf;
    StepInv(w, call);
    FinalizesExactlyWhen(w, id);
    FinalizeIsStep(w, id);
    NotBoth(w, id);
    if Step(w, call).Ok? {
      StepFramed(w, call);
      var ws := w.esc.resolutions[id].workers;
      var i :| 0 <= i < |ws| && CountOf(w.esc.board, ws[i]) >= U32_MAX;
      WinnersStay(w, call, Step(w, call).value, id, ws[i]);
    }
  }

  lemma FinalizeIsStep(w: World, id: QuestionId)
    ensures Step(w, DoFinalize(id)) == FinalizeResolve(w, id)
  {
  }

  lemma NotBoth(w: World, id: QuestionId)
    requires Inv(w) && id in w.esc.resolutions
    ensures !HasStatus(w.esc.questions, id, Pending)
  {
    hide SumBy, Enumerates, Books;
    assert HasStatus(w.esc.questions, id, ResolvedPending);
  }

  lemma {:induction false} FullForever(w: World, calls: seq<Call>, k: nat, id: QuestionId)
    requires k <= |calls| && Inv(w) && FullAt(w, id) && id in w.esc.bonds
    ensures Inv(Run(w, calls, k)) && FullAt(Run(w, calls, k), id) && id in Run(w, calls, k).esc.bonds
  {
    hide Step, Inv, FullAt;
    if k > 0 {
      FullForever(w, calls, k - 1, id);
      FullStep(Run(w, calls, k - 1), calls[k - 1], id);
      BondFrame(Run(w, calls, k - 1), calls[k - 1], id);
    }
  }

  lemma BondHasResolution(w: World, id: QuestionId)
    requires Inv(w) && id in w.esc.bonds
    ensures id in w.esc.resolutions
  {
    hide SumBy, Enumerates, Books;
  }

  /** A bond leaves the escrow in some run if and only if its resolution is neither flagged nor open to the last
      ledger, and its winners' u32 counters have room. */
  lemma BondLeavesExactlyWhen(w: World, id: QuestionId)
    requires Inv(w) && id in w.esc.bonds
    ensures id in w.esc.resolutions
    ensures (exists calls :: id !in Run(w, calls, |calls|).esc.bonds) <==>
              !Stuck(w.esc.resolutions[id]) && CountsFit(w.esc.board, w.esc.resolutions[id].workers)
  {
    hide Inv, Run, CountsFit, Stuck;
    BondHasResolution(w, id);
    if StuckAt(w, id) {
      forall calls ensures id in Run(w, calls, |calls|).esc.bonds {
        StuckBondForever(w, calls, |calls|, id);
      }
    } else if FullAt(w, id) {
      forall calls ensures id in Run(w, calls, |calls|).esc.bonds {
        FullForever(w, calls, |calls|, id);
      }
    } else {
      var calls := WaitAndFinalize(w, id);
      assert id !in Run(w, calls, |calls|).esc.bonds;
    }
  }

  lemma WaitAndFinalize(w: World, id: QuestionId) returns (calls: seq<Call>)
    requires Inv(w) && id in w.esc.bonds && id in w.esc.resolutions && !Stuck(w.esc.resolutions[id])
    requires CountsFit(w.esc.board, w.esc.resolutions[id].workers)
    ensures id !in Run(w, calls, |calls|).esc.bonds
  {
    hide SumBy, SoundStore, FinalizeResolve, CountsFit;
    var pause := Max(0, w.esc.resolutions[id].deadline + 1 - w.now);
    calls := [Wait(pause), DoFinalize(id)];
    var later := w.(now := w.now + pause);
    WaitSafe(w, pause);
    assert Run(w, calls, 0) == w;
    assert Run(w, calls, 1) == later;
    FinalizesExactlyWhen(later, id);
    assert Run(w, calls, 2) == After(later, DoFinalize(id));
    BondFrame(later, DoFinalize(id), id);
  }
}
