/** Three settlement paths, one effect on the whole state. */
module TwoStep {
  import opened Base
  import opened Settlement
  import opened PendingIndex
  import opened Leaderboard
  import opened Ledger
  import opened Invariant
  import opened Solvency

  /** A settlement only reads the amount of its question and overwrites its record, so the status it
      started from does not matter. */
  lemma StartStatusIrrelevant(w: World, id: QuestionId, q: Question, start: Status, workers: seq<Address>,
                              losers: seq<Address>, forfeited: int, f: Slasher)
    ensures SettleTogether(w.(esc := w.esc.(questions := w.esc.questions[id := q.(status := start)])), id,
                           q.(status := start), workers, losers, forfeited, f)
            == SettleTogether(w.(esc := w.esc.(questions := w.esc.questions[id := q])), id, q, workers, losers,
                              forfeited, f)
  {
    hide MakeBill, CreditAndRecord, RouteTake, Remove;
    assert w.esc.questions[id := q.(status := start)][id := q.(status := Resolved)]
           == w.esc.questions[id := q][id := q.(status := Resolved)];
  }

  /** resolve() of a pending question is the shared settlement, for every state and list. */
  lemma ResolveIsSettle(w: World, id: QuestionId, workers: seq<Address>, losers: seq<Address>)
    requires Inv(w) && HasStatus(w.esc.questions, id, Pending)
    requires CheckLists(w.esc.config, workers, losers, true).Ok?
    ensures var q := w.esc.questions[id];
            var settled := SettleTogether(w, id, q, workers, losers, 0, LoserSlash(q.amount, w.now));
            var resolved := Resolve(w, id, workers, losers);
            && (resolved.Ok? <==> settled.Ok?) && (resolved.Ok? ==> resolved == settled)
  {
    hide SumBy, Books, Tables, Enumerates, MakeBill, CreditAll, CreditAndRecord, RouteTake, RecordAll, SlasherAt,
         SettleTogether;
    var q := w.esc.questions[id];
    var f := LoserSlash(q.amount, w.now);
    SlasherAtSound(SlashCap(q.amount), w.now);
    ApartIsTogether(w, id, q, workers, losers, f);
    LegSafe(w, id, q, workers, losers, f);
    assert SettleAsset(w, q.amount, workers, losers, f).value.esc.board == w.esc.board;
  }

  /** The state in which the question had never left Pending and had no side table. */
  function Unmarked(w: World, id: QuestionId): World
    requires id in w.esc.questions
  {
    w.(esc := w.esc.(questions := w.esc.questions[id := w.esc.questions[id].(status := Pending)],
                     resolutions := w.esc.resolutions - {id}, escalated := w.esc.escalated - {id},
                     bonds := w.esc.bonds - {id}))
  }

  lemma TablesUnmarked(questions: map<QuestionId, Question>, resolutions: map<QuestionId, Resolution>,
                       escalated: map<QuestionId, Verdict>, bonds: map<QuestionId, Bond>, id: QuestionId)
    requires Tables(questions, resolutions, escalated, bonds) && id in questions
    ensures Tables(questions[id := questions[id].(status := Pending)], resolutions - {id}, escalated - {id},
                   bonds - {id})
  {
  }

  lemma UnmarkedSafe(w: World, id: QuestionId)
    requires Inv(w) && id in w.esc.questions && w.esc.questions[id].Live()
    ensures Inv(Unmarked(w, id)) && HasStatus(Unmarked(w, id).esc.questions, id, Pending)
  {
    hide SumBy, Enumerates, Tables;
    TablesUnmarked(w.esc.questions, w.esc.resolutions, w.esc.escalated, w.esc.bonds, id);
    QuestionUpdate(w.esc.questions, id, w.esc.questions[id].(status := Pending));
    assert LiveIds(w.esc.questions) + {id} == LiveIds(w.esc.questions);
    QuestionBounded(w.esc, id);
    DropBond(w.esc.bonds, id);
  }

  /** Side tables of other kinds do not hold the id. */
  lemma OneTableOnly(w: World, id: QuestionId)
    requires Inv(w) && id in w.esc.questions
    ensures w.esc.questions[id].status != Disputed ==> w.esc.escalated - {id} == w.esc.escalated
    ensures w.esc.questions[id].status != ResolvedPending ==>
              w.esc.resolutions - {id} == w.esc.resolutions && w.esc.bonds - {id} == w.esc.bonds
  {
    hide SumBy, Books, Enumerates;
  }

  /** The same world with quorum bounds that admit any list the contract can hold. */
  function OpenBounds(w: World): World {
    w.(esc := w.esc.(config := w.esc.config.(minQuorum := 0, maxQuorum := MAX_QUORUM_SIZE)))
  }

  predicate WithinBounds(c: Config, size: nat) {
    c.minQuorum <= size <= c.maxQuorum
  }

  /** A settlement never reads the quorum bounds. */
  lemma BoundsIrrelevant(w: World, id: QuestionId, q: Question, workers: seq<Address>, losers: seq<Address>,
                         forfeited: int, f: Slasher)
    ensures var r, open := SettleTogether(w, id, q, workers, losers, forfeited, f),
                           SettleTogether(OpenBounds(w), id, q, workers, losers, forfeited, f);
            (r.Ok? <==> open.Ok?) && (r.Ok? ==> open.value == OpenBounds(r.value))
  {
    hide MakeBill, CreditAndRecord, Remove;
  }

  lemma OpenBoundsSafe(w: World)
    requires Inv(w)
    ensures Inv(OpenBounds(w))
  {
    hide SumBy, Enumerates, Tables;
  }

  /** Finalizing an unbonded resolution, whatever happened since it was recorded, is one resolve() with
      the recorded lists now: same success, and the same whole state afterwards. Only the quorum bounds of
      the day are not asked a second time: where they refuse the lists, so would that resolve(). */
  lemma FinalizeIsResolve(w: World, id: QuestionId)
    requires Inv(w) && Finalizable(w, id) && id !in w.esc.bonds
    ensures id in w.esc.questions
    ensures var res := w.esc.resolutions[id];
            var twoStep, oneStep := FinalizeResolve(w, id),
                                    Resolve(OpenBounds(Unmarked(w, id)), id, res.workers, res.losers);
            (twoStep.Ok? <==> oneStep.Ok?) && (twoStep.Ok? ==> oneStep.value == OpenBounds(twoStep.value))
    ensures var res := w.esc.resolutions[id];
            var twoStep, oneStep := FinalizeResolve(w, id), Resolve(Unmarked(w, id), id, res.workers, res.losers);
            if WithinBounds(w.esc.config, |res.workers| + |res.losers|)
            then (twoStep.Ok? <==> oneStep.Ok?) && (twoStep.Ok? ==> twoStep == oneStep)
            else oneStep == Err(QuorumOutOfBounds)
  {
    hide SumBy, Books, Enumerates, SettleTogether, Resolve, SlasherAt, DistinctLists;
    assert HasStatus(w.esc.questions, id, ResolvedPending);
    var q, res := w.esc.questions[id], w.esc.resolutions[id];
    var ready := w.(esc := w.esc.(resolutions := w.esc.resolutions - {id}, bonds := w.esc.bonds - {id}));
    var f := LoserSlash(q.amount, w.now);
    OneTableOnly(w, id);
    UnmarkedSafe(w, id);
    OpenBoundsSafe(Unmarked(w, id));
    assert ready.esc.questions == w.esc.questions[id := q];
    StartStatusIrrelevant(ready, id, q, Pending, res.workers, res.losers, 0, f);
    BoundsIrrelevant(Unmarked(w, id), id, q.(status := Pending), res.workers, res.losers, 0, f);
    ResolveIsSettle(OpenBounds(Unmarked(w, id)), id, res.workers, res.losers);
    if WithinBounds(w.esc.config, |res.workers| + |res.losers|) {
      ResolveIsSettle(Unmarked(w, id), id, res.workers, res.losers);
    } else {
      OutOfBounds(Unmarked(w, id), id, res.workers, res.losers);
    }
  }

  lemma OutOfBounds(w: World, id: QuestionId, workers: seq<Address>, losers: seq<Address>)
    requires Acceptable(workers, losers) && !WithinBounds(w.esc.config, |workers| + |losers|)
    ensures Resolve(w, id, workers, losers) == Err(QuorumOutOfBounds)
  {
    hide DistinctLists, SettleAsset;
  }

  /** Settling an escalated question with the second quorum's lists is one resolve() with those lists,
      whatever the first quorum said. */
  lemma EscalateResolveIsResolve(w: World, id: QuestionId, workers: seq<Address>, losers: seq<Address>)
    requires Inv(w) && HasStatus(w.esc.questions, id, Disputed)
    requires CheckLists(w.esc.config, workers, losers, true).Ok?
    ensures var twoStep, oneStep := EscalateResolve(w, id, workers, losers),
                                    Resolve(Unmarked(w, id), id, workers, losers);
            (twoStep.Ok? <==> oneStep.Ok?) && (twoStep.Ok? ==> twoStep == oneStep)
  {
    hide SumBy, Books, Enumerates, SettleTogether, Resolve, SlasherAt, DistinctLists;
    var q := w.esc.questions[id];
    var ready := w.(esc := w.esc.(escalated := w.esc.escalated - {id}));
    OneTableOnly(w, id);
    UnmarkedSafe(w, id);
    assert ready.esc.questions == w.esc.questions[id := q];
    StartStatusIrrelevant(ready, id, q, Pending, workers, losers, 0, LoserSlash(q.amount, w.now));
    ResolveIsSettle(Unmarked(w, id), id, workers, losers);
  }

  /** And undoing the mark undoes the first step: challenging or escalating only marks the question. */
  lemma MarkingIsUndone(w: World, id: QuestionId, workers: seq<Address>, losers: seq<Address>, window: nat)
    requires Inv(w)
    ensures ResolveChallengeable(w, id, workers, losers, window).Ok? ==>
              Unmarked(ResolveChallengeable(w, id, workers, losers, window).value, id) == w
    ensures Escalate(w, id, workers, losers).Ok? ==>
              Unmarked(Escalate(w, id, workers, losers).value, id) == w
  {
    hide SumBy, Books, Enumerates, DistinctLists, Tables;
    if HasStatus(w.esc.questions, id, Pending) {
      OneTableOnly(w, id);
      hide Inv;
      var q := w.esc.questions[id];
      assert w.esc.questions[id := q.(status := ResolvedPending)][id := q] == w.esc.questions;
      assert w.esc.questions[id := q.(status := Disputed)][id := q] == w.esc.questions;
      assert w.esc.resolutions[id := Resolution(workers, losers, SatAdd(w.now, window), false)] - {id}
             == w.esc.resolutions;
      assert w.esc.escalated[id := Verdict(workers, losers)] - {id} == w.esc.escalated;
    }
  }

  /** What any of the three settlements pays. Each winner is credited the same amount once and nobody else is;
      the losers' bonds shrink by what was slashed; and the take with the credits is the question's amount,
      the slashes and the forfeited bond, to the stroop. */
  lemma SettlementPays(w: World, id: QuestionId, q: Question, workers: seq<Address>, losers: seq<Address>,
                       forfeited: int, f: Slasher)
    requires NoDup(workers) && q.amount >= 0 && SettleTogether(w, id, q, workers, losers, forfeited, f).Ok?
    ensures workers != []
    ensures var v, n := SettleTogether(w, id, q, workers, losers, forfeited, f).value, |workers|;
            var bill := UncheckedBill(w.esc.stakes, q.amount, n, losers, f);
            && (forall a :: Get(v.esc.owed, a) == Get(w.esc.owed, a) + if a in workers then bill.workerCredit else 0)
            && v.esc.stakes == bill.slashes.stakes
            && RouteTake(w.tok, w.esc.me, w.esc.config, bill.platformTake + forfeited) == Ok(v.tok)
            && (bill.platformTake + forfeited) + bill.workerCredit * n
               == q.amount + bill.slashes.tally.total + forfeited
  {
    hide RouteTake, CreditAndRecord, RecordAll, CreditAll, SettleQuestion, UncheckedBill;
    var n := |workers|;
    var bill := UncheckedBill(w.esc.stakes, q.amount, n, losers, f);
    BillConserves(w.esc.stakes, q.amount, n, losers, f);
    TogetherIsApart(w.esc.owed, w.esc.board, workers, n, bill.workerCredit);
    SettlementStores(w, id, q, workers, losers, forfeited, f);
    var v := SettleTogether(w, id, q, workers, losers, forfeited, f).value;
    forall a ensures Get(v.esc.owed, a) == Get(w.esc.owed, a) + if a in workers then bill.workerCredit else 0 {
      CreditAllPointwise(w.esc.owed, workers, n, bill.workerCredit, a);
      assert workers[..n] == workers;
    }
  }

  lemma SettlementStores(w: World, id: QuestionId, q: Question, workers: seq<Address>, losers: seq<Address>,
                         forfeited: int, f: Slasher)
    requires SettleTogether(w, id, q, workers, losers, forfeited, f).Ok?
    ensures workers != []
    ensures var v, n := SettleTogether(w, id, q, workers, losers, forfeited, f).value, |workers|;
            var bill := UncheckedBill(w.esc.stakes, q.amount, n, losers, f);
            && CreditAndRecord(w.esc.owed, w.esc.board, workers, n, bill.workerCredit) == Ok((v.esc.owed, v.esc.board))
            && v.esc.stakes == bill.slashes.stakes && v.esc.me == w.esc.me
            && RouteTake(w.tok, w.esc.me, w.esc.config, bill.platformTake + forfeited) == Ok(v.tok)
  {
    hide RouteTake, CreditAndRecord, Remove, UncheckedBill;
  }

  // ---- with a challenger's bond --------------------------------------------------------

  /** Nobody but the escrow and the two payout addresses is touched by a payout. */
  predicate Bystander(me: Address, c: Config, a: Address) {
    a != me && a != c.platform && (c.goods.Some? ==> a != c.goods.value.address)
  }

  lemma RouteBystander(tok: Balances, me: Address, c: Config, take: int, a: Address)
    requires RouteTake(tok, me, c, take).Ok? && Bystander(me, c, a)
    ensures Get(RouteTake(tok, me, c, take).value, a) == Get(tok, a)
  {
    hide MulBps;
  }

  /** What is forfeited only moves tokens: the stored state after a settlement is the same with or without. */
  lemma ForfeitOnlyMovesTokens(w: World, id: QuestionId, q: Question, workers: seq<Address>, losers: seq<Address>,
                               forfeited: int, f: Slasher)
    ensures var v, u := SettleTogether(w, id, q, workers, losers, forfeited, f),
                        SettleTogether(w, id, q, workers, losers, 0, f);
            v.Ok? && u.Ok? ==> v.value.esc == u.value.esc
  {
    hide RouteTake, MakeBill, CreditAndRecord, Remove;
  }
}
