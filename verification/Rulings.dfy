/** What a settlement pays, to whom, and when it goes through. */
module Rulings {
  import opened Base
  import opened Stakes
  import opened StakeTotals
  import opened Settlement
  import opened PendingIndex
  import opened Leaderboard
  import opened Ledger
  import opened Consensus
  import opened Calls
  import opened Invariant
  import opened Solvency
  import opened TwoStep
  import opened Frames
  import opened Challenges
  import opened DryRun
  import BondRuns

  /** The platform receives `take` less the public-goods share, the public-goods address that share, and the
      escrow pays for both. */
  ghost predicate Routed(before: Balances, after: Balances, me: Address, c: Config, take: int) {
    var share := if c.goods.Some? then take * c.goods.value.bps / 10_000 else 0;
    forall a :: Get(after, a) == Get(before, a)
                                 + (if a == c.platform then take - share else 0)
                                 + (if c.goods.Some? && a == c.goods.value.address then share else 0)
                                 - if a == me then take else 0
  }

  lemma RoutesExactly(tok: Balances, me: Address, c: Config, take: int)
    requires SaneConfig(c) && take >= 0 && RouteTake(tok, me, c, take).Ok?
    ensures Routed(tok, RouteTake(tok, me, c, take).value, me, c, take)
  {
    if c.goods.Some? {
      MulBpsIsFloor(take, c.goods.value.bps);
      MulBpsRange(take, c.goods.value.bps);
    }
  }

  /** Settling `id` for these lists. Every winner is credited an equal share of four fifths of the amount and of
      half of each slash; each loser with a bond is slashed a twentieth of it, at most the amount; the platform's
      side takes the rest together with what was forfeited; and nobody else is touched. */
  ghost predicate Ruled(w: World, v: World, id: QuestionId, workers: seq<Address>, losers: seq<Address>,
                        forfeited: int)
    requires id in w.esc.questions && workers != [] && w.esc.questions[id].amount >= 0
  {
    var amount, n := w.esc.questions[id].amount, |workers|;
    var credit := (amount - amount / 5) / n + HalfShares(w.esc.stakes, losers, |losers|, amount, n);
    var slashed := SlashTotal(w.esc.stakes, losers, |losers|, amount);
    && (forall a :: Get(v.esc.owed, a) == Get(w.esc.owed, a) + if a in workers then credit else 0)
    && v.esc.stakes.Keys == w.esc.stakes.Keys
    && (forall a :: a in w.esc.stakes ==> BondAfter(w.esc.stakes[a], v.esc.stakes[a], a in losers, amount))
    && Routed(w.tok, v.tok, w.esc.me, w.esc.config, amount + slashed + forfeited - credit * n)
    && v.esc.questions == w.esc.questions[id := w.esc.questions[id].(status := Resolved)]
    && v == w.(tok := v.tok, esc := w.esc.(questions := v.esc.questions, owed := v.esc.owed, stakes := v.esc.stakes,
                                           board := v.esc.board, index := v.esc.index, openCount := v.esc.openCount))
  }

  lemma SettlesFrame(w: World, id: QuestionId, q: Question, workers: seq<Address>, losers: seq<Address>, forfeited: int,
                     f: Slasher)
    requires SettleTogether(w, id, q, workers, losers, forfeited, f).Ok?
    ensures var v := SettleTogether(w, id, q, workers, losers, forfeited, f).value;
            v == w.(tok := v.tok, esc := w.esc.(
              questions := w.esc.questions[id := q.(status := Resolved)], owed := v.esc.owed, stakes := v.esc.stakes,
              board := v.esc.board, index := v.esc.index, openCount := v.esc.openCount))
  {
    hide RouteTake, CreditAndRecord, MakeBill, Remove;
  }

  /** A slashed bond loses a twentieth of everything slashable, at most the amount in question; any other is as it
      was. */
  ghost predicate BondAfter(before: StakeInfo, after: StakeInfo, slashed: bool, amount: nat) {
    if slashed then Slashable(after) == Slashable(before) - Min(Slashable(before) / 20, amount) else after == before
  }

  lemma SlashedBond(info: StakeInfo, amount: nat, now: nat)
    requires Sound(info)
    ensures BondAfter(info, LoserSlash(amount, now)(info).0, true, amount)
  {
    hide Slash;
    FeeSplit(amount, 1);
    SlashSound(info, amount, now);
    SlashIsShare(info, amount, now);
  }

  lemma SettlesRuled(w: World, id: QuestionId, q: Question, workers: seq<Address>, losers: seq<Address>, forfeited: int)
    requires AllSound(w.esc.stakes) && SaneConfig(w.esc.config) && NoDup(workers) && NoDup(losers)
    requires id in w.esc.questions && q == w.esc.questions[id] && q.amount >= 0 && forfeited >= 0
    requires SettleTogether(w, id, q, workers, losers, forfeited, LoserSlash(q.amount, w.now)).Ok?
    ensures workers != []
    ensures Ruled(w, SettleTogether(w, id, q, workers, losers, forfeited, LoserSlash(q.amount, w.now)).value, id,
                  workers, losers, forfeited)
  {
    hide SettleTogether, SlasherAt, RouteTake, UncheckedBill, Routed, BondAfter, AllSound, Settles;
    var f, n := LoserSlash(q.amount, w.now), |workers|;
    SettlementPays(w, id, q, workers, losers, forfeited, f);
    SettlesFrame(w, id, q, workers, losers, forfeited, f);
    BillSpelledOut(w.esc.stakes, q.amount, n, losers, w.now);
    BillConserves(w.esc.stakes, q.amount, n, losers, f);
    RoutesExactly(w.tok, w.esc.me, w.esc.config,
                  UncheckedBill(w.esc.stakes, q.amount, n, losers, f).platformTake + forfeited);
    BondsRuled(w.esc.stakes, losers, q.amount, w.now, n);
    UncheckedStakes(w.esc.stakes, q.amount, n, losers, f);
  }

  lemma UncheckedStakes(stakes: Bonds, amount: int, n: int, losers: seq<Address>, f: Slasher)
    requires n > 0
    ensures UncheckedBill(stakes, amount, n, losers, f).slashes == Distribute(stakes, losers, |losers|, f, n)
  {
  }

  lemma BondsRuled(stakes: Bonds, losers: seq<Address>, amount: nat, now: nat, n: nat)
    requires AllSound(stakes) && NoDup(losers) && n > 0
    ensures var after := Distribute(stakes, losers, |losers|, LoserSlash(amount, now), n).stakes;
            && after.Keys == stakes.Keys
            && forall a :: a in stakes ==> BondAfter(stakes[a], after[a], a in losers, amount)
  {
    hide Slash, Distribute;
    var f := LoserSlash(amount, now);
    var after := Distribute(stakes, losers, |losers|, f, n).stakes;
    forall a ensures a in after <==> a in stakes
             ensures a in stakes ==> BondAfter(stakes[a], after[a], a in losers, amount)
    {
      BondRuns.EachSlashedOnce(stakes, losers, |losers|, f, n, a);
      assert losers[..|losers|] == losers;
      if a in stakes {
        SlashedBond(stakes[a], amount, now);
      }
    }
  }

  /** The list checks: somebody to credit, at most 64 workers, nobody twice, and the quorum bounds. */
  ghost predicate Listable(c: Config, workers: seq<Address>, losers: seq<Address>) {
    && workers != [] && |workers| + |losers| <= 64 && NoDup(workers + losers)
    && c.minQuorum <= |workers| + |losers| <= c.maxQuorum
  }

  lemma ListsPass(c: Config, workers: seq<Address>, losers: seq<Address>)
    ensures CheckLists(c, workers, losers, true).Ok? <==> Listable(c, workers, losers)
    ensures Listable(c, workers, losers) ==> NoDup(workers) && NoDup(losers)
  {
    hide DistinctLists, NoDup;
    DistinctListsConcat(workers, losers);
    if NoDup(workers + losers) {
      NoDupParts(workers, losers);
    }
  }

  lemma NoDupParts<T>(s: seq<T>, t: seq<T>)
    requires NoDup(s + t)
    ensures NoDup(s) && NoDup(t)
  {
    forall i, j | 0 <= i < j < |s| ensures s[i] != s[j] {
      assert (s + t)[i] != (s + t)[j];
    }
    forall i, j | 0 <= i < j < |t| ensures t[i] != t[j] {
      assert (s + t)[|s| + i] != (s + t)[|s| + j];
    }
  }

  /** resolve() goes through exactly for acceptable lists and a pending question, while the winners' counters have
      room, and then rules as it should. */
  lemma ResolveExactly(w: World, id: QuestionId, workers: seq<Address>, losers: seq<Address>)
    requires Inv(w)
    ensures var r := Step(w, DoResolve(id, workers, losers));
            && (r.Ok? <==>
                Listable(w.esc.config, workers, losers) && HasStatus(w.esc.questions, id, Pending)
                && CountsFit(w.esc.board, workers))
            && (r.Ok? ==> Ruled(w, r.value, id, workers, losers, 0))
  {
    hide SumBy, Enumerates, Tables, Resolve, CheckLists, SettleTogether, Ruled, RecordAll, CountsFit, Listable;
    ListsPass(w.esc.config, workers, losers);
    if Listable(w.esc.config, workers, losers) && HasStatus(w.esc.questions, id, Pending) {
      ResolveIsSettle(w, id, workers, losers);
      if Resolve(w, id, workers, losers).Ok? {
        QuestionBounded(w.esc, id);
        SettlesRuled(w, id, w.esc.questions[id], workers, losers, 0);
        ResolveRecords(w, id, workers, losers);
      } else {
        ResolveFailsOnCounters(w, id, workers, losers);
        if CountsFit(w.esc.board, workers) {
          RecordAllFits(w.esc.board, workers, |workers|);
        }
      }
    } else {
      ResolveGuards(w, id, workers, losers);
    }
  }

  lemma ResolveRecords(w: World, id: QuestionId, workers: seq<Address>, losers: seq<Address>)
    requires Resolve(w, id, workers, losers).Ok? && NoDup(workers)
    ensures CountsFit(w.esc.board, workers)
  {
    hide Resolve, RecordAll;
    ResolveFramed(w, id, workers, losers);
    RecordAllNeeds(w.esc.board, workers, |workers|);
  }

  /** Settling an escalated question likewise, whatever was recorded for it. */
  lemma EscalateResolveExactly(w: World, id: QuestionId, workers: seq<Address>, losers: seq<Address>)
    requires Inv(w)
    ensures var r := Step(w, DoEscalateResolve(id, workers, losers));
            && (r.Ok? <==>
                Listable(w.esc.config, workers, losers) && HasStatus(w.esc.questions, id, Disputed)
                && CountsFit(w.esc.board, workers))
            && (r.Ok? ==>
                Ruled(w.(esc := w.esc.(escalated := w.esc.escalated - {id})), r.value, id, workers, losers, 0))
  {
    hide SumBy, Enumerates, Tables, Resolve, CheckLists, SettleTogether, Ruled, CountsFit, Listable;
    ListsPass(w.esc.config, workers, losers);
    if Listable(w.esc.config, workers, losers) && HasStatus(w.esc.questions, id, Disputed) {
      EscalateResolveIsResolve(w, id, workers, losers);
      UnmarkedSafe(w, id);
      ResolveExactly(Unmarked(w, id), id, workers, losers);
      if EscalateResolve(w, id, workers, losers).Ok? {
        QuestionBounded(w.esc, id);
        SettlesRuled(w.(esc := w.esc.(escalated := w.esc.escalated - {id})), id, w.esc.questions[id], workers, losers,
                     0);
      }
    }
  }

  /** Finalizing a resolution rules by its recorded lists, and its bond joins the platform's side. */
  lemma FinalizeExactly(w: World, id: QuestionId)
    requires Inv(w)
    ensures var r := Step(w, DoFinalize(id));
            && (r.Ok? <==>
                && id in w.esc.resolutions && w.now > w.esc.resolutions[id].deadline
                && !w.esc.resolutions[id].disputed && CountsFit(w.esc.board, w.esc.resolutions[id].workers))
            && (r.Ok? ==>
                var res := w.esc.resolutions[id];
                && id in w.esc.questions && res.workers != [] && w.esc.questions[id].amount >= 0
                && Ruled(w.(esc := w.esc.(resolutions := w.esc.resolutions - {id}, bonds := w.esc.bonds - {id})),
                         r.value, id, res.workers, res.losers, if id in w.esc.bonds then w.esc.bonds[id].amount else 0))
  {
    hide SumBy, Enumerates, SettleTogether, Ruled, CountsFit;
    FinalizesExactlyWhen(w, id);
    if FinalizeResolve(w, id).Ok? {
      assert HasStatus(w.esc.questions, id, ResolvedPending);
      var res := w.esc.resolutions[id];
      QuestionBounded(w.esc, id);
      SettlesRuled(w.(esc := w.esc.(resolutions := w.esc.resolutions - {id}, bonds := w.esc.bonds - {id})), id,
                   w.esc.questions[id], res.workers, res.losers, BondAmount(w.esc, id));
    }
  }

  // ---- by consensus -----------------------------------------------------------------------

  /** The answers a ruling can be read off: some, at most 64, one a worker, and all alike but for at most one
      among three or more. */
  ghost predicate Conclusive(answers: seq<Answer>) {
    && 0 < |answers| <= 64 && DistinctWorkers(answers)
    && (Unanimous(answers, -1) || exists i :: LoneDissenter(answers, i))
  }

  /** How many answers go into the lists: all, less that of a dissenter not yet established. */
  ghost function Counted(board: Board, established: nat, answers: seq<Answer>): int {
    if exists i :: LoneDissenter(answers, i) && CountOf(board, answers[i].worker) < established
    then |answers| - 1 else |answers|
  }

  /** The lists name exactly those who agreed, and exactly the dissenter with enough resolved answers. */
  ghost predicate Names(w: World, answers: seq<Answer>, lists: Verdict) {
    forall x ::
      && (x in lists.workers <==> Agreed(answers, x))
      && (x in lists.losers <==> Dissented(answers, x) && CountOf(w.esc.board, x) >= w.esc.config.established)
  }

  lemma ListsName(w: World, id: QuestionId, answers: seq<Answer>)
    requires Conclusive(answers)
    ensures var lists := Judged(w, DoConsensus(id, answers));
            && Names(w, answers, lists)
            && lists.workers != [] && NoDup(lists.workers + lists.losers)
            && |lists.workers| + |lists.losers| == Counted(w.esc.board, w.esc.config.established, answers)
  {
    hide Unanimous, DistinctLists, NoDup;
    var board, established := w.esc.board, w.esc.config.established;
    DissenterDecides(answers);
    var dissenter, lists := Dissenter(answers).value, Judged(w, DoConsensus(id, answers));
    forall x
      ensures x in lists.workers <==> Agreed(answers, x)
      ensures x in lists.losers <==> Dissented(answers, x) && CountOf(board, x) >= established
    {
      ConsensusNames(board, established, answers, x);
    }
    ConsensusListsValid(board, established, answers);
    DistinctListsConcat(lists.workers, lists.losers);
    AgreeingWorkers(answers, |answers|, if dissenter.Some? then dissenter.value else -1);
    forall i ensures LoneDissenter(answers, i) <==> dissenter == Some(i) {
      OnlyDissenter(answers, i);
    }
  }

  /** resolve_by_consensus() goes through exactly for conclusive answers on a pending question, within the quorum
      bounds, while the counters of those who agreed have room; it credits them, and slashes the dissenter with
      enough resolved answers. */
  lemma ConsensusExactly(w: World, id: QuestionId, answers: seq<Answer>)
    requires Inv(w)
    ensures var r, c := Step(w, DoConsensus(id, answers)), w.esc.config;
            && (r.Ok? <==>
                && Conclusive(answers) && HasStatus(w.esc.questions, id, Pending)
                && c.minQuorum <= Counted(w.esc.board, c.established, answers) <= c.maxQuorum
                && forall x :: Agreed(answers, x) ==> CountOf(w.esc.board, x) < U32_MAX)
            && (r.Ok? ==>
                var lists := Judged(w, DoConsensus(id, answers));
                Names(w, answers, lists) && lists.workers != [] && NoDup(lists.workers + lists.losers)
                && w.esc.questions[id].amount >= 0 && Ruled(w, r.value, id, lists.workers, lists.losers, 0))
  {
    hide SumBy, Tables, Enumerates, Resolve, LoneDissenter, Unanimous, Ruled, NoDup, Agreed, Dissented, DistinctWorkers,
         Lists;
    DissenterDecides(answers);
    if Conclusive(answers) {
      var lists := Judged(w, DoConsensus(id, answers));
      ListsName(w, id, answers);
      ResolveExactly(w, id, lists.workers, lists.losers);
      assert CountsFit(w.esc.board, lists.workers) <==>
             forall x :: Agreed(answers, x) ==> CountOf(w.esc.board, x) < U32_MAX;
    }
  }
}
