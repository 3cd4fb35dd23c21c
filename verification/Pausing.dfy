/** The emergency pause: while it is on, money and work stop coming in, and nothing else about the contract
    changes, so that whatever is already inside can be judged, refunded, paid out and moved on as before, by
    whoever could do so. */
module Pausing {
  import opened Base
  import opened Settlement
  import opened PendingIndex
  import opened Leaderboard
  import opened Ledger
  import opened Consensus
  import opened Calls
  import Stakes

  /** The calls that bring new work or new money in. */
  predicate Entry(call: Call) {
    match call
    case DoSubmit(_, _, _) | DoDeposit(_, _) | DoCharge(_, _, _) | DoReopen(_, _, _) | DoStake(_, _)
      | DoPostBond(_, _, _) => true
    case _ => false
  }

  function WithPause(w: World, paused: bool): World {
    w.(esc := w.esc.(config := w.esc.config.(paused := paused)))
  }

  /** The same answer, but for the switch itself. */
  predicate SameBut(r: Result<World>, s: Result<World>, paused: bool) {
    s == if r.Ok? then Ok(WithPause(r.value, paused)) else r
  }

  /** While paused, every call that brings something in is refused, whatever its arguments. */
  lemma PauseBlocks(w: World, call: Call)
    requires w.esc.config.paused && Entry(call)
    ensures Step(w, call) == Err(ContractPaused)
  {
  }

  /** No other call is ever refused as paused, nor does its outcome depend on the switch: everyone can be judged,
      refunded, paid and unstaked as before. */
  lemma PauseSparesTheRest(w: World, call: Call, paused: bool)
    requires !Entry(call) && !call.DoSetPaused?
    ensures SameBut(Step(w, call), Step(WithPause(w, paused), call), paused)
    ensures Step(w, call) != Err(ContractPaused)
  {
    hide Resolve, ResolveByConsensus, EscalateResolve, FinalizeResolve, Sweep, DoRefund, RefundTimeout, BeginUnstake,
         CompleteUnstake, Withdraw, WithdrawBalance, Escalate, ResolveChallengeable, DisputeResolve, Transfer;
    match call
    case DoResolve(id, workers, losers) => ResolveSpared(w, id, workers, losers, paused);
    case DoConsensus(id, answers) => ConsensusSpared(w, id, answers, paused);
    case DoEscalateResolve(_, _, _) => TwoStepSpared(w, call, paused);
    case DoFinalize(_) => TwoStepSpared(w, call, paused);
    case DoSweep(ids) => SweepSpared(w, ids, |ids|, paused);
    case DoRefundNow(_) => RefundSpared(w, call, paused);
    case DoRefundTimeout(_) => RefundSpared(w, call, paused);
    case DoEscalate(_, _, _) => MarkSpared(w, call, paused);
    case DoResolveChallengeable(_, _, _, _) => MarkSpared(w, call, paused);
    case DoDispute(_) => MarkSpared(w, call, paused);
    case DoBeginUnstake(_, _) => PayoutSpared(w, call, paused);
    case DoCompleteUnstake(_) => PayoutSpared(w, call, paused);
    case DoWithdraw(_, _, _) => PayoutSpared(w, call, paused);
    case DoWithdrawBalance(_, _) => PayoutSpared(w, call, paused);
    case TokenTransfer(from, to, amount) => TransferSpared(w.tok, from, to, amount);
    case _ =>
  }

  lemma TransferSpared(tok: Balances, from: Address, to: Address, amount: int)
    ensures Transfer(tok, from, to, amount) != Err(ContractPaused)
  {
  }

  lemma PayoutSpared(w: World, call: Call, paused: bool)
    requires call.DoBeginUnstake? || call.DoCompleteUnstake? || call.DoWithdraw? || call.DoWithdrawBalance?
    ensures SameBut(Step(w, call), Step(WithPause(w, paused), call), paused)
    ensures Step(w, call) != Err(ContractPaused)
  {
    hide Stakes.Mature, Stakes.DrainWarming, StakeOf;
    match call
    case DoBeginUnstake(worker, _) => StakeSpared(w, worker, paused);
    case DoCompleteUnstake(worker) => StakeSpared(w, worker, paused);
    case _ =>
  }

  lemma StakeSpared(w: World, worker: Address, paused: bool)
    ensures StakeOf(WithPause(w, paused).esc, worker) == StakeOf(w.esc, worker)
  {
  }

  lemma MarkSpared(w: World, call: Call, paused: bool)
    requires call.DoEscalate? || call.DoResolveChallengeable? || call.DoDispute?
    ensures SameBut(Step(w, call), Step(WithPause(w, paused), call), paused)
    ensures Step(w, call) != Err(ContractPaused)
  {
    hide DistinctLists;
  }

  lemma RefundSpared(w: World, call: Call, paused: bool)
    requires call.DoRefundNow? || call.DoRefundTimeout?
    ensures SameBut(Step(w, call), Step(WithPause(w, paused), call), paused)
    ensures Step(w, call) != Err(ContractPaused)
  {
  }

  lemma {:induction false} SweepSpared(w: World, ids: seq<QuestionId>, k: nat, paused: bool)
    requires k <= |ids|
    ensures var r, s := Sweep(w, ids, k), Sweep(WithPause(w, paused), ids, k);
            if r.Ok? then s == Ok((WithPause(r.value.0, paused), r.value.1)) else r == s == Err(Trap)
  {
    hide RefundTimeout;
    if k > 0 {
      SweepSpared(w, ids, k - 1, paused);
      if Sweep(w, ids, k - 1).Ok? {
        var u := Sweep(w, ids, k - 1).value.0;
        TimeoutSpared(u, ids[k - 1], paused);
      }
    }
  }

  lemma TimeoutSpared(w: World, id: QuestionId, paused: bool)
    ensures SameBut(RefundTimeout(w, id), RefundTimeout(WithPause(w, paused), id), paused)
  {
    hide Transfer, Remove;
  }

  lemma RouteSpared(tok: Balances, me: Address, c: Config, take: int, paused: bool)
    ensures RouteTake(tok, me, c.(paused := paused), take) == RouteTake(tok, me, c, take)
    ensures RouteTake(tok, me, c, take) != Err(ContractPaused)
  {
  }

  lemma {:induction false} CreditsSpared(owed: map<Address, int>, board: Board, workers: seq<Address>, k: nat,
                                         credit: int)
    requires k <= |workers|
    ensures CreditAll(owed, workers, k, credit) != Err(ContractPaused)
    ensures RecordAll(board, workers, k) != Err(ContractPaused)
    ensures CreditAndRecord(owed, board, workers, k, credit) != Err(ContractPaused)
  {
    if k > 0 {
      CreditsSpared(owed, board, workers, k - 1, credit);
    }
  }

  lemma LegSpared(w: World, amount: int, workers: seq<Address>, losers: seq<Address>, f: Slasher, paused: bool)
    requires workers != []
    ensures SameBut(SettleAsset(w, amount, workers, losers, f),
                    SettleAsset(WithPause(w, paused), amount, workers, losers, f), paused)
    ensures SettleAsset(w, amount, workers, losers, f) != Err(ContractPaused)
  {
    hide UncheckedBill, RouteTake, CreditAll;
    var bill := UncheckedBill(w.esc.stakes, amount, |workers|, losers, f);
    RouteSpared(w.tok, w.esc.me, w.esc.config, bill.platformTake, paused);
    CreditsSpared(w.esc.owed, w.esc.board, workers, |workers|, bill.workerCredit);
  }

  lemma ListsSpared(c: Config, workers: seq<Address>, losers: seq<Address>, paused: bool)
    ensures CheckLists(c.(paused := paused), workers, losers, true) == CheckLists(c, workers, losers, true)
    ensures CheckLists(c, workers, losers, true) != Err(ContractPaused)
    ensures CheckLists(c, workers, losers, true).Ok? ==> workers != []
  {
    hide DistinctLists;
  }

  lemma ResolveSpared(w: World, id: QuestionId, workers: seq<Address>, losers: seq<Address>, paused: bool)
    ensures SameBut(Resolve(w, id, workers, losers), Resolve(WithPause(w, paused), id, workers, losers), paused)
    ensures Resolve(w, id, workers, losers) != Err(ContractPaused)
  {
    hide CheckLists, SettleAsset, RecordAll, LoserSlash, Remove;
    ListsSpared(w.esc.config, workers, losers, paused);
    if CheckLists(w.esc.config, workers, losers, true).Ok? && id in w.esc.questions {
      var q := w.esc.questions[id];
      var f := LoserSlash(q.amount, w.now);
      LegSpared(w, q.amount, workers, losers, f, paused);
      var paid := SettleAsset(w, q.amount, workers, losers, f);
      if paid.Ok? {
        CreditsSpared(w.esc.owed, paid.value.esc.board, workers, |workers|, 0);
        ClosingSpared(paid.value.esc, id);
      }
    }
  }

  lemma ClosingSpared(s: Store, id: QuestionId)
    ensures Remove(s.index, id) != Err(ContractPaused)
  {
  }

  lemma ConsensusSpared(w: World, id: QuestionId, answers: seq<Answer>, paused: bool)
    ensures SameBut(ResolveByConsensus(w, id, answers), ResolveByConsensus(WithPause(w, paused), id, answers), paused)
    ensures ResolveByConsensus(w, id, answers) != Err(ContractPaused)
  {
    hide Resolve, DistinctWorkers, Lists, Unanimous, FindDissenter;
    if Dissenter(answers).Ok? {
      var lists := Lists(w.esc.board, w.esc.config.established, answers, Dissenter(answers).value);
      ResolveSpared(w, id, lists.workers, lists.losers, paused);
    }
  }

  lemma TogetherSpared(w: World, id: QuestionId, q: Question, workers: seq<Address>, losers: seq<Address>,
                       forfeited: int, f: Slasher, paused: bool)
    ensures SameBut(SettleTogether(w, id, q, workers, losers, forfeited, f),
                    SettleTogether(WithPause(w, paused), id, q, workers, losers, forfeited, f), paused)
    ensures SettleTogether(w, id, q, workers, losers, forfeited, f) != Err(ContractPaused)
  {
    hide UncheckedBill, RouteTake, CreditAndRecord;
    if workers != [] {
      var bill := UncheckedBill(w.esc.stakes, q.amount, |workers|, losers, f);
      RouteSpared(w.tok, w.esc.me, w.esc.config, bill.platformTake + forfeited, paused);
      CreditsSpared(w.esc.owed, w.esc.board, workers, |workers|, bill.workerCredit);
    }
  }

  lemma TwoStepSpared(w: World, call: Call, paused: bool)
    requires call.DoEscalateResolve? || call.DoFinalize?
    ensures SameBut(Step(w, call), Step(WithPause(w, paused), call), paused)
    ensures Step(w, call) != Err(ContractPaused)
  {
    hide SettleTogether, DistinctLists;
    match call
    case DoEscalateResolve(id, workers, losers) =>
      if id in w.esc.questions {
        var q := w.esc.questions[id];
        TogetherSpared(w.(esc := w.esc.(escalated := w.esc.escalated - {id})), id, q, workers, losers, 0,
                       LoserSlash(q.amount, w.now), paused);
      }
    case DoFinalize(id) =>
      if id in w.esc.questions && id in w.esc.resolutions {
        var q, res := w.esc.questions[id], w.esc.resolutions[id];
        TogetherSpared(w.(esc := w.esc.(resolutions := w.esc.resolutions - {id}, bonds := w.esc.bonds - {id})),
                       id, q, res.workers, res.losers, BondAmount(w.esc, id), LoserSlash(q.amount, w.now), paused);
      }
  }
}
