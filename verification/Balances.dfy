/** Solvency over a token that bounds each balance by i128 but not its supply. The contract only ever reads its
    own balance and, when it is funded, the funder's; so what is proved for a small token holds for any
    token. */
module Balances {
  import opened Base
  import opened Stakes
  import opened Settlement
  import opened PendingIndex
  import opened Leaderboard
  import opened Ledger
  import opened Consensus
  import opened Calls
  import opened Invariant
  import opened Runs

  /** Solvency without any bound on the supply. */
  ghost predicate Solvent(w: World) {
    && w.now <= U32_MAX
    && SoundStore(w.esc, w.contracts) && Surplus(w) >= 0
  }

  /** Who funds a call, if anyone does, and with how much. */
  function Funding(call: Call): Option<(Address, int)> {
    match call
    case DoSubmit(payer, _, amount) => Some((payer, amount))
    case DoDeposit(payer, amount) => Some((payer, amount))
    case DoReopen(payer, _, amount) => Some((payer, amount))
    case DoPostBond(challenger, _, amount) => Some((challenger, amount))
    case DoStake(worker, amount) => Some((worker, amount))
    case _ => None
  }

  /** The escrow's balance fits an i128, and so does what a funding transfer would make of it: otherwise
      that transfer would fail in the token. */
  predicate TokenAllows(w: World, call: Call) {
    && w.Held() <= I128_MAX
    && (Funding(call).Some? && Funding(call).value.1 > 0 ==> w.Held() + Funding(call).value.1 <= I128_MAX)
  }

  // ---- worlds that differ only in other people's tokens ------------------------------------

  predicate Alike(w: World, u: World) {
    u == w.(tok := u.tok) && u.Held() == w.Held()
  }

  /** The same failure, or alike worlds. */
  predicate AlikeResults(r: Result<World>, s: Result<World>) {
    match (r, s)
    case (Ok(v), Ok(u)) => Alike(v, u)
    case (Err(e), Err(f)) => e == f
    case _ => false
  }

  lemma PayoutAlike(tok: Balances, other: Balances, me: Address, to: Address, amount: int)
    requires Get(tok, me) == Get(other, me)
    ensures var r, s := Transfer(tok, me, to, amount), Transfer(other, me, to, amount);
            && (r.Ok? <==> s.Ok?) && (r.Err? ==> r == s)
            && (r.Ok? ==> Get(r.value, me) == Get(s.value, me))
  {
  }

  lemma RouteAlike(tok: Balances, other: Balances, me: Address, c: Config, take: int)
    requires Get(tok, me) == Get(other, me)
    ensures var r, s := RouteTake(tok, me, c, take), RouteTake(other, me, c, take);
            && (r.Ok? <==> s.Ok?) && (r.Err? ==> r == s)
            && (r.Ok? ==> Get(r.value, me) == Get(s.value, me))
  {
    hide Transfer;
    if take > 0 && c.goods.Some? && c.goods.value.bps > 0 {
      var share := MulBps(take, c.goods.value.bps);
      PayoutAlike(tok, other, me, c.goods.value.address, share);
      if share > 0 && Transfer(tok, me, c.goods.value.address, share).Ok? {
        PayoutAlike(Transfer(tok, me, c.goods.value.address, share).value,
                    Transfer(other, me, c.goods.value.address, share).value, me, c.platform, take - share);
      }
      PayoutAlike(tok, other, me, c.platform, take - share);
    }
    PayoutAlike(tok, other, me, c.platform, take);
  }

  lemma SettleTogetherAlike(w: World, u: World, id: QuestionId, q: Question, workers: seq<Address>,
                            losers: seq<Address>, forfeited: int, f: Slasher)
    requires Alike(w, u)
    ensures AlikeResults(SettleTogether(w, id, q, workers, losers, forfeited, f),
                         SettleTogether(u, id, q, workers, losers, forfeited, f))
  {
    hide RouteTake, MakeBill, CreditAndRecord, Remove, Get;
    var bill := if workers == [] then Err(Trap) else MakeBill(w.esc.stakes, q.amount, |workers|, losers, f);
    if bill.Ok? {
      RouteAlike(w.tok, u.tok, w.esc.me, w.esc.config, bill.value.platformTake + forfeited);
    }
  }

  lemma ResolveAlike(w: World, u: World, id: QuestionId, workers: seq<Address>, losers: seq<Address>)
    requires Alike(w, u)
    ensures AlikeResults(Resolve(w, id, workers, losers), Resolve(u, id, workers, losers))
  {
    hide RouteTake, MakeBill, CreditAll, RecordAll, Remove, CheckLists, Get;
    if CheckLists(w.esc.config, workers, losers, true).Ok? && HasStatus(w.esc.questions, id, Pending) {
      NonEmptyLists(w.esc.config, workers, losers);
      var amount := w.esc.questions[id].amount;
      var bill := MakeBill(w.esc.stakes, amount, |workers|, losers, LoserSlash(amount, w.now));
      if bill.Ok? {
        RouteAlike(w.tok, u.tok, w.esc.me, w.esc.config, bill.value.platformTake);
      }
    }
  }

  lemma NonEmptyLists(c: Config, workers: seq<Address>, losers: seq<Address>)
    requires CheckLists(c, workers, losers, true).Ok?
    ensures workers != []
  {
  }

  lemma {:induction false} SweepAlike(w: World, u: World, ids: seq<QuestionId>, k: nat)
    requires Alike(w, u) && k <= |ids|
    ensures var r, s := Sweep(w, ids, k), Sweep(u, ids, k);
            && (r.Ok? <==> s.Ok?) && (r.Err? ==> r.error == s.error)
            && (r.Ok? ==> Alike(r.value.0, s.value.0))
  {
    hide RefundTimeout, Get;
    if k > 0 {
      SweepAlike(w, u, ids, k - 1);
      if Sweep(w, ids, k - 1).Ok? {
        TimeoutAlike(Sweep(w, ids, k - 1).value.0, Sweep(u, ids, k - 1).value.0, ids[k - 1]);
      }
    }
  }

  lemma TimeoutAlike(w: World, u: World, id: QuestionId)
    requires Alike(w, u)
    ensures AlikeResults(RefundTimeout(w, id), RefundTimeout(u, id))
    ensures AlikeResults(DoRefund(w, id), DoRefund(u, id))
  {
    hide Transfer, Remove, Get;
    if id in w.esc.questions {
      PayoutAlike(w.tok, u.tok, w.esc.me, w.esc.questions[id].payer, w.esc.questions[id].amount);
    }
  }

  predicate StepAlike(w: World, u: World, call: Call) {
    AlikeResults(Step(w, call), Step(u, call))
  }

  lemma SettlementAlike(w: World, u: World, call: Call)
    requires Alike(w, u) && (call.DoResolve? || call.DoConsensus? || call.DoEscalateResolve? || call.DoFinalize?)
    ensures StepAlike(w, u, call)
  {
    hide SettleTogether, CheckLists, Resolve, Lists, DistinctWorkers, LoserSlash, Dissenter, Get;
    match call
    case DoResolve(id, workers, losers) => ResolveAlike(w, u, id, workers, losers);
    case DoConsensus(id, answers) =>
      if DistinctWorkers(answers) && Dissenter(answers).Ok? {
        var lists := Lists(w.esc.board, w.esc.config.established, answers, Dissenter(answers).value);
        ResolveAlike(w, u, id, lists.workers, lists.losers);
      }
    case DoEscalateResolve(id, workers, losers) =>
      if id in w.esc.questions {
        var q := w.esc.questions[id];
        SettleTogetherAlike(w.(esc := w.esc.(escalated := w.esc.escalated - {id})),
                            u.(esc := u.esc.(escalated := u.esc.escalated - {id})),
                            id, q, workers, losers, 0, LoserSlash(q.amount, w.now));
      }
    case DoFinalize(id) =>
      if id in w.esc.questions && id in w.esc.resolutions {
        var q, res := w.esc.questions[id], w.esc.resolutions[id];
        SettleTogetherAlike(
          w.(esc := w.esc.(resolutions := w.esc.resolutions - {id}, bonds := w.esc.bonds - {id})),
          u.(esc := u.esc.(resolutions := u.esc.resolutions - {id}, bonds := u.esc.bonds - {id})),
          id, q, res.workers, res.losers, BondAmount(w.esc, id), LoserSlash(q.amount, w.now));
      }
  }

  lemma PayoutsAlike(w: World, u: World, call: Call)
    requires Alike(w, u) && (call.DoWithdrawBalance? || call.DoCompleteUnstake? || call.DoWithdraw?)
    ensures StepAlike(w, u, call)
  {
    hide Transfer, StakeOf;
    match call
    case DoWithdrawBalance(payer, amount) => PayoutAlike(w.tok, u.tok, w.esc.me, payer, amount);
    case DoCompleteUnstake(worker) =>
      var r := Release(StakeOf(w.esc, worker), w.now);
      if r.Ok? {
        PayoutAlike(w.tok, u.tok, w.esc.me, worker, r.value.1);
      }
    case DoWithdraw(_, recipient, amount) => PayoutAlike(w.tok, u.tok, w.esc.me, recipient, amount);
  }

  lemma SilentAlike(w: World, u: World, call: Call)
    requires Alike(w, u)
    requires call.DoCharge? || call.DoEscalate? || call.DoResolveChallengeable? || call.DoDispute?
             || call.DoBeginUnstake?
    ensures StepAlike(w, u, call)
  {
    hide Add, CheckLists, Unstake, StakeOf;
  }

  /** A call that nobody funds does the same to alike worlds. */
  lemma UnfundedAlike(w: World, u: World, call: Call)
    requires Alike(w, u) && Funding(call).None? && !call.TokenTransfer?
    ensures StepAlike(w, u, call)
  {
    hide Resolve, EscalateResolve, FinalizeResolve, ResolveByConsensus, Charge, DoRefund, RefundTimeout, Escalate,
         ResolveChallengeable, WithdrawBalance, DisputeResolve, BeginUnstake, CompleteUnstake, Withdraw, Sweep, Get;
    match call
    case DoSweep(ids) => SweepAlike(w, u, ids, |ids|);
    case DoRefundNow(id) => TimeoutAlike(w, u, id);
    case DoRefundTimeout(id) => TimeoutAlike(w, u, id);
    case DoResolve(_, _, _) => SettlementAlike(w, u, call);
    case DoConsensus(_, _) => SettlementAlike(w, u, call);
    case DoEscalateResolve(_, _, _) => SettlementAlike(w, u, call);
    case DoFinalize(_) => SettlementAlike(w, u, call);
    case DoWithdrawBalance(_, _) => PayoutsAlike(w, u, call);
    case DoCompleteUnstake(_) => PayoutsAlike(w, u, call);
    case DoWithdraw(_, _, _) => PayoutsAlike(w, u, call);
    case DoCharge(_, _, _) => SilentAlike(w, u, call);
    case DoEscalate(_, _, _) => SilentAlike(w, u, call);
    case DoResolveChallengeable(_, _, _, _) => SilentAlike(w, u, call);
    case DoDispute(_) => SilentAlike(w, u, call);
    case DoBeginUnstake(_, _) => SilentAlike(w, u, call);
    case _ =>
  }

  /** A funded call does the same to alike worlds in which the funder can pay. */
  lemma FundedAlike(w: World, u: World, call: Call)
    requires Alike(w, u) && Funding(call).Some? && w.esc.me in w.contracts
    requires var (from, amount) := Funding(call).value; Get(w.tok, from) >= amount && Get(u.tok, from) >= amount
    ensures StepAlike(w, u, call)
  {
    hide Transfer, Add, TopUp, StakeOf;
    var (from, amount) := Funding(call).value;
    PullAlike(w.tok, u.tok, from, w.esc.me, amount);
  }

  lemma PullAlike(tok: Balances, other: Balances, from: Address, me: Address, amount: int)
    requires Get(tok, me) == Get(other, me) && Get(tok, from) >= amount && Get(other, from) >= amount
    ensures var r, s := Transfer(tok, from, me, amount), Transfer(other, from, me, amount);
            && (r.Ok? <==> s.Ok?) && (r.Err? ==> r == s)
            && (r.Ok? ==> Get(r.value, me) == Get(s.value, me))
  {
  }

  // ---- one step -------------------------------------------------------------------------------

  /** The small token: the escrow's own balance, and what `from` is about to pay. */
  function Small(w: World, from: Address, amount: nat): World {
    w.(tok := map[from := amount][w.esc.me := w.Held()])
  }

  lemma HeldIsBacked(w: World)
    requires Solvent(w)
    ensures w.Held() >= 0
  {
    hide SumBy, Enumerates, Tables;
    ClaimParts(w.esc);
  }

  lemma SmallIsSafe(w: World, from: Address, amount: nat)
    requires Solvent(w) && from != w.esc.me && w.Held() + amount <= I128_MAX
    ensures Inv(Small(w, from, amount)) && Alike(w, Small(w, from, amount))
    ensures Get(Small(w, from, amount).tok, from) == amount
  {
    assert w.Held() >= 0 by { HeldIsBacked(w); }
    hide SoundStore, Claims;
    var nobody: Balances := map[];
    var payer: Balances := map[from := amount];
    assert payer == nobody[from := amount];
    SumUpdate(nobody, from, amount, Identity);
    SumUpdate(payer, w.esc.me, w.Held(), Identity);
    assert SoundToken(Small(w, from, amount).tok);
  }

  /** What one call keeps is what it keeps over the small token. */
  lemma SolventStep(w: World, call: Call)
    requires Solvent(w) && TokenAllows(w, call)
    ensures Step(w, call) != Err(ArithmeticOverflow)
    ensures Step(w, call).Ok? ==> Solvent(Step(w, call).value)
  {
    hide Step, SumBy, SoundStore, Claims, Small;
    MeIsContract(w);
    if call.TokenTransfer? {
      TransferSolvent(w, call.from, call.to, call.amount);
    } else if Funding(call).None? {
      SmallIsSafe(w, w.esc.me + 1, 0);
      UnfundedAlike(w, Small(w, w.esc.me + 1, 0), call);
      StepSafe(Small(w, w.esc.me + 1, 0), call);
    } else {
      var (from, amount) := Funding(call).value;
      if w.Signs(from) && 0 < amount <= Get(w.tok, from) {
        SmallIsSafe(w, from, amount);
        FundedAlike(w, Small(w, from, amount), call);
        StepSafe(Small(w, from, amount), call);
      } else {
        UnfundedFails(w, call);
      }
    }
  }

  lemma MeIsContract(w: World)
    requires Solvent(w)
    ensures w.esc.me in w.contracts
  {
  }

  lemma UnfundedFails(w: World, call: Call)
    requires Funding(call).Some?
    requires var (from, amount) := Funding(call).value; !w.Signs(from) || amount <= 0 || Get(w.tok, from) < amount
    ensures Step(w, call).Err? && Step(w, call) != Err(ArithmeticOverflow)
  {
    hide Add, TopUp, StakeOf;
  }

  lemma TransferSolvent(w: World, from: Address, to: Address, amount: int)
    requires Solvent(w)
    ensures Step(w, TokenTransfer(from, to, amount)) != Err(ArithmeticOverflow)
    ensures Step(w, TokenTransfer(from, to, amount)).Ok? ==> Solvent(Step(w, TokenTransfer(from, to, amount)).value)
  {
    hide SumBy, Enumerates, Tables, Books, Claims;
  }

  // ---- whole runs ---------------------------------------------------------------------------------

  /** Solvency and the absence of overflow for any token whose balances fit an i128 one by one. */
  lemma {:induction false} SolventOverBalances(w: World, calls: seq<Call>, k: nat)
    requires k <= |calls| && Deployed(w) && w.Held() >= 0
    requires forall i :: 0 <= i < k ==> TokenAllows(Run(w, calls, i), calls[i])
    ensures Solvent(Run(w, calls, k)) && Run(w, calls, k).Held() >= Claims(Run(w, calls, k).esc)
    ensures forall call :: TokenAllows(Run(w, calls, k), call) ==>
              Step(Run(w, calls, k), call) != Err(ArithmeticOverflow)
  {
    hide Step, SumBy, SoundStore, Claims, TokenAllows;
    if k == 0 {
      DeployedSolvent(w);
    } else {
      SolventOverBalances(w, calls, k - 1);
      assert TokenAllows(Run(w, calls, k - 1), calls[k - 1]);
      SolventStep(Run(w, calls, k - 1), calls[k - 1]);
    }
    forall call | TokenAllows(Run(w, calls, k), call) ensures Step(Run(w, calls, k), call) != Err(ArithmeticOverflow) {
      SolventStep(Run(w, calls, k), call);
    }
  }

  lemma DeployedSolvent(w: World)
    requires Deployed(w) && w.Held() >= 0
    ensures Solvent(w)
  {
    assert LiveIds(w.esc.questions) == {};
  }
}
