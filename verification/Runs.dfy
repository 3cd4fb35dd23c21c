/** The main safety results, over every sequence of calls. */
module Runs {
  import opened Base
  import opened Stakes
  import opened StakeTotals
  import opened PendingIndex
  import opened Leaderboard
  import opened Ledger
  import opened Consensus
  import opened Calls
  import opened Invariant
  import opened Solvency

  /** A call of a contract configured as `c` pays nothing to `x`: no plain transfer to it, no withdrawal to
      it, and no settlement with `x` as a payout address. */
  predicate Avoids(c: Config, call: Call, x: Address) {
    match call
    case TokenTransfer(_, to, _) => to != x
    case DoWithdraw(_, recipient, _) => recipient != x
    case DoResolve(_, _, _) | DoConsensus(_, _) | DoEscalateResolve(_, _, _) | DoFinalize(_) => OutsidePayouts(x, c)
    case _ => true
  }

  /** The call sends no tokens into the escrow behind its books. */
  predicate Clean(w: World, call: Call) {
    Avoids(w.esc.config, call, w.esc.me)
  }

  lemma ConfigSafe(w: World, c: Config)
    requires Inv(w) && SaneConfig(c)
    ensures Advances(w, w.(esc := w.esc.(config := c)), true)
  {
    hide SumBy, Enumerates, Tables;
  }

  lemma WaitSafe(w: World, ledgers: nat)
    requires Inv(w)
    ensures w.now + ledgers <= U32_MAX ==> Advances(w, w.(now := w.now + ledgers), true)
  {
    hide SumBy, SoundStore;
  }

  lemma TokenTransferSafe(w: World, from: Address, to: Address, amount: int)
    requires Inv(w)
    ensures var r := Step(w, TokenTransfer(from, to, amount));
            r != Err(ArithmeticOverflow) && (r.Ok? ==> Advances(w, r.value, to != w.esc.me))
  {
    hide SumBy, Enumerates, Tables, Books;
    TransferSound(w.tok, from, to, amount);
  }

  lemma ConsensusSafe(w: World, id: QuestionId, answers: seq<Answer>)
    requires Inv(w)
    ensures var r := ResolveByConsensus(w, id, answers);
            && r != Err(ArithmeticOverflow)
            && (r.Ok? ==> Advances(w, r.value, OutsidePayouts(w.esc.me, w.esc.config)))
  {
    hide SumBy, Inv, Advances, Resolve;
    if DistinctWorkers(answers) && Dissenter(answers).Ok? {
      var lists := Lists(w.esc.board, w.esc.config.established, answers, Dissenter(answers).value);
      ResolveSafe(w, id, lists.workers, lists.losers);
    }
  }

  /** One step: the invariant holds again, every claim stays backed, and no checked i128 addition
      overflowed. */
  lemma StepSafe(w: World, call: Call)
    requires Inv(w)
    ensures Step(w, call) != Err(ArithmeticOverflow)
    ensures Step(w, call).Ok? ==> Advances(w, Step(w, call).value, Clean(w, call))
  {
    hide Inv, Advances, Submit, Deposit, WithdrawBalance, Charge, Reopen, DoRefund, RefundTimeout, Sweep, Resolve,
         ResolveByConsensus, Escalate, EscalateResolve, ResolveChallengeable, PostChallengeBond, DisputeResolve,
         FinalizeResolve, PostStake, BeginUnstake, CompleteUnstake, Withdraw, Transfer;
    match call
    case DoSubmit(payer, id, amount) => SubmitSafe(w, payer, id, amount);
    case DoDeposit(payer, amount) => DepositSafe(w, payer, amount);
    case DoWithdrawBalance(payer, amount) => WithdrawBalanceSafe(w, payer, amount);
    case DoCharge(payer, id, amount) => ChargeSafe(w, payer, id, amount);
    case DoReopen(payer, id, amount) => ReopenSafe(w, payer, id, amount);
    case DoRefundNow(id) => RefundSafe(w, id);
    case DoRefundTimeout(id) => RefundTimeoutSafe(w, id);
    case DoSweep(ids) => SweepSafe(w, ids, |ids|);
    case DoResolve(id, workers, losers) => ResolveSafe(w, id, workers, losers);
    case DoConsensus(id, answers) => ConsensusSafe(w, id, answers);
    case DoEscalate(id, workers, losers) => EscalateSafe(w, id, workers, losers);
    case DoEscalateResolve(id, workers, losers) => EscalateResolveSafe(w, id, workers, losers);
    case DoResolveChallengeable(id, workers, losers, window) =>
      ResolveChallengeableSafe(w, id, workers, losers, window);
    case DoPostBond(challenger, id, amount) => PostBondSafe(w, challenger, id, amount);
    case DoDispute(id) => DisputeSafe(w, id);
    case DoFinalize(id) => FinalizeSafe(w, id);
    case DoStake(worker, amount) => PostStakeSafe(w, worker, amount);
    case DoBeginUnstake(worker, amount) => BeginUnstakeSafe(w, worker, amount);
    case DoCompleteUnstake(worker) => CompleteUnstakeSafe(w, worker);
    case DoWithdraw(worker, recipient, amount) => WithdrawSafe(w, worker, recipient, amount);
    case Wait(ledgers) => WaitSafe(w, ledgers);
    case TokenTransfer(from, to, amount) => TokenTransferSafe(w, from, to, amount);
    case DoSetTimeout(_) => ConfigStepSafe(w, call);
    case DoSetPaused(_) => ConfigStepSafe(w, call);
    case DoSetGoods(_, _) => ConfigStepSafe(w, call);
    case DoSetQuorum(_, _) => ConfigStepSafe(w, call);
    case DoSetEstablished(_) => ConfigStepSafe(w, call);
  }

  lemma ConfigStepSafe(w: World, call: Call)
    requires Inv(w)
    requires call.DoSetTimeout? || call.DoSetPaused? || call.DoSetGoods? || call.DoSetQuorum? || call.DoSetEstablished?
    ensures Step(w, call) != Err(ArithmeticOverflow)
    ensures Step(w, call).Ok? ==> Advances(w, Step(w, call).value, true)
  {
    hide SumBy, Advances, Sweep, Submit, Charge, Reopen, Resolve, ResolveByConsensus, EscalateResolve, FinalizeResolve,
         Transfer;
    if Step(w, call).Ok? {
      ConfigSafe(w, Step(w, call).value.esc.config);
    }
  }

  // ---- whole runs ---------------------------------------------------------------------

  /** A freshly deployed contract: empty storage, a legal timeout, whatever quorum bounds. */
  predicate Deployed(w: World) {
    var s := w.esc;
    && s.me in w.contracts && w.now <= U32_MAX
    && 0 < s.config.timeout <= MAX_TIMEOUT_LEDGERS && s.config.goods.None?
    && s.questions == map[] && s.resolutions == map[] && s.escalated == map[] && s.bonds == map[]
    && s.prepaid == map[] && s.owed == map[] && s.stakes == map[]
    && s.index == EMPTY_INDEX && s.openCount == 0 && s.board == EMPTY_BOARD
  }

  lemma DeployedSafe(w: World)
    requires Deployed(w) && SoundToken(w.tok)
    ensures Inv(w) && Surplus(w) == w.Held()
  {
    HeldBounded(w.tok, w.esc.me);
    assert LiveIds(w.esc.questions) == {};
  }

  /** Solvency: after any calls from a deployed contract its token balance covers every live
      question, prepaid balance, stake bucket, owed balance and bond; no call that could come next fails
      with an overflow, and no token appeared or vanished. */
  lemma {:induction false} AlwaysSolvent(w: World, calls: seq<Call>, k: nat)
    requires k <= |calls| && Deployed(w) && SoundToken(w.tok)
    ensures Inv(Run(w, calls, k))
    ensures Run(w, calls, k).Held() >= Claims(Run(w, calls, k).esc)
    ensures Run(w, calls, k).esc.me == w.esc.me && Run(w, calls, k).contracts == w.contracts
    ensures SumBy(Run(w, calls, k).tok, Identity) == SumBy(w.tok, Identity)
    ensures forall call :: Step(Run(w, calls, k), call) != Err(ArithmeticOverflow)
  {
    hide Step, SumBy, SoundStore, Claims;
    if k == 0 {
      DeployedSafe(w);
    } else {
      AlwaysSolvent(w, calls, k - 1);
      StepSafe(Run(w, calls, k - 1), calls[k - 1]);
    }
    forall call ensures Step(Run(w, calls, k), call) != Err(ArithmeticOverflow) {
      StepSafe(Run(w, calls, k), call);
    }
  }

  /** Exact solvency: when every call is clean, what is held beyond the claims is exactly what was
      held at deployment, so an escrow deployed with no tokens holds its claims to the stroop. */
  lemma {:induction false} ExactlySolvent(w: World, calls: seq<Call>, k: nat)
    requires k <= |calls| && Deployed(w) && SoundToken(w.tok)
    requires forall i :: 0 <= i < k ==> Clean(Run(w, calls, i), calls[i])
    ensures Run(w, calls, k).Held() == w.Held() + Claims(Run(w, calls, k).esc)
  {
    hide Step, SumBy, SoundStore, Clean, Claims;
    if k == 0 {
      DeployedSafe(w);
    } else {
      ExactlySolvent(w, calls, k - 1);
      AlwaysSolvent(w, calls, k - 1);
      StepSafe(Run(w, calls, k - 1), calls[k - 1]);
    }
  }

  /** The contract's plain `+` on a bond's buckets cannot overflow either: in every solvent state,
      read at any ledger, each bucket and each of their sums is backed, so it fits an i128. */
  lemma BucketsFit(w: World, worker: Address, now: nat)
    requires Inv(w) && worker in w.esc.stakes
    ensures var info := Mature(w.esc.stakes[worker], now);
            && 0 <= info.settled <= Active(info) <= Slashable(info) <= w.Held() <= I128_MAX
            && 0 <= info.warming <= Active(info) && 0 <= info.unbonding <= Slashable(info)
  {
    hide SumBy, Enumerates, Tables;
    EveryClaimBacked(w, worker, 0);
    MatureSound(w.esc.stakes[worker], now);
  }
}
