/** Every refusal tells the truth: the error a call returns names something about its arguments or the state
    that the caller could have looked up beforehand, and so is never a reason to guess. Only an abort of the host
    says nothing. */
module Refusals {
  import opened Base
  import opened Stakes
  import opened StakeTotals
  import opened Settlement
  import opened Ledger
  import opened Consensus
  import opened Calls
  import opened Invariant
  import opened Solvency
  import opened Frames
  import opened Pausing
  import PendingIndex
  import Leaderboard

  /** The amount a call asks to move, where it names one. */
  function AmountOf(call: Call): Option<int> {
    match call
    case DoSubmit(_, _, amount) => Some(amount)
    case DoDeposit(_, amount) => Some(amount)
    case DoWithdrawBalance(_, amount) => Some(amount)
    case DoCharge(_, _, amount) => Some(amount)
    case DoReopen(_, _, amount) => Some(amount)
    case DoStake(_, amount) => Some(amount)
    case DoBeginUnstake(_, amount) => Some(amount)
    case DoWithdraw(_, _, amount) => Some(amount)
    case _ => None
  }

  function IdOf(call: Call): Option<QuestionId> {
    match call
    case DoSubmit(_, id, _) => Some(id)
    case DoCharge(_, id, _) => Some(id)
    case DoReopen(_, id, _) => Some(id)
    case DoRefundNow(id) => Some(id)
    case DoRefundTimeout(id) => Some(id)
    case DoResolve(id, _, _) => Some(id)
    case DoConsensus(id, _) => Some(id)
    case DoEscalate(id, _, _) => Some(id)
    case DoEscalateResolve(id, _, _) => Some(id)
    case DoResolveChallengeable(id, _, _, _) => Some(id)
    case DoPostBond(_, id, _) => Some(id)
    case DoDispute(id) => Some(id)
    case DoFinalize(id) => Some(id)
    case _ => None
  }

  /** The lists a call is judged by. */
  function ListsOf(w: World, call: Call): Verdict {
    match call
    case DoEscalate(_, workers, losers) => Verdict(workers, losers)
    case DoResolveChallengeable(_, workers, losers, _) => Verdict(workers, losers)
    case _ => Judged(w, call)
  }

  /** The call's question exists, and is in another status. */
  ghost predicate Elsewhere(w: World, call: Call, status: Status) {
    var id := IdOf(call);
    id.Some? && id.value in w.esc.questions && w.esc.questions[id.value].status != status
  }

  ghost predicate Reason(w: World, call: Call, e: Error) {
    var id, amount, lists := IdOf(call), AmountOf(call), ListsOf(w, call);
    var listed := |lists.workers| + |lists.losers|;
    match e
    case ContractPaused => w.esc.config.paused && Entry(call)
    case InvalidAmount =>
      if call.DoSetQuorum? then call.minQuorum > call.maxQuorum else amount.Some? && amount.value <= 0
    case InvalidBondAmount => call.DoPostBond? && call.amount <= 0
    case InvalidTimeout => call.DoSetTimeout? && !(0 < call.timeout <= 120_960)
    case InvalidPublicGoodsBps => call.DoSetGoods? && call.bps > 10_000
    case QuestionAlreadyExists => (call.DoSubmit? || call.DoCharge?) && id.value in w.esc.questions
    case QuestionNotFound => id.Some? && id.value !in w.esc.questions
    case QuestionNotPending => Elsewhere(w, call, Pending)
    case QuestionNotPendingForEscalation => call.DoEscalate? && Elsewhere(w, call, Pending)
    case QuestionNotDisputed => call.DoEscalateResolve? && Elsewhere(w, call, Disputed)
    case QuestionNotRefunded =>
      call.DoReopen? && id.value in w.esc.questions
      && (Elsewhere(w, call, Refunded) || w.esc.questions[id.value].payer != call.payer)
    case TooEarlyForTimeout =>
      call.DoRefundTimeout? && HasStatus(w.esc.questions, id.value, Pending)
      && w.now < w.esc.questions[id.value].createdAt + w.esc.questions[id.value].timeout
    case InsufficientBalance =>
      (call.DoWithdrawBalance? || call.DoCharge?) && amount.value > Get(w.esc.prepaid, call.payer)
    case NothingOwed => call.DoWithdraw? && Get(w.esc.owed, call.worker) <= 0
    case InsufficientOwed => call.DoWithdraw? && 0 < Get(w.esc.owed, call.worker) < call.amount
    case InsufficientStake => call.DoBeginUnstake? && call.amount > Active(StakeOf(w.esc, call.worker))
    case NothingUnbonding => call.DoCompleteUnstake? && StakeOf(w.esc, call.worker).unbonding <= 0
    case UnbondingNotElapsed =>
      call.DoCompleteUnstake? && StakeOf(w.esc, call.worker).unbonding > 0
      && w.now < StakeOf(w.esc, call.worker).releaseAt
    case NoWorkers => lists.workers == []
    case QuorumTooLarge => if call.DoConsensus? then |call.answers| > 64 else listed > 64
    case QuorumOutOfBounds => !(w.esc.config.minQuorum <= listed <= w.esc.config.maxQuorum)
    case InvalidWorkerLists => !NoDup(lists.workers + lists.losers)
    case EmptyAnswerSet => call.DoConsensus? && call.answers == []
    case DuplicateAnswerAddress => call.DoConsensus? && !DistinctWorkers(call.answers)
    case NoUnanimousConsensus =>
      call.DoConsensus? && !Unanimous(call.answers, -1) && forall i :: !LoneDissenter(call.answers, i)
    case NoPendingResolution => id.Some? && id.value !in w.esc.resolutions
    case NoChallengeableResolution =>
      call.DoPostBond? && (id.value in w.esc.resolutions ==> w.now >= w.esc.resolutions[id.value].deadline)
    case BondAlreadyPosted => call.DoPostBond? && id.value in w.esc.bonds
    case DisputeWindowNotElapsed =>
      call.DoFinalize? && id.value in w.esc.resolutions && w.now <= w.esc.resolutions[id.value].deadline
    case QuestionDisputed => call.DoFinalize? && id.value in w.esc.resolutions && w.esc.resolutions[id.value].disputed
    case Trap => true
    case _ => false
  }

  /** `r` is no refusal, or gives its reason. */
  ghost predicate Truthful(w: World, call: Call, r: Result<World>) {
    r.Err? ==> Reason(w, call, r.error)
  }

  /** In every solvent state. */
  lemma RefusalsAreTrue(w: World, call: Call)
    requires Inv(w)
    ensures Truthful(w, call, Step(w, call))
  {
    hide Reason, Inv, Submit, Charge, Reopen, DoRefund, RefundTimeout, Sweep, Resolve, ResolveByConsensus, Escalate,
         EscalateResolve, ResolveChallengeable, PostChallengeBond, DisputeResolve, FinalizeResolve, PostStake,
         BeginUnstake, CompleteUnstake, Deposit, WithdrawBalance, Withdraw, Transfer;
    match call
    case DoSubmit(payer, id, amount) => SubmitTruthful(w, payer, id, amount);
    case DoCharge(payer, id, amount) => ChargeTruthful(w, payer, id, amount);
    case DoReopen(payer, id, amount) => ReopenTruthful(w, payer, id, amount);
    case DoRefundNow(id) => RefundTruthful(w, id);
    case DoRefundTimeout(id) => RefundTruthful(w, id);
    case DoSweep(ids) => SweepSafe(w, ids, |ids|);
    case DoResolve(id, workers, losers) => ResolveTruthful(w, id, workers, losers);
    case DoConsensus(id, answers) => ConsensusTruthful(w, id, answers);
    case DoEscalate(id, workers, losers) => MarkingTruthful(w, id, workers, losers, 0);
    case DoResolveChallengeable(id, workers, losers, window) => MarkingTruthful(w, id, workers, losers, window);
    case DoEscalateResolve(id, workers, losers) => EscalateResolveTruthful(w, id, workers, losers);
    case DoFinalize(id) => FinalizeTruthful(w, id);
    case DoPostBond(challenger, id, amount) => PostBondTruthful(w, challenger, id, amount);
    case DoDispute(id) => DisputeTruthful(w, id);
    case DoStake(worker, amount) => StakeTruthful(w, worker, amount);
    case DoBeginUnstake(worker, amount) => BeginUnstakeTruthful(w, worker, amount);
    case DoCompleteUnstake(worker) => CompleteUnstakeTruthful(w, worker);
    case DoDeposit(payer, amount) => DepositTruthful(w, payer, amount);
    case DoWithdrawBalance(payer, amount) => WithdrawBalanceTruthful(w, payer, amount);
    case DoWithdraw(worker, recipient, amount) => WithdrawTruthful(w, worker, recipient, amount);
    case _ => SettingTruthful(w, call);
  }

  // ---- funding -----------------------------------------------------------------------------

  lemma TransferTraps(tok: Balances, from: Address, to: Address, amount: int)
    ensures Transfer(tok, from, to, amount).Err? ==> Transfer(tok, from, to, amount).error == Trap
  {
  }

  lemma PullTraps(w: World, from: Address, amount: int)
    ensures Pull(w, from, amount).Err? ==> Pull(w, from, amount).error == Trap
    ensures Pull(w, from, amount).Ok? ==> Pull(w, from, amount).value == w.(tok := Pull(w, from, amount).value.tok)
  {
  }

  lemma IndexTraps(index: PendingIndex.Index, id: QuestionId)
    ensures PendingIndex.Add(index, id).Err? ==> PendingIndex.Add(index, id).error == Trap
    ensures PendingIndex.Remove(index, id).Err? ==> PendingIndex.Remove(index, id).error == Trap
  {
  }

  lemma SubmitTruthful(w: World, payer: Address, id: QuestionId, amount: int)
    ensures Truthful(w, DoSubmit(payer, id, amount), Submit(w, payer, id, amount))
  {
    hide Pull, PendingIndex.Add;
    PullTraps(w, payer, amount);
    IndexTraps(w.esc.index, id);
  }

  lemma ChargeTruthful(w: World, payer: Address, id: QuestionId, amount: int)
    ensures Truthful(w, DoCharge(payer, id, amount), Charge(w, payer, id, amount))
  {
    hide PendingIndex.Add;
    IndexTraps(w.esc.index, id);
  }

  lemma ReopenTruthful(w: World, payer: Address, id: QuestionId, amount: int)
    ensures Truthful(w, DoReopen(payer, id, amount), Reopen(w, payer, id, amount))
  {
    hide Pull, PendingIndex.Add;
    PullTraps(w, payer, amount);
    IndexTraps(w.esc.index, id);
  }

  lemma DepositTruthful(w: World, payer: Address, amount: int)
    requires Inv(w)
    ensures Truthful(w, DoDeposit(payer, amount), Deposit(w, payer, amount))
  {
    hide Inv, Pull;
    PullTraps(w, payer, amount);
    DepositSafe(w, payer, amount);
  }

  lemma WithdrawBalanceTruthful(w: World, payer: Address, amount: int)
    ensures Truthful(w, DoWithdrawBalance(payer, amount), WithdrawBalance(w, payer, amount))
  {
    hide Transfer;
    TransferTraps(w.tok, w.esc.me, payer, amount);
  }

  lemma WithdrawTruthful(w: World, worker: Address, recipient: Address, amount: int)
    ensures Truthful(w, DoWithdraw(worker, recipient, amount), Withdraw(w, worker, recipient, amount))
  {
    hide Transfer;
    TransferTraps(w.tok, w.esc.me, recipient, amount);
  }

  // ---- stakes --------------------------------------------------------------------------------

  lemma StakeTruthful(w: World, worker: Address, amount: int)
    requires Inv(w)
    ensures Truthful(w, DoStake(worker, amount), PostStake(w, worker, amount))
  {
    hide Inv, Pull, StakeOf, Mature;
    PullTraps(w, worker, amount);
    PostStakeSafe(w, worker, amount);
  }

  lemma BeginUnstakeTruthful(w: World, worker: Address, amount: int)
    requires Inv(w)
    ensures Truthful(w, DoBeginUnstake(worker, amount), BeginUnstake(w, worker, amount))
  {
    hide SumBy, StakeOf, Mature, DrainWarming, Tables, PendingIndex.Enumerates;
    BeginUnstakeSafe(w, worker, amount);
    StakeBounded(w.esc, worker);
    MatureSound(StakeOf(w.esc, worker), w.now);
  }

  lemma CompleteUnstakeTruthful(w: World, worker: Address)
    ensures Truthful(w, DoCompleteUnstake(worker), CompleteUnstake(w, worker))
  {
    hide StakeOf, Transfer;
    TransferTraps(w.tok, w.esc.me, worker, StakeOf(w.esc, worker).unbonding);
  }

  // ---- questions -----------------------------------------------------------------------------

  lemma RefundTruthful(w: World, id: QuestionId)
    requires Inv(w)
    ensures Truthful(w, DoRefundNow(id), DoRefund(w, id))
    ensures Truthful(w, DoRefundTimeout(id), RefundTimeout(w, id))
  {
    hide Inv, Transfer, PendingIndex.Remove;
    RefundSafe(w, id);
    RefundTimeoutSafe(w, id);
  }

  lemma MarkingTruthful(w: World, id: QuestionId, workers: seq<Address>, losers: seq<Address>, window: nat)
    ensures Truthful(w, DoEscalate(id, workers, losers), Escalate(w, id, workers, losers))
    ensures Truthful(w, DoResolveChallengeable(id, workers, losers, window),
                     ResolveChallengeable(w, id, workers, losers, window))
  {
    hide DistinctLists;
    DistinctListsConcat(workers, losers);
  }

  lemma RecordedMeans(w: World, id: QuestionId)
    requires Inv(w)
    ensures id in w.esc.resolutions <==> HasStatus(w.esc.questions, id, ResolvedPending)
  {
    hide SumBy, Books, PendingIndex.Enumerates;
  }

  lemma PostBondTruthful(w: World, challenger: Address, id: QuestionId, amount: int)
    requires Inv(w)
    ensures Truthful(w, DoPostBond(challenger, id, amount), PostChallengeBond(w, challenger, id, amount))
  {
    hide Inv, Pull;
    PullTraps(w, challenger, amount);
    RecordedMeans(w, id);
  }

  lemma DisputeTruthful(w: World, id: QuestionId)
    ensures Truthful(w, DoDispute(id), DisputeResolve(w, id))
  {
  }

  lemma SettingTruthful(w: World, call: Call)
    requires call.DoSetTimeout? || call.DoSetPaused? || call.DoSetGoods? || call.DoSetQuorum? || call.DoSetEstablished?
             || call.Wait? || call.TokenTransfer?
    ensures Truthful(w, call, Step(w, call))
  {
    hide Transfer;
    if call.TokenTransfer? {
      TransferTraps(w.tok, call.from, call.to, call.amount);
    }
  }

  // ---- settlements -----------------------------------------------------------------------

  /** Past its guards a settlement can only trap or overflow, and in a solvent state it does not overflow. */
  predicate Hard<T>(r: Result<T>) {
    r.Err? ==> r.error == Trap || r.error == ArithmeticOverflow
  }

  lemma {:induction false} CreditsHard(owed: map<Address, int>, board: Leaderboard.Board, workers: seq<Address>, k: nat,
                                       credit: int)
    requires k <= |workers|
    ensures Hard(CreditAll(owed, workers, k, credit)) && Hard(Leaderboard.RecordAll(board, workers, k))
    ensures Hard(CreditAndRecord(owed, board, workers, k, credit))
  {
    if k > 0 {
      CreditsHard(owed, board, workers, k - 1, credit);
    }
  }

  lemma RouteHard(tok: Balances, me: Address, c: Config, take: int)
    ensures Hard(RouteTake(tok, me, c, take))
  {
  }

  lemma TogetherHard(w: World, id: QuestionId, q: Question, workers: seq<Address>, losers: seq<Address>, forfeited: int,
                     f: Slasher)
    ensures Hard(SettleTogether(w, id, q, workers, losers, forfeited, f))
  {
    hide UncheckedBill, RouteTake, CreditAndRecord;
    if workers != [] {
      var bill := UncheckedBill(w.esc.stakes, q.amount, |workers|, losers, f);
      CreditsHard(w.esc.owed, w.esc.board, workers, |workers|, bill.workerCredit);
      RouteHard(w.tok, w.esc.me, w.esc.config, bill.platformTake + forfeited);
    }
  }

  /** Where the list checks fail, the reason is in the lists. */
  lemma ListsTruthful(w: World, call: Call, workers: seq<Address>, losers: seq<Address>)
    requires ListsOf(w, call) == Verdict(workers, losers) && !call.DoConsensus?
    ensures CheckLists(w.esc.config, workers, losers, true).Err? ==>
              Reason(w, call, CheckLists(w.esc.config, workers, losers, true).error)
  {
    hide DistinctLists, Judged;
    DistinctListsConcat(workers, losers);
  }

  /** Past the list checks and the status, resolve() is hard. */
  lemma ResolveHard(w: World, id: QuestionId, workers: seq<Address>, losers: seq<Address>)
    requires CheckLists(w.esc.config, workers, losers, true).Ok? && HasStatus(w.esc.questions, id, Pending)
    ensures Hard(Resolve(w, id, workers, losers))
  {
    hide UncheckedBill, RouteTake, CreditAll, Leaderboard.RecordAll, DistinctLists;
    var amount := w.esc.questions[id].amount;
    var bill := UncheckedBill(w.esc.stakes, amount, |workers|, losers, LoserSlash(amount, w.now));
    CreditsHard(w.esc.owed, w.esc.board, workers, |workers|, bill.workerCredit);
    RouteHard(w.tok, w.esc.me, w.esc.config, bill.platformTake);
  }

  lemma ResolveGuarded(w: World, id: QuestionId, workers: seq<Address>, losers: seq<Address>)
    requires CheckLists(w.esc.config, workers, losers, true).Ok? && !HasStatus(w.esc.questions, id, Pending)
    ensures Resolve(w, id, workers, losers)
            == Err(if id in w.esc.questions then QuestionNotPending else QuestionNotFound)
  {
    hide CheckLists, SettleAsset;
  }

  lemma ResolveListed(w: World, id: QuestionId, workers: seq<Address>, losers: seq<Address>)
    requires CheckLists(w.esc.config, workers, losers, true).Err?
    ensures Resolve(w, id, workers, losers) == Err(CheckLists(w.esc.config, workers, losers, true).error)
  {
    hide CheckLists, SettleAsset;
  }

  lemma ResolveTruthful(w: World, id: QuestionId, workers: seq<Address>, losers: seq<Address>)
    requires Inv(w)
    ensures Truthful(w, DoResolve(id, workers, losers), Resolve(w, id, workers, losers))
  {
    hide Inv, Resolve, CheckLists;
    ResolveSafe(w, id, workers, losers);
    if CheckLists(w.esc.config, workers, losers, true).Err? {
      hide Reason;
      ResolveListed(w, id, workers, losers);
      ListsTruthful(w, DoResolve(id, workers, losers), workers, losers);
    } else if HasStatus(w.esc.questions, id, Pending) {
      ResolveHard(w, id, workers, losers);
    } else {
      ResolveGuarded(w, id, workers, losers);
    }
  }

  lemma EscalateResolveTruthful(w: World, id: QuestionId, workers: seq<Address>, losers: seq<Address>)
    requires Inv(w)
    ensures Truthful(w, DoEscalateResolve(id, workers, losers), EscalateResolve(w, id, workers, losers))
  {
    hide Inv, SettleTogether, CheckLists;
    EscalateResolveSafe(w, id, workers, losers);
    ListsTruthful(w, DoEscalateResolve(id, workers, losers), workers, losers);
    if id in w.esc.questions {
      var q := w.esc.questions[id];
      TogetherHard(w.(esc := w.esc.(escalated := w.esc.escalated - {id})), id, q, workers, losers, 0,
                   LoserSlash(q.amount, w.now));
    }
  }

  lemma FinalizeTruthful(w: World, id: QuestionId)
    requires Inv(w)
    ensures Truthful(w, DoFinalize(id), FinalizeResolve(w, id))
  {
    hide Inv, SettleTogether;
    FinalizeSafe(w, id);
    RecordedMeans(w, id);
    if id in w.esc.questions && id in w.esc.resolutions {
      var q, res := w.esc.questions[id], w.esc.resolutions[id];
      TogetherHard(w.(esc := w.esc.(resolutions := w.esc.resolutions - {id}, bonds := w.esc.bonds - {id})),
                   id, q, res.workers, res.losers, BondAmount(w.esc, id), LoserSlash(q.amount, w.now));
    }
  }

  /** Lists made out of answers are never empty, too long or repetitive, so only the quorum bounds can refuse them;
      the rest is resolve()'s. */
  lemma AnswersTruthful(w: World, id: QuestionId, answers: seq<Answer>)
    requires Inv(w) && 0 < |answers| <= MAX_QUORUM_SIZE && DistinctWorkers(answers) && Dissenter(answers).Ok?
    ensures var lists := Judged(w, DoConsensus(id, answers));
            Truthful(w, DoConsensus(id, answers), Resolve(w, id, lists.workers, lists.losers))
  {
    hide Inv, Resolve, Dissenter, DistinctWorkers, CheckLists, Lists, DistinctLists;
    var lists := Judged(w, DoConsensus(id, answers));
    ConsensusListsValid(w.esc.board, w.esc.config.established, answers);
    BoundsOnly(w.esc.config, lists.workers, lists.losers);
    ResolveSafe(w, id, lists.workers, lists.losers);
    if CheckLists(w.esc.config, lists.workers, lists.losers, true).Err? {
      ResolveListed(w, id, lists.workers, lists.losers);
    } else if HasStatus(w.esc.questions, id, Pending) {
      ResolveHard(w, id, lists.workers, lists.losers);
    } else {
      ResolveGuarded(w, id, lists.workers, lists.losers);
    }
  }

  lemma ConsensusTruthful(w: World, id: QuestionId, answers: seq<Answer>)
    requires Inv(w)
    ensures Truthful(w, DoConsensus(id, answers), ResolveByConsensus(w, id, answers))
  {
    hide Inv, Resolve, Unanimous, LoneDissenter, DistinctWorkers, Lists;
    DissenterDecides(answers);
    if 0 < |answers| <= MAX_QUORUM_SIZE && DistinctWorkers(answers) && Dissenter(answers).Ok? {
      hide Reason;
      AnswersTruthful(w, id, answers);
    }
  }

  lemma BoundsOnly(c: Config, workers: seq<Address>, losers: seq<Address>)
    requires Acceptable(workers, losers)
    ensures CheckLists(c, workers, losers, true).Err? ==>
              && CheckLists(c, workers, losers, true).error == QuorumOutOfBounds
              && !(c.minQuorum <= |workers| + |losers| <= c.maxQuorum)
  {
    hide DistinctLists;
  }
}
