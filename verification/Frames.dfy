/** What one call does: which question it rewrites and from what state, and what it leaves of the side tables
    and the leaderboard. Later modules read the effect of a step off this, not off the calls. */
module Frames {
  import opened Base
  import opened Stakes
  import opened Settlement
  import opened PendingIndex
  import opened Leaderboard
  import opened Ledger
  import opened Consensus
  import opened Calls
  import opened Invariant
  import opened Solvency

  function Lookup(w: World, id: QuestionId): Option<Question> {
    if id in w.esc.questions then Some(w.esc.questions[id]) else None
  }

  /** The legal rewrites of one stored question. Only a refunded question can come back, from its own
      payer and with a fresh clock; everything else about a question is fixed while it is live. */
  predicate Legal(before: Option<Question>, q: Question, now: nat) {
    match before
    case None => q.status == Pending && q.createdAt == now && q.amount > 0
    case Some(was) =>
      match was.status
      case Pending =>
        && (q.status == Resolved || q.status == Refunded || q.status == Disputed || q.status == ResolvedPending)
        && q == was.(status := q.status)
      case Disputed => q == was.(status := Resolved)
      case ResolvedPending => q == was.(status := Resolved)
      case Refunded =>
        && q.status == Pending && q.payer == was.payer && q.timeout == was.timeout
        && q.createdAt == now && q.amount > 0
      case Resolved => false
      case Migrated => false
  }

  datatype Write = Write(id: QuestionId, q: Question)

  function Restatus(w: World, id: QuestionId, status: Status): Option<Write> {
    if id in w.esc.questions then Some(Write(id, w.esc.questions[id].(status := status))) else None
  }

  /** The one question a successful call rewrites; a sweep may rewrite several. */
  function Writes(w: World, call: Call): Option<Write> {
    match call
    case DoSubmit(payer, id, amount) => Some(Write(id, Question(payer, amount, Pending, w.now, w.esc.config.timeout)))
    case DoCharge(payer, id, amount) => Some(Write(id, Question(payer, amount, Pending, w.now, w.esc.config.timeout)))
    case DoReopen(payer, id, amount) =>
      if id in w.esc.questions
      then Some(Write(id, Question(payer, amount, Pending, w.now, w.esc.questions[id].timeout))) else None
    case DoRefundNow(id) => Restatus(w, id, Refunded)
    case DoRefundTimeout(id) => Restatus(w, id, Refunded)
    case DoResolve(id, _, _) => Restatus(w, id, Resolved)
    case DoConsensus(id, _) => Restatus(w, id, Resolved)
    case DoEscalate(id, _, _) => Restatus(w, id, Disputed)
    case DoEscalateResolve(id, _, _) => Restatus(w, id, Resolved)
    case DoResolveChallengeable(id, _, _, _) => Restatus(w, id, ResolvedPending)
    case DoFinalize(id) => Restatus(w, id, Resolved)
    case _ => None
  }

  function Apply(questions: map<QuestionId, Question>, write: Option<Write>): map<QuestionId, Question> {
    if write.None? then questions else questions[write.value.id := write.value.q]
  }

  /** The winners a successful call credits and the losers it slashes. */
  function Judged(w: World, call: Call): Verdict {
    match call
    case DoResolve(_, workers, losers) => Verdict(workers, losers)
    case DoEscalateResolve(_, workers, losers) => Verdict(workers, losers)
    case DoConsensus(_, answers) =>
      var dissenter := Dissenter(answers);
      if dissenter.Ok? then Lists(w.esc.board, w.esc.config.established, answers, dissenter.value) else Verdict([], [])
    case DoFinalize(id) =>
      if id in w.esc.resolutions then Verdict(w.esc.resolutions[id].workers, w.esc.resolutions[id].losers)
      else Verdict([], [])
    case _ => Verdict([], [])
  }

  function Winners(w: World, call: Call): seq<Address> {
    Judged(w, call).workers
  }

  /** The bonds after slashing the losers of one question. */
  function Slashed(w: World, id: QuestionId, verdict: Verdict): Bonds {
    if id in w.esc.questions && verdict.workers != [] then
      Distribute(w.esc.stakes, verdict.losers, |verdict.losers|, LoserSlash(w.esc.questions[id].amount, w.now),
                 |verdict.workers|).stakes
    else w.esc.stakes
  }

  /** The bonds a successful call leaves. */
  function StakesAfter(w: World, call: Call): Bonds {
    match call
    case DoStake(worker, amount) =>
      (match TopUp(StakeOf(w.esc, worker), amount, w.now)
       case Ok(info) => w.esc.stakes[worker := info] case Err(_) => w.esc.stakes)
    case DoBeginUnstake(worker, amount) =>
      (match Unstake(StakeOf(w.esc, worker), amount, w.now, w.esc.config.timeout)
       case Ok(info) => w.esc.stakes[worker := info] case Err(_) => w.esc.stakes)
    case DoCompleteUnstake(worker) =>
      (match Release(StakeOf(w.esc, worker), w.now)
       case Ok(p) => w.esc.stakes[worker := p.0] case Err(_) => w.esc.stakes)
    case DoResolve(id, _, _) => Slashed(w, id, Judged(w, call))
    case DoConsensus(id, _) => Slashed(w, id, Judged(w, call))
    case DoEscalateResolve(id, _, _) => Slashed(w, id, Judged(w, call))
    case DoFinalize(id) => Slashed(w, id, Judged(w, call))
    case _ => w.esc.stakes
  }

  /** What a successful call needs of the entries it rewrites. */
  ghost predicate Starts(w: World, call: Call) {
    match call
    case DoSubmit(_, id, _) => id !in w.esc.questions
    case DoCharge(_, id, _) => id !in w.esc.questions
    case DoReopen(payer, id, _) =>
      HasStatus(w.esc.questions, id, Refunded) && payer == w.esc.questions[id].payer && w.Signs(payer)
    case DoRefundNow(id) => HasStatus(w.esc.questions, id, Pending)
    case DoRefundTimeout(id) => HasStatus(w.esc.questions, id, Pending)
    case DoResolve(id, workers, losers) => HasStatus(w.esc.questions, id, Pending) && Acceptable(workers, losers)
    case DoConsensus(id, _) =>
      HasStatus(w.esc.questions, id, Pending) && Acceptable(Judged(w, call).workers, Judged(w, call).losers)
    case DoEscalate(id, _, _) => HasStatus(w.esc.questions, id, Pending)
    case DoEscalateResolve(id, workers, losers) =>
      HasStatus(w.esc.questions, id, Disputed) && Acceptable(workers, losers)
    case DoResolveChallengeable(id, _, _, _) => HasStatus(w.esc.questions, id, Pending)
    case DoPostBond(_, id, _) => id !in w.esc.bonds && id in w.esc.resolutions
    case DoFinalize(id) => HasStatus(w.esc.questions, id, ResolvedPending) && Finalizable(w, id)
    case _ => true
  }

  /** How a successful call rewrites the recorded resolutions. */
  function ResolutionsAfter(w: World, call: Call): map<QuestionId, Resolution> {
    match call
    case DoResolveChallengeable(id, workers, losers, window) =>
      w.esc.resolutions[id := Resolution(workers, losers, SatAdd(w.now, window), false)]
    case DoDispute(id) =>
      if id in w.esc.resolutions then w.esc.resolutions[id := w.esc.resolutions[id].(disputed := true)]
      else w.esc.resolutions
    case DoFinalize(id) => w.esc.resolutions - {id}
    case _ => w.esc.resolutions
  }

  /** And the challengers' bonds: only a new posting adds one, and only a finalization removes one. */
  function BondsAfter(w: World, call: Call): map<QuestionId, Bond> {
    match call
    case DoPostBond(challenger, id, amount) => w.esc.bonds[id := Bond(challenger, amount)]
    case DoFinalize(id) => w.esc.bonds - {id}
    case _ => w.esc.bonds
  }

  /** `v` is what `call` leaves of `w`; a batch is left to its own lemmas as far as questions go. */
  ghost predicate Framed(w: World, call: Call, v: World) {
    && Starts(w, call)
    && (!call.DoSweep? ==> v.esc.questions == Apply(w.esc.questions, Writes(w, call)))
    && (Writes(w, call).Some? ==> Legal(Lookup(w, Writes(w, call).value.id), Writes(w, call).value.q, w.now))
    && v.esc.resolutions == ResolutionsAfter(w, call) && v.esc.bonds == BondsAfter(w, call)
    && Ok(v.esc.board) == RecordAll(w.esc.board, Winners(w, call), |Winners(w, call)|)
    && v.esc.stakes == StakesAfter(w, call)
    && v.now == w.now + if call.Wait? then call.ledgers else 0
  }

  predicate Untouched(w: World, v: World) {
    && v.esc.resolutions == w.esc.resolutions && v.esc.bonds == w.esc.bonds && v.esc.board == w.esc.board
    && v.esc.stakes == w.esc.stakes && v.now == w.now
  }

  lemma RefundTimeoutWrites(w: World, id: QuestionId)
    ensures var r := RefundTimeout(w, id);
            r.Ok? ==>
              && HasStatus(w.esc.questions, id, Pending) && Untouched(w, r.value)
              && r.value.esc.questions == w.esc.questions[id := w.esc.questions[id].(status := Refunded)]
  {
    hide Transfer, Remove;
  }

  lemma {:induction false} SweepUntouched(w: World, ids: seq<QuestionId>, k: nat)
    requires k <= |ids| && Sweep(w, ids, k).Ok?
    ensures Untouched(w, Sweep(w, ids, k).value.0)
  {
    hide RefundTimeout;
    if k > 0 {
      SweepUntouched(w, ids, k - 1);
      RefundTimeoutWrites(Sweep(w, ids, k - 1).value.0, ids[k - 1]);
    }
  }

  /** A settlement rewrites one question, records its winners, slashes its losers and leaves the tables alone. */
  ghost predicate Settles(w: World, id: QuestionId, q: Question, verdict: Verdict, f: Slasher, v: World) {
    var (workers, losers) := (verdict.workers, verdict.losers);
    && workers != [] && v.esc.stakes == Distribute(w.esc.stakes, losers, |losers|, f, |workers|).stakes
    && v.now == w.now && v.esc.questions == w.esc.questions[id := q.(status := Resolved)]
    && v.esc.resolutions == w.esc.resolutions && v.esc.bonds == w.esc.bonds
    && Ok(v.esc.board) == RecordAll(w.esc.board, workers, |workers|)
  }

  lemma ResolveFramed(w: World, id: QuestionId, workers: seq<Address>, losers: seq<Address>)
    ensures var r := Resolve(w, id, workers, losers);
            r.Ok? ==>
              && HasStatus(w.esc.questions, id, Pending) && Acceptable(workers, losers)
              && Settles(w, id, w.esc.questions[id], Verdict(workers, losers),
                         LoserSlash(w.esc.questions[id].amount, w.now), r.value)
  {
    hide Distribute, LoserSlash, CreditAll, RouteTake, RecordAll, DistinctLists, Remove;
  }

  lemma TogetherFramed(w: World, id: QuestionId, q: Question, workers: seq<Address>, losers: seq<Address>,
                       forfeited: int, f: Slasher)
    ensures var r := SettleTogether(w, id, q, workers, losers, forfeited, f);
            r.Ok? ==> Settles(w, id, q, Verdict(workers, losers), f, r.value)
  {
    hide Distribute, RouteTake, Remove, RecordAll, CreditAndRecord;
    if SettleTogether(w, id, q, workers, losers, forfeited, f).Ok? {
      var bill := MakeBill(w.esc.stakes, q.amount, |workers|, losers, f).value;
      TogetherIsApart(w.esc.owed, w.esc.board, workers, |workers|, bill.workerCredit);
    }
  }

  ghost predicate StepFrames(w: World, call: Call) {
    Step(w, call).Ok? ==> Framed(w, call, Step(w, call).value)
  }

  lemma SettlementFramed(w: World, call: Call)
    requires call.DoResolve? || call.DoConsensus? || call.DoEscalateResolve? || call.DoFinalize?
    ensures StepFrames(w, call)
  {
    hide SettleTogether, CheckLists, Resolve, Lists, DistinctWorkers, RecordAll, LoserSlash, Distribute;
    match call
    case DoResolve(id, workers, losers) => ResolveFramed(w, id, workers, losers);
    case DoConsensus(id, answers) =>
      if Step(w, call).Ok? {
        var lists := Lists(w.esc.board, w.esc.config.established, answers, Dissenter(answers).value);
        ResolveFramed(w, id, lists.workers, lists.losers);
      }
    case DoEscalateResolve(id, workers, losers) =>
      CheckListsMeans(w.esc.config, workers, losers, true);
      if id in w.esc.questions {
        var q := w.esc.questions[id];
        var ready := w.(esc := w.esc.(escalated := w.esc.escalated - {id}));
        TogetherFramed(ready, id, q, workers, losers, 0, LoserSlash(q.amount, w.now));
      }
    case DoFinalize(id) =>
      if id in w.esc.questions && id in w.esc.resolutions {
        var q, res := w.esc.questions[id], w.esc.resolutions[id];
        var ready := w.(esc := w.esc.(resolutions := w.esc.resolutions - {id}, bonds := w.esc.bonds - {id}));
        TogetherFramed(ready, id, q, res.workers, res.losers, BondAmount(w.esc, id), LoserSlash(q.amount, w.now));
      }
  }

  lemma QuestionFramed(w: World, call: Call)
    requires call.DoSubmit? || call.DoCharge? || call.DoReopen? || call.DoRefundNow? || call.DoRefundTimeout?
             || call.DoEscalate? || call.DoResolveChallengeable?
    ensures StepFrames(w, call)
  {
    hide Transfer, Add, Remove, CheckLists;
  }

  lemma MoneyFramed(w: World, call: Call)
    requires call.DoDeposit? || call.DoWithdrawBalance? || call.DoPostBond? || call.DoDispute? || call.DoStake?
             || call.DoBeginUnstake? || call.DoCompleteUnstake? || call.DoWithdraw? || call.TokenTransfer?
    ensures StepFrames(w, call)
  {
    hide Transfer, TopUp, Unstake, Release, StakeOf;
  }

  /** Every successful call leaves exactly these tables and records exactly its winners, in order. */
  lemma StepFramed(w: World, call: Call)
    ensures StepFrames(w, call)
  {
    hide Resolve, EscalateResolve, FinalizeResolve, ResolveByConsensus, Submit, Charge, Reopen, DoRefund, RefundTimeout,
         Escalate, ResolveChallengeable, Deposit, WithdrawBalance, PostChallengeBond, DisputeResolve, PostStake,
         BeginUnstake, CompleteUnstake, Withdraw, Transfer, Sweep;
    match call
    case DoSweep(ids) =>
      if Sweep(w, ids, |ids|).Ok? {
        SweepUntouched(w, ids, |ids|);
      }
    case DoResolve(_, _, _) => SettlementFramed(w, call);
    case DoConsensus(_, _) => SettlementFramed(w, call);
    case DoEscalateResolve(_, _, _) => SettlementFramed(w, call);
    case DoFinalize(_) => SettlementFramed(w, call);
    case DoSubmit(_, _, _) => QuestionFramed(w, call);
    case DoCharge(_, _, _) => QuestionFramed(w, call);
    case DoReopen(_, _, _) => QuestionFramed(w, call);
    case DoRefundNow(_) => QuestionFramed(w, call);
    case DoRefundTimeout(_) => QuestionFramed(w, call);
    case DoEscalate(_, _, _) => QuestionFramed(w, call);
    case DoResolveChallengeable(_, _, _, _) => QuestionFramed(w, call);
    case DoDeposit(_, _) => MoneyFramed(w, call);
    case DoWithdrawBalance(_, _) => MoneyFramed(w, call);
    case DoPostBond(_, _, _) => MoneyFramed(w, call);
    case DoDispute(_) => MoneyFramed(w, call);
    case DoStake(_, _) => MoneyFramed(w, call);
    case DoBeginUnstake(_, _) => MoneyFramed(w, call);
    case DoCompleteUnstake(_) => MoneyFramed(w, call);
    case DoWithdraw(_, _, _) => MoneyFramed(w, call);
    case TokenTransfer(_, _, _) => MoneyFramed(w, call);
    case _ =>
  }
}
