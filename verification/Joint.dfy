/** Two instances over every joint run: records that are closed stay closed on either side, every amount is
    accounted for, and each side holds its claims exactly. */
module Joint {
  import opened Base
  import opened Stakes
  import opened Settlement
  import opened PendingIndex
  import opened Ledger
  import opened Consensus
  import opened Calls
  import opened Invariant
  import opened Solvency
  import opened Runs
  import opened Lifecycle
  import opened Frames
  import opened TwoStep
  import opened Migration
  import opened Obligations

  // ---- closed records ------------------------------------------------------------------

  /** Both sides keep every closed record. */
  ghost predicate KeepsClosed(p: Pair, v: Pair, id: QuestionId) {
    && (Terminal(Lookup(p.SourceView(), id)) ==> Lookup(v.SourceView(), id) == Lookup(p.SourceView(), id))
    && (Terminal(Lookup(p.TargetView(), id)) ==> Lookup(v.TargetView(), id) == Lookup(p.TargetView(), id))
  }

  lemma OwnCallKeepsClosed(w: World, call: Call, id: QuestionId)
    requires Terminal(Lookup(w, id))
    ensures Step(w, call).Ok? ==> Lookup(Step(w, call).value, id) == Lookup(w, id)
  {
    hide Step;
    StepEvolves(w, call, id);
  }

  lemma StepKeepsClosed(p: Pair, call: JointCall, id: QuestionId)
    requires BothInv(p)
    ensures KeepsClosed(p, JointAfter(p, call), id)
  {
    hide BothInv, MovedTogether, Step, MigratePending, MigrateAddresses, HoldingsMoved;
    match call
    case AtSource(c) =>
      if Terminal(Lookup(p.SourceView(), id)) {
        OwnCallKeepsClosed(p.SourceView(), c, id);
      }
    case AtTarget(c) =>
      if Terminal(Lookup(p.TargetView(), id)) {
        OwnCallKeepsClosed(p.TargetView(), c, id);
      }
    case MoveQuestions(ids) =>
      BatchAllOrNothing(p, ids);
      if id in ids && MigratePending(p, ids).Ok? {
        assert Movable(p, id);
      }
    case MoveBalances(addresses) => BalancesConserved(p, addresses, |addresses|);
    case NameSource(_) =>
  }

  lemma KeepsClosedTwice(p: Pair, u: Pair, v: Pair, id: QuestionId)
    requires KeepsClosed(p, u, id) && KeepsClosed(u, v, id)
    ensures KeepsClosed(p, v, id)
  {
  }

  lemma KeepsClosedSame(p: Pair, id: QuestionId)
    ensures KeepsClosed(p, p, id)
  {
  }

  /** In every joint run a resolved or migrated record is final, on whichever side it is. */
  lemma {:induction false} ClosedIsForever(p: Pair, calls: seq<JointCall>, i: nat, k: nat, id: QuestionId)
    requires i <= k <= |calls| && BothDeployed(p) && SoundToken(p.tok)
    ensures KeepsClosed(JointRun(p, calls, i), JointRun(p, calls, k), id)
    decreases k
  {
    hide JointStep, JointAfter, BothInv, SoundToken, BothDeployed, KeepsClosed;
    if i == k {
      KeepsClosedSame(JointRun(p, calls, k), id);
    } else {
      ClosedIsForever(p, calls, i, k - 1, id);
      BothAlwaysSolvent(p, calls, k - 1);
      StepKeepsClosed(JointRun(p, calls, k - 1), calls[k - 1], id);
      KeepsClosedTwice(JointRun(p, calls, i), JointRun(p, calls, k - 1), JointRun(p, calls, k), id);
    }
  }

  // ---- every amount ------------------------------------------------------------------------

  function MigratedAmount(q: Question): int {
    if q.status == Migrated then q.amount else 0
  }

  ghost function GoneFrom(questions: map<QuestionId, Question>): int {
    SumBy(questions, MigratedAmount)
  }

  lemma WriteKeepsGone(questions: map<QuestionId, Question>, write: Option<Write>, now: nat)
    requires write.Some? ==>
               Legal(if write.value.id in questions then Some(questions[write.value.id]) else None, write.value.q, now)
    ensures GoneFrom(Apply(questions, write)) == GoneFrom(questions)
  {
    hide SumBy;
    if write.Some? {
      SumUpdate(questions, write.value.id, write.value.q, MigratedAmount);
    }
  }

  lemma {:induction false} SweepKeepsGone(w: World, ids: seq<QuestionId>, k: nat)
    requires k <= |ids| && Sweep(w, ids, k).Ok?
    ensures GoneFrom(Sweep(w, ids, k).value.0.esc.questions) == GoneFrom(w.esc.questions)
  {
    hide RefundTimeout, SumBy;
    if k > 0 {
      SweepKeepsGone(w, ids, k - 1);
      var u := Sweep(w, ids, k - 1).value.0;
      RefundTimeoutWrites(u, ids[k - 1]);
      if RefundTimeout(u, ids[k - 1]).Ok? {
        WriteKeepsGone(u.esc.questions, Restatus(u, ids[k - 1], Refunded), u.now);
      }
    }
  }

  lemma OwnCallKeepsGone(w: World, call: Call)
    requires Step(w, call).Ok?
    ensures GoneFrom(Step(w, call).value.esc.questions) == GoneFrom(w.esc.questions)
  {
    hide Step, SumBy, Sweep, Writes;
    if call.DoSweep? {
      SweepStep(w, call.ids);
      SweepKeepsGone(w, call.ids, |call.ids|);
    } else {
      StepFramed(w, call);
      WriteKeepsGone(w.esc.questions, Writes(w, call), w.now);
    }
  }

  lemma MigrateOneWrites(p: Pair, id: QuestionId)
    requires MigrateOne(p, id).Ok?
    ensures HasStatus(p.source.questions, id, Pending) && id !in p.target.questions
    ensures var v, q := MigrateOne(p, id).value, p.source.questions[id];
            && v.source.questions == p.source.questions[id := q.(status := Migrated)]
            && v.target.questions == p.target.questions[id := q]
  {
    hide Transfer, Add, Remove;
    assert p.source.questions[id].(status := Pending) == p.source.questions[id];
  }

  /** A batch takes its total out of one side's live questions and puts it into the other's. */
  lemma {:induction false} BatchMoves(p: Pair, ids: seq<QuestionId>, k: nat)
    requires k <= |ids| && MigrateBatch(p, ids, k).Ok?
    ensures var (v, total) := MigrateBatch(p, ids, k).value;
            && InEscrow(v.SourceView()) == InEscrow(p.SourceView()) - total
            && InEscrow(v.TargetView()) == InEscrow(p.TargetView()) + total
            && GoneFrom(v.source.questions) == GoneFrom(p.source.questions) + total
  {
    hide MigrateOne, SumBy;
    if k > 0 {
      BatchMoves(p, ids, k - 1);
      var u, id := MigrateBatch(p, ids, k - 1).value.0, ids[k - 1];
      MigrateOneWrites(u, id);
      var q := u.source.questions[id];
      QuestionUpdate(u.source.questions, id, q.(status := Migrated));
      QuestionUpdate(u.target.questions, id, q);
      SumUpdate(u.source.questions, id, q.(status := Migrated), MigratedAmount);
    }
  }

  /** What one joint call opens, resolves and refunds at the source, and at the target. */
  function OutFlow(p: Pair, call: JointCall): Flow {
    if call.AtSource? then CallFlow(p.SourceView(), call.call) else Flow(0, 0, 0)
  }

  function InFlow(p: Pair, call: JointCall): Flow {
    if call.AtTarget? then CallFlow(p.TargetView(), call.call) else Flow(0, 0, 0)
  }

  /** The total a successful migration reports. */
  function HandedBy(p: Pair, call: JointCall): int {
    if call.MoveQuestions? && MigratePending(p, call.ids).Ok? then MigratePending(p, call.ids).value.1 else 0
  }

  /** These, over the first `k` calls of a run. */
  function SourceFlow(p: Pair, calls: seq<JointCall>, k: nat): Flow
    requires k <= |calls|
  {
    if k == 0 then Flow(0, 0, 0)
    else Plus(SourceFlow(p, calls, k - 1), OutFlow(JointRun(p, calls, k - 1), calls[k - 1]))
  }

  function TargetFlow(p: Pair, calls: seq<JointCall>, k: nat): Flow
    requires k <= |calls|
  {
    if k == 0 then Flow(0, 0, 0)
    else Plus(TargetFlow(p, calls, k - 1), InFlow(JointRun(p, calls, k - 1), calls[k - 1]))
  }

  function Handed(p: Pair, calls: seq<JointCall>, k: nat): int
    requires k <= |calls|
  {
    if k == 0 then 0 else Handed(p, calls, k - 1) + HandedBy(JointRun(p, calls, k - 1), calls[k - 1])
  }

  /** One joint call's effect on the amounts of both sides. */
  lemma StepAmounts(p: Pair, call: JointCall)
    requires BothInv(p)
    ensures var v, out, in', handed := JointAfter(p, call), OutFlow(p, call), InFlow(p, call), HandedBy(p, call);
            && InEscrow(v.SourceView()) == InEscrow(p.SourceView()) + out.opening - out.resolved - out.refunded - handed
            && InEscrow(v.TargetView()) == InEscrow(p.TargetView()) + in'.opening - in'.resolved - in'.refunded + handed
            && GoneFrom(v.source.questions) == GoneFrom(p.source.questions) + handed
  {
    hide BothInv, MovedTogether, Step, MigrateBatch, MigrateAddresses, HoldingsMoved, SumBy, CallFlow, BatchMovable;
    match call
    case AtSource(c) =>
      CallBalances(p.SourceView(), c);
      if Step(p.SourceView(), c).Ok? {
        OwnCallKeepsGone(p.SourceView(), c);
      } else {
        NoFlow(p.SourceView(), c);
      }
    case AtTarget(c) =>
      CallBalances(p.TargetView(), c);
      if Step(p.TargetView(), c).Err? {
        NoFlow(p.TargetView(), c);
      }
    case MoveQuestions(ids) =>
      if MigratePending(p, ids).Ok? {
        BatchMoves(p, ids, |ids|);
      }
    case MoveBalances(addresses) => BalancesConserved(p, addresses, |addresses|);
    case NameSource(_) =>
  }

  lemma NoFlow(w: World, call: Call)
    requires Step(w, call).Err?
    ensures var flow := CallFlow(w, call); flow.opening == 0 && flow.resolved == 0 && flow.refunded == 0
  {
    hide Step;
  }

  ghost predicate FreshBooks(p: Pair) {
    InEscrow(p.SourceView()) == 0 && InEscrow(p.TargetView()) == 0 && GoneFrom(p.source.questions) == 0
  }

  lemma NothingYet(p: Pair)
    requires BothDeployed(p)
    ensures FreshBooks(p)
  {
  }

  /** Over every joint run, what was opened at the source is live, resolved, refunded or migrated; what was
      opened at the target or handed to it is live, resolved or refunded; and what the migrations reported is
      exactly what the source's records show as migrated. */
  lemma {:induction false} EveryAmountAccounted(p: Pair, calls: seq<JointCall>, k: nat)
    requires k <= |calls| && BothDeployed(p) && SoundToken(p.tok)
    ensures var v := JointRun(p, calls, k);
            var out, in', handed := SourceFlow(p, calls, k), TargetFlow(p, calls, k), Handed(p, calls, k);
            && out.opening == InEscrow(v.SourceView()) + out.resolved + out.refunded + handed
            && in'.opening + handed == InEscrow(v.TargetView()) + in'.resolved + in'.refunded
            && handed == GoneFrom(v.source.questions)
  {
    hide JointStep, JointAfter, BothInv, SoundToken, OutFlow, InFlow, HandedBy, SumBy;
    assert k == 0 ==> FreshBooks(p) by { NothingYet(p); }
    hide BothDeployed;
    if k > 0 {
      EveryAmountAccounted(p, calls, k - 1);
      BothAlwaysSolvent(p, calls, k - 1);
      StepAmounts(JointRun(p, calls, k - 1), calls[k - 1]);
    }
  }

  // ---- exact solvency of both sides ----------------------------------------------------------

  /** The call leaves the tokens of `x` alone. */
  predicate LeavesTokens(w: World, call: Call, x: Address) {
    Step(w, call).Ok? ==> Get(Step(w, call).value.tok, x) == Get(w.tok, x)
  }

  lemma PullElsewhere(w: World, from: Address, amount: int, x: Address)
    requires x in w.contracts && x != w.esc.me && Pull(w, from, amount).Ok?
    ensures Get(Pull(w, from, amount).value.tok, x) == Get(w.tok, x)
  {
    TransferConserves(w.tok, from, w.esc.me, amount);
  }

  lemma FundingElsewhere(w: World, call: Call, x: Address)
    requires call.DoSubmit? || call.DoDeposit? || call.DoReopen? || call.DoPostBond? || call.DoStake?
    requires x in w.contracts && x != w.esc.me
    ensures LeavesTokens(w, call, x)
  {
    hide Transfer, Add, TopUp, StakeOf, Pull;
    if Step(w, call).Ok? {
      match call
      case DoSubmit(payer, _, amount) => PullElsewhere(w, payer, amount, x);
      case DoDeposit(payer, amount) => PullElsewhere(w, payer, amount, x);
      case DoReopen(payer, _, amount) => PullElsewhere(w, payer, amount, x);
      case DoPostBond(challenger, _, amount) => PullElsewhere(w, challenger, amount, x);
      case DoStake(worker, amount) => PullElsewhere(w, worker, amount, x);
    }
  }

  lemma PayoutElsewhere(w: World, call: Call, x: Address)
    requires call.DoWithdrawBalance? || call.DoCompleteUnstake? || call.DoWithdraw? || call.TokenTransfer?
    requires x in w.contracts && x != w.esc.me && Avoids(w.esc.config, call, x)
    ensures LeavesTokens(w, call, x)
  {
    hide Release, StakeOf;
  }

  lemma NoTokens(w: World, call: Call, x: Address)
    requires call.DoCharge? || call.DoEscalate? || call.DoResolveChallengeable? || call.DoDispute?
             || call.DoBeginUnstake?
    ensures LeavesTokens(w, call, x)
  {
    hide Add, CheckLists, Unstake, StakeOf, Get;
  }

  lemma RefundElsewhere(w: World, id: QuestionId, x: Address)
    requires OutsidePayers(w.esc.questions, w.contracts) && x in w.contracts && x != w.esc.me && DoRefund(w, id).Ok?
    ensures Get(DoRefund(w, id).value.tok, x) == Get(w.tok, x)
  {
    hide Remove;
  }

  lemma {:induction false} SweepElsewhere(w: World, ids: seq<QuestionId>, k: nat, x: Address)
    requires Inv(w) && x in w.contracts && x != w.esc.me && k <= |ids|
    ensures Sweep(w, ids, k).Ok? && Get(Sweep(w, ids, k).value.0.tok, x) == Get(w.tok, x)
  {
    hide RefundTimeout, Inv;
    SweepSafe(w, ids, k);
    if k > 0 {
      SweepElsewhere(w, ids, k - 1, x);
      SweepSafe(w, ids, k - 1);
      TimeoutElsewhere(w, Sweep(w, ids, k - 1).value.0, ids[k - 1], x);
    }
  }

  lemma TimeoutElsewhere(w: World, u: World, id: QuestionId, x: Address)
    requires Advances(w, u, true) && x in w.contracts && x != w.esc.me
    ensures RefundTimeout(u, id).Ok? ==> Get(RefundTimeout(u, id).value.tok, x) == Get(u.tok, x)
  {
    hide SumBy, Books, Tables, Enumerates, DoRefund;
    if RefundTimeout(u, id).Ok? {
      RefundElsewhere(u, id, x);
    }
  }

  lemma ResolveElsewhere(w: World, id: QuestionId, workers: seq<Address>, losers: seq<Address>, x: Address)
    requires Inv(w) && Bystander(w.esc.me, w.esc.config, x) && Resolve(w, id, workers, losers).Ok?
    ensures Get(Resolve(w, id, workers, losers).value.tok, x) == Get(w.tok, x)
  {
    hide SumBy, Books, Tables, Enumerates, SettleTogether, CheckLists, SettleAsset, Bystander;
    assert CheckLists(w.esc.config, workers, losers, true).Ok? && HasStatus(w.esc.questions, id, Pending);
    var q := w.esc.questions[id];
    ResolveIsSettle(w, id, workers, losers);
    TogetherElsewhere(w, id, q, workers, losers, 0, LoserSlash(q.amount, w.now), x);
  }

  lemma TogetherElsewhere(w: World, id: QuestionId, q: Question, workers: seq<Address>, losers: seq<Address>,
                          forfeited: int, f: Slasher, x: Address)
    requires Bystander(w.esc.me, w.esc.config, x) && SettleTogether(w, id, q, workers, losers, forfeited, f).Ok?
    ensures Get(SettleTogether(w, id, q, workers, losers, forfeited, f).value.tok, x) == Get(w.tok, x)
  {
    hide SettleTogether, UncheckedBill, RouteTake, Bystander;
    SettlementStores(w, id, q, workers, losers, forfeited, f);
    var bill := UncheckedBill(w.esc.stakes, q.amount, |workers|, losers, f);
    RouteBystander(w.tok, w.esc.me, w.esc.config, bill.platformTake + forfeited, x);
  }

  lemma SettlementElsewhere(w: World, call: Call, x: Address)
    requires Inv(w) && (call.DoResolve? || call.DoConsensus? || call.DoEscalateResolve? || call.DoFinalize?)
    requires x != w.esc.me && Avoids(w.esc.config, call, x)
    ensures LeavesTokens(w, call, x)
  {
    hide Inv, SettleTogether, CheckLists, Resolve, Lists, DistinctWorkers, LoserSlash, Dissenter, Get;
    if Step(w, call).Ok? {
      match call
      case DoResolve(id, workers, losers) => ResolveElsewhere(w, id, workers, losers, x);
      case DoConsensus(id, answers) =>
        var lists := Lists(w.esc.board, w.esc.config.established, answers, Dissenter(answers).value);
        ResolveElsewhere(w, id, lists.workers, lists.losers, x);
      case DoEscalateResolve(id, workers, losers) =>
        var q := w.esc.questions[id];
        var ready := w.(esc := w.esc.(escalated := w.esc.escalated - {id}));
        TogetherElsewhere(ready, id, q, workers, losers, 0, LoserSlash(q.amount, w.now), x);
      case DoFinalize(id) =>
        var q, res := w.esc.questions[id], w.esc.resolutions[id];
        var ready := w.(esc := w.esc.(resolutions := w.esc.resolutions - {id}, bonds := w.esc.bonds - {id}));
        TogetherElsewhere(ready, id, q, res.workers, res.losers, BondAmount(w.esc, id), LoserSlash(q.amount, w.now), x);
    }
  }

  /** A call that pays nothing to another contract leaves that contract's tokens exactly as they were. */
  lemma TokensElsewhere(w: World, call: Call, x: Address)
    requires Inv(w) && x in w.contracts && x != w.esc.me && Avoids(w.esc.config, call, x)
    ensures LeavesTokens(w, call, x)
  {
    hide Inv, Resolve, EscalateResolve, FinalizeResolve, ResolveByConsensus, Submit, Charge, Reopen, DoRefund,
         RefundTimeout, Escalate, ResolveChallengeable, Deposit, WithdrawBalance, PostChallengeBond, DisputeResolve,
         PostStake, BeginUnstake, CompleteUnstake, Withdraw, Transfer, Sweep, Get;
    match call
    case DoSweep(ids) => SweepElsewhere(w, ids, |ids|, x);
    case DoRefundNow(id) => RefundNowElsewhere(w, call, x);
    case DoRefundTimeout(id) => RefundNowElsewhere(w, call, x);
    case DoResolve(_, _, _) => SettlementElsewhere(w, call, x);
    case DoConsensus(_, _) => SettlementElsewhere(w, call, x);
    case DoEscalateResolve(_, _, _) => SettlementElsewhere(w, call, x);
    case DoFinalize(_) => SettlementElsewhere(w, call, x);
    case DoSubmit(_, _, _) => FundingElsewhere(w, call, x);
    case DoDeposit(_, _) => FundingElsewhere(w, call, x);
    case DoReopen(_, _, _) => FundingElsewhere(w, call, x);
    case DoPostBond(_, _, _) => FundingElsewhere(w, call, x);
    case DoStake(_, _) => FundingElsewhere(w, call, x);
    case DoWithdrawBalance(_, _) => PayoutElsewhere(w, call, x);
    case DoCompleteUnstake(_) => PayoutElsewhere(w, call, x);
    case DoWithdraw(_, _, _) => PayoutElsewhere(w, call, x);
    case TokenTransfer(_, _, _) => PayoutElsewhere(w, call, x);
    case DoCharge(_, _, _) => NoTokens(w, call, x);
    case DoEscalate(_, _, _) => NoTokens(w, call, x);
    case DoResolveChallengeable(_, _, _, _) => NoTokens(w, call, x);
    case DoDispute(_) => NoTokens(w, call, x);
    case DoBeginUnstake(_, _) => NoTokens(w, call, x);
    case _ =>
  }

  lemma RefundNowElsewhere(w: World, call: Call, x: Address)
    requires Inv(w) && x in w.contracts && x != w.esc.me && (call.DoRefundNow? || call.DoRefundTimeout?)
    ensures LeavesTokens(w, call, x)
  {
    hide SumBy, Books, Tables, Enumerates, DoRefund;
    if Step(w, call).Ok? {
      RefundElsewhere(w, call.id, x);
    }
  }

  /** No own call of either side pays either instance behind its books. */
  predicate JointClean(p: Pair, call: JointCall) {
    match call
    case AtSource(c) => Avoids(p.source.config, c, p.source.me) && Avoids(p.source.config, c, p.target.me)
    case AtTarget(c) => Avoids(p.target.config, c, p.source.me) && Avoids(p.target.config, c, p.target.me)
    case _ => true
  }

  /** Neither side's surplus moved. */
  ghost predicate SameSurpluses(p: Pair, v: Pair) {
    Surplus(v.SourceView()) == Surplus(p.SourceView()) && Surplus(v.TargetView()) == Surplus(p.TargetView())
  }

  lemma CleanStepExact(p: Pair, call: JointCall)
    requires BothInv(p) && JointClean(p, call)
    ensures SameSurpluses(p, JointAfter(p, call))
  {
    hide Step, MigratePending, MigrateAddresses, SumBy, HoldingsMoved, ArrivedAsLeft, SoundStore, Claims, Avoids, Get;
    match call
    case AtSource(c) =>
      StepSafe(p.SourceView(), c);
      MeAmongContracts(p);
      TokensElsewhere(p.SourceView(), c, p.target.me);
    case AtTarget(c) =>
      StepSafe(p.TargetView(), c);
      MeAmongContracts(p);
      TokensElsewhere(p.TargetView(), c, p.source.me);
    case MoveQuestions(ids) => BatchAllOrNothing(p, ids);
    case MoveBalances(addresses) => BalancesConserved(p, addresses, |addresses|);
    case NameSource(source) => NameKeepsClaims(p.target, source);
  }

  lemma MeAmongContracts(p: Pair)
    requires BothInv(p)
    ensures p.source.me in p.contracts && p.target.me in p.contracts
  {
    hide SumBy, Enumerates, Tables, Books;
  }

  lemma NameKeepsClaims(s: Store, source: Option<Address>)
    ensures Claims(s.(source := source)) == Claims(s)
  {
  }

  /** Over clean joint runs each side holds, to the stroop, what it was deployed with and what it owes. */
  lemma {:induction false} BothExactlySolvent(p: Pair, calls: seq<JointCall>, k: nat)
    requires k <= |calls| && BothDeployed(p) && SoundToken(p.tok)
    requires forall i :: 0 <= i < k ==> JointClean(JointRun(p, calls, i), calls[i])
    ensures var v := JointRun(p, calls, k);
            && v.SourceView().Held() == p.SourceView().Held() + Claims(v.source)
            && v.TargetView().Held() == p.TargetView().Held() + Claims(v.target)
  {
    hide JointStep, JointAfter, BothInv, JointClean, SumBy, Claims;
    if k == 0 {
      DeployedSafe(p.SourceView());
      DeployedSafe(p.TargetView());
    } else {
      BothExactlySolvent(p, calls, k - 1);
      BothAlwaysSolvent(p, calls, k - 1);
      CleanStepExact(JointRun(p, calls, k - 1), calls[k - 1]);
    }
  }
}
