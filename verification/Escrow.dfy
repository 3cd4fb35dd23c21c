/** The contract as it is written: storage entries overwritten in place, call by call. Every entry point is
    proved to do exactly what the corresponding function of Ledger says, including which error it returns,
    and to leave nothing behind when it fails. */
module Escrow {
  import opened Base
  import opened Token
  import opened Stakes
  import opened Settlement
  import opened PendingIndex
  import opened Leaderboard
  import opened Ledger
  import opened Consensus
  import opened Preview
  import opened DryRun
  import opened EffectiveStake
  import opened Migration

  /** What the host puts back when a call fails. */
  datatype Saved = Saved(
    questions: map<QuestionId, Question>, resolutions: map<QuestionId, Resolution>,
    escalated: map<QuestionId, Verdict>, bonds: map<QuestionId, Bond>,
    prepaid: map<Address, int>, owed: map<Address, int>, stakes: Bonds,
    index: Index, openCount: nat, counts: map<Address, nat>, entries: seq<Entry>, balances: Balances)

  /** A spec's outcome from `before`: a failed call changes nothing. */
  function Outcome(before: World, r: Result<World>): World {
    if r.Ok? then r.value else before
  }

  class OracleEscrow {
    const me: Address
    const contracts: set<Address>
    const token: TokenContract
    const index: PendingStore
    const board: BoardStore
    var config: Config
    var source: Option<Address>
    var questions: map<QuestionId, Question>
    var resolutions: map<QuestionId, Resolution>
    var escalated: map<QuestionId, Verdict>
    var bonds: map<QuestionId, Bond>
    var prepaid: map<Address, int>
    var owed: map<Address, int>
    var stakes: Bonds
    var openCount: nat

    constructor (me: Address, contracts: set<Address>, token: TokenContract, config: Config)
      ensures this.me == me && this.contracts == contracts && this.token == token && fresh(index) && fresh(board)
      ensures Stored() == Store(me, config, None, map[], map[], map[], map[], map[], map[], map[], EMPTY_INDEX, 0,
                                EMPTY_BOARD)
    {
      this.me, this.contracts, this.token, this.config := me, contracts, token, config;
      source, openCount := None, 0;
      questions, resolutions, escalated, bonds := map[], map[], map[], map[];
      prepaid, owed, stakes := map[], map[], map[];
      index := new PendingStore();
      board := new BoardStore();
    }

    ghost function Stored(): Store
      reads this, index, board
    {
      Store(me, config, source, questions, resolutions, escalated, bonds, prepaid, owed, stakes,
            index.Value(), openCount, board.Value())
    }

    ghost function At(now: nat): World
      reads this, index, board, token
    {
      World(now, contracts, token.balances, Stored())
    }

    // ---- failed calls --------------------------------------------------------------------

    ghost predicate Matches(saved: Saved)
      reads this, index, board, token
    {
      && questions == saved.questions && resolutions == saved.resolutions
      && escalated == saved.escalated && bonds == saved.bonds
      && prepaid == saved.prepaid && owed == saved.owed && stakes == saved.stakes
      && index.Value() == saved.index && openCount == saved.openCount
      && board.counts == saved.counts && board.entries == saved.entries && token.balances == saved.balances
    }

    method Checkpoint() returns (saved: Saved)
      ensures Matches(saved)
    {
      saved := Saved(questions, resolutions, escalated, bonds, prepaid, owed, stakes, index.Value(), openCount,
                     board.counts, board.entries, token.balances);
    }

    method RollBack(saved: Saved)
      modifies this, index, board, token
      ensures Matches(saved) && config == old(config) && source == old(source)
    {
      token.Restore(saved.balances);
      board.Restore(saved.counts, saved.entries);
      index.Restore(saved.index);
      RestoreQuestions(saved);
      RestoreMoney(saved);
    }

    method RestoreQuestions(saved: Saved)
      modifies this`questions, this`resolutions, this`escalated, this`bonds
      ensures questions == saved.questions && resolutions == saved.resolutions
      ensures escalated == saved.escalated && bonds == saved.bonds
    {
      questions, resolutions, escalated, bonds := saved.questions, saved.resolutions, saved.escalated, saved.bonds;
    }

    method RestoreMoney(saved: Saved)
      modifies this`prepaid, this`owed, this`stakes, this`openCount
      ensures prepaid == saved.prepaid && owed == saved.owed && stakes == saved.stakes && openCount == saved.openCount
    {
      prepaid, owed, stakes, openCount := saved.prepaid, saved.owed, saved.stakes, saved.openCount;
    }

    // ---- shared steps -----------------------------------------------------------------------

    method PullFrom(now: nat, from: Address, amount: int) returns (r: Result<()>)
      modifies token
      ensures r == Pull(old(At(now)), from, amount).Status()
      ensures r.Ok? ==> At(now) == Pull(old(At(now)), from, amount).value
      ensures r.Err? ==> token.balances == old(token.balances)
    {
      if from in contracts {
        return Err(Trap);
      }
      r := token.Move(from, me, amount);
    }

    method OpenNew(now: nat, payer: Address, id: QuestionId, amount: int) returns (r: Result<()>)
      modifies this`questions, this`openCount, index
      ensures r == OpenQuestion(old(At(now)), payer, id, amount).Status()
      ensures r.Ok? ==> At(now) == OpenQuestion(old(At(now)), payer, id, amount).value
    {
      if id in questions {
        return Err(QuestionAlreadyExists);
      }
      questions := questions[id := Question(payer, amount, Pending, now, config.timeout)];
      r := index.IndexAdd(id);
      if r.Ok? {
        openCount := SatAdd(openCount, 1);
      }
    }

    method SettleAs(id: QuestionId, q: Question, status: Status) returns (r: Result<()>)
      modifies this`questions, this`openCount, index
      ensures r == SettleQuestion(old(Stored()), id, q, status).Status()
      ensures r.Ok? ==> Stored() == SettleQuestion(old(Stored()), id, q, status).value
    {
      questions := questions[id := q.(status := status)];
      r := index.IndexRemove(id);
      if r.Ok? {
        openCount := Max(0, openCount - 1);
      }
    }

    method CreditOne(worker: Address, amount: int) returns (r: Result<()>)
      modifies this`owed
      ensures r == CreditOwed(old(owed), worker, amount).Status()
      ensures Stored() == old(Stored()).(owed := if r.Ok? then CreditOwed(old(owed), worker, amount).value
                                         else old(owed))
    {
      var updated := Get(owed, worker) + amount;
      if !Fits(updated) {
        return Err(ArithmeticOverflow);
      }
      owed := owed[worker := updated];
      return Ok(());
    }

    method SlashOne(loser: Address, cap: int, now: nat) returns (slashed: int)
      modifies this`stakes
      ensures Stored() == old(Stored()).(stakes := SlashWorker(old(stakes), loser, SlasherAt(cap, now)).0)
      ensures slashed == SlashWorker(old(stakes), loser, SlasherAt(cap, now)).1
    {
      if loser !in stakes {
        return 0;
      }
      var info := new StakeCell(stakes[loser]);
      info.MatureWarming(now);
      slashed := info.TakeSlash(cap);
      if slashed == 0 {
        assert stakes[loser := stakes[loser]] == stakes;
        return 0;
      }
      var left := info.Value();
      stakes := stakes[loser := left];
    }

    /** The shared slash-and-redistribute loop, with its checked running totals. */
    method DistributeSlashes(losers: seq<Address>, cap: int, n: int, now: nat) returns (r: Result<Tally>)
      requires n > 0
      modifies this`stakes
      ensures var d := Distribute(old(stakes), losers, |losers|, SlasherAt(cap, now), n);
              && r == (if TallyFits(d.tally) then Ok(d.tally) else Err(ArithmeticOverflow))
              && (r.Ok? ==> Stored() == old(Stored()).(stakes := d.stakes))
    {
      hide Split;
      ghost var f := SlasherAt(cap, now);
      var platformTake, perWorker, total := 0, 0, 0;
      for i := 0 to |losers|
        invariant Distribute(old(stakes), losers, i, f, n) == Slashes(stakes, Tally(platformTake, perWorker, total))
        invariant TallyFits(Tally(platformTake, perWorker, total))
        invariant Stored() == old(Stored()).(stakes := stakes)
      {
        ghost var before := Distribute(old(stakes), losers, i, f, n);
        var slashed := SlashOne(losers[i], cap, now);
        assert Distribute(old(stakes), losers, i + 1, f, n) == Slashes(stakes, Split(before.tally, slashed, n));
        SplitParts(before.tally, slashed, n);
        DistributeMonotone(old(stakes), losers, 0, i, f, n);
        DistributeMonotone(old(stakes), losers, i + 1, |losers|, f, n);
        if slashed > 0 {
          var workerPortion := MulBps(slashed, SLASH_REDISTRIBUTE_BPS);
          var platformPortion := slashed - workerPortion;
          var redistShare := workerPortion / n;
          var redistDust := workerPortion - redistShare * n;
          if !Fits(perWorker + redistShare) {
            return Err(ArithmeticOverflow);
          }
          perWorker := perWorker + redistShare;
          if !Fits(platformTake + platformPortion) {
            return Err(ArithmeticOverflow);
          }
          platformTake := platformTake + platformPortion;
          if !Fits(platformTake + redistDust) {
            return Err(ArithmeticOverflow);
          }
          platformTake := platformTake + redistDust;
          if !Fits(total + slashed) {
            return Err(ArithmeticOverflow);
          }
          total := total + slashed;
        }
      }
      return Ok(Tally(platformTake, perWorker, total));
    }

    /** Pays the platform, and the public-goods address its share of the take first. */
    method RoutePlatformTake(take: int) returns (r: Result<()>)
      modifies token
      ensures r == RouteTake(old(token.balances), me, config, take).Status()
      ensures r.Ok? ==> token.balances == RouteTake(old(token.balances), me, config, take).value
    {
      if take <= 0 {
        return Ok(());
      }
      if config.goods.Some? && config.goods.value.bps > 0 {
        var share := MulBps(take, config.goods.value.bps);
        var remainder := take - share;
        if share > 0 {
          r := token.Move(me, config.goods.value.address, share);
          if r.Err? {
            return;
          }
        }
        if remainder > 0 {
          r := token.Move(me, config.platform, remainder);
          return;
        }
        return Ok(());
      }
      r := token.Move(me, config.platform, take);
    }

    // ---- opening a question -----------------------------------------------------------------

    method Submit(now: nat, payer: Address, id: QuestionId, amount: int) returns (r: Result<()>)
      modifies this, index, board, token
      ensures r == Ledger.Submit(old(At(now)), payer, id, amount).Status()
      ensures At(now) == Outcome(old(At(now)), Ledger.Submit(old(At(now)), payer, id, amount))
    {
      if config.paused {
        return Err(ContractPaused);
      }
      if payer in contracts {
        return Err(Trap);
      }
      if amount <= 0 {
        return Err(InvalidAmount);
      }
      var saved := Checkpoint();
      r := PullFrom(now, payer, amount);
      if r.Ok? {
        r := OpenNew(now, payer, id, amount);
      }
      if r.Err? {
        RollBack(saved);
      }
    }

    method Deposit(now: nat, payer: Address, amount: int) returns (r: Result<()>)
      modifies this, index, board, token
      ensures r == Ledger.Deposit(old(At(now)), payer, amount).Status()
      ensures At(now) == Outcome(old(At(now)), Ledger.Deposit(old(At(now)), payer, amount))
    {
      if config.paused {
        return Err(ContractPaused);
      }
      if payer in contracts {
        return Err(Trap);
      }
      if amount <= 0 {
        return Err(InvalidAmount);
      }
      var saved := Checkpoint();
      r := PullFrom(now, payer, amount);
      if r.Err? {
        return;
      }
      var updated := Get(prepaid, payer) + amount;
      if !Fits(updated) {
        RollBack(saved);
        return Err(ArithmeticOverflow);
      }
      prepaid := prepaid[payer := updated];
    }

    method WithdrawBalance(now: nat, payer: Address, amount: int) returns (r: Result<()>)
      modifies this, token
      ensures r == Ledger.WithdrawBalance(old(At(now)), payer, amount).Status()
      ensures At(now) == Outcome(old(At(now)), Ledger.WithdrawBalance(old(At(now)), payer, amount))
    {
      if payer in contracts {
        return Err(Trap);
      }
      if amount <= 0 {
        return Err(InvalidAmount);
      }
      var balance := Get(prepaid, payer);
      if amount > balance {
        return Err(InsufficientBalance);
      }
      var before := prepaid;
      prepaid := prepaid[payer := balance - amount];
      r := token.Move(me, payer, amount);
      if r.Err? {
        prepaid := before;
      }
    }

    method Charge(now: nat, payer: Address, id: QuestionId, amount: int) returns (r: Result<()>)
      modifies this, index, board, token
      ensures r == Ledger.Charge(old(At(now)), payer, id, amount).Status()
      ensures At(now) == Outcome(old(At(now)), Ledger.Charge(old(At(now)), payer, id, amount))
    {
      if config.paused {
        return Err(ContractPaused);
      }
      if amount <= 0 {
        return Err(InvalidAmount);
      }
      var balance := Get(prepaid, payer);
      if amount > balance {
        return Err(InsufficientBalance);
      }
      var saved := Checkpoint();
      prepaid := prepaid[payer := balance - amount];
      r := OpenNew(now, payer, id, amount);
      if r.Err? {
        RollBack(saved);
      }
    }

    method ReopenQuestion(now: nat, payer: Address, id: QuestionId, amount: int) returns (r: Result<()>)
      modifies this, index, board, token
      ensures r == Ledger.Reopen(old(At(now)), payer, id, amount).Status()
      ensures At(now) == Outcome(old(At(now)), Ledger.Reopen(old(At(now)), payer, id, amount))
    {
      if config.paused {
        return Err(ContractPaused);
      }
      if payer in contracts {
        return Err(Trap);
      }
      if amount <= 0 {
        return Err(InvalidAmount);
      }
      if id !in questions {
        return Err(QuestionNotFound);
      }
      var question := questions[id];
      if question.status != Refunded || question.payer != payer {
        return Err(QuestionNotRefunded);
      }
      var saved := Checkpoint();
      r := PullFrom(now, payer, amount);
      if r.Err? {
        return;
      }
      questions := questions[id := Question(payer, amount, Pending, now, question.timeout)];
      r := index.IndexAdd(id);
      if r.Err? {
        RollBack(saved);
        return;
      }
      openCount := SatAdd(openCount, 1);
    }

    // ---- refunds ------------------------------------------------------------------------------

    method Refund(now: nat, id: QuestionId) returns (r: Result<()>)
      modifies this, index, board, token
      ensures r == DoRefund(old(At(now)), id).Status()
      ensures At(now) == Outcome(old(At(now)), DoRefund(old(At(now)), id))
    {
      if id !in questions {
        return Err(QuestionNotFound);
      }
      var question := questions[id];
      if question.status != Pending {
        return Err(QuestionNotPending);
      }
      var saved := Checkpoint();
      r := token.Move(me, question.payer, question.amount);
      if r.Ok? {
        r := SettleAs(id, question, Refunded);
      }
      if r.Err? {
        RollBack(saved);
      }
    }

    method TryRefundTimeout(now: nat, id: QuestionId) returns (r: Result<()>)
      modifies this, index, board, token
      ensures config == old(config) && source == old(source)
      ensures r == RefundTimeout(old(At(now)), id).Status()
      ensures At(now) == Outcome(old(At(now)), RefundTimeout(old(At(now)), id))
    {
      if id !in questions {
        return Err(QuestionNotFound);
      }
      var question := questions[id];
      if question.status != Pending {
        return Err(QuestionNotPending);
      }
      if now < SatAdd(question.createdAt, question.timeout) {
        return Err(TooEarlyForTimeout);
      }
      r := Refund(now, id);
    }

    /** A contract error of one id is recorded and the batch goes on; only a trap undoes the batch. */
    method SweepTimeouts(now: nat, ids: seq<QuestionId>) returns (r: Result<seq<Result<()>>>)
      modifies this, index, board, token
      ensures var spec := Sweep(old(At(now)), ids, |ids|);
              && (r.Ok? <==> spec.Ok?) && (r.Err? ==> spec == Err(r.error) && At(now) == old(At(now)))
              && (r.Ok? ==> spec.value == (At(now), r.value))
    {
      hide RefundTimeout;
      var saved := Checkpoint();
      var results: seq<Result<()>> := [];
      for i := 0 to |ids|
        invariant Sweep(old(At(now)), ids, i) == Ok((At(now), results))
        invariant config == old(config) && source == old(source)
      {
        var one := TryRefundTimeout(now, ids[i]);
        if one == Err(Trap) {
          SweepTraps(old(At(now)), ids, i + 1, |ids|);
          RollBack(saved);
          return Err(Trap);
        }
        results := results + [one];
      }
      return Ok(results);
    }

    // ---- the three settlements --------------------------------------------------------------------

    method AcceptLists(workers: seq<Address>, losers: seq<Address>, bounded: bool) returns (r: Result<()>)
      ensures r == CheckLists(config, workers, losers, bounded)
    {
      if workers == [] {
        return Err(NoWorkers);
      }
      var size := |workers| + |losers|;
      if size > MAX_QUORUM_SIZE {
        return Err(QuorumTooLarge);
      }
      if bounded && (size < config.minQuorum || size > config.maxQuorum) {
        return Err(QuorumOutOfBounds);
      }
      r := ValidateWorkerLists(workers, losers);
    }

    /** The single leg of a question: everyone is credited before the platform is paid. */
    method SettleLeg(now: nat, amount: int, workers: seq<Address>, losers: seq<Address>) returns (r: Result<()>)
      requires |workers| > 0
      modifies this`stakes, this`owed, token
      ensures var spec := SettleAsset(old(At(now)), amount, workers, losers, LoserSlash(amount, now));
              r == spec.Status() && (r.Ok? ==> At(now) == spec.value)
    {
      hide Distribute, CreditAll, RouteTake, SlasherAt;
      ghost var before, f, n := At(now), LoserSlash(amount, now), |workers|;
      var fee := MulBps(amount, PLATFORM_FEE_BPS);
      var pool := amount - fee;
      var share := pool / |workers|;
      var dust := pool - share * |workers|;
      var slashCap := MulBps(amount, SLASH_CAP_BPS_OF_AMOUNT);
      var slashes := DistributeSlashes(losers, slashCap, |workers|, now);
      if slashes.Err? {
        return Err(slashes.error);
      }
      var tally := slashes.value;
      if !Fits(fee + dust + tally.platformTake) {
        return Err(ArithmeticOverflow);
      }
      var platformTake := fee + dust + tally.platformTake;
      if !Fits(share + tally.perWorker) {
        return Err(ArithmeticOverflow);
      }
      var workerCredit := share + tally.perWorker;
      assert MakeBill(before.esc.stakes, amount, n, losers, f)
             == Ok(Bill(Slashes(stakes, tally), platformTake, workerCredit));
      r := CreditWorkers(workers, workerCredit);
      if r.Ok? {
        r := RoutePlatformTake(platformTake);
      }
    }

    method CreditWorkers(workers: seq<Address>, credit: int) returns (r: Result<()>)
      modifies this`owed
      ensures r == CreditAll(old(owed), workers, |workers|, credit).Status()
      ensures r.Ok? ==> owed == CreditAll(old(owed), workers, |workers|, credit).value
    {
      for i := 0 to |workers|
        invariant CreditAll(old(owed), workers, i, credit) == Ok(owed)
      {
        r := CreditOne(workers[i], credit);
        if r.Err? {
          CreditStops(old(owed), workers, i + 1, |workers|, credit);
          return;
        }
      }
      return Ok(());
    }

    method RecordWorkers(workers: seq<Address>) returns (r: Result<()>)
      modifies board
      ensures r == RecordAll(old(board.Value()), workers, |workers|).Status()
      ensures r.Ok? ==> board.Value() == RecordAll(old(board.Value()), workers, |workers|).value
    {
      for i := 0 to |workers|
        invariant RecordAll(old(board.Value()), workers, i) == Ok(board.Value())
      {
        r := board.RecordResolvedCredit(workers[i]);
        if r.Err? {
          RecordStops(old(board.Value()), workers, i + 1, |workers|);
          return;
        }
      }
      return Ok(());
    }

    method Resolve(now: nat, id: QuestionId, workers: seq<Address>, losers: seq<Address>) returns (r: Result<()>)
      modifies this, index, board, token
      ensures r == Ledger.Resolve(old(At(now)), id, workers, losers).Status()
      ensures At(now) == Outcome(old(At(now)), Ledger.Resolve(old(At(now)), id, workers, losers))
    {
      hide SettleAsset, RecordAll, SettleQuestion, DistinctLists;
      r := AcceptLists(workers, losers, true);
      if r.Err? {
        return;
      }
      if id !in questions {
        return Err(QuestionNotFound);
      }
      var question := questions[id];
      if question.status != Pending {
        return Err(QuestionNotPending);
      }
      var saved := Checkpoint();
      ghost var before := At(now);
      r := SettleLeg(now, question.amount, workers, losers);
      ghost var paid := At(now);
      if r.Ok? {
        r := RecordWorkers(workers);
        if r.Ok? {
          r := SettleAs(id, question, Resolved);
        }
      }
      if r.Err? {
        RollBack(saved);
      }
    }

    /** Credits and records each winner in one pass, as escalate_resolve and finalize_resolve do. */
    method CreditAndRecordWorkers(workers: seq<Address>, credit: int) returns (r: Result<()>)
      modifies this`owed, board
      ensures var spec := CreditAndRecord(old(owed), old(board.Value()), workers, |workers|, credit);
              r == spec.Status() && (r.Ok? ==> spec.value == (owed, board.Value()))
    {
      hide Record;
      for i := 0 to |workers|
        invariant CreditAndRecord(old(owed), old(board.Value()), workers, i, credit) == Ok((owed, board.Value()))
      {
        r := CreditOne(workers[i], credit);
        if r.Ok? {
          r := board.RecordResolvedCredit(workers[i]);
        }
        if r.Err? {
          TogetherStops(old(owed), old(board.Value()), workers, i + 1, |workers|, credit);
          return;
        }
      }
      return Ok(());
    }

    method EscalateResolve(now: nat, id: QuestionId, workers: seq<Address>, losers: seq<Address>)
      returns (r: Result<()>)
      modifies this, index, board, token
      ensures r == Ledger.EscalateResolve(old(At(now)), id, workers, losers).Status()
      ensures At(now) == Outcome(old(At(now)), Ledger.EscalateResolve(old(At(now)), id, workers, losers))
    {
      hide SettleTogether, DistinctLists;
      r := AcceptLists(workers, losers, true);
      if r.Err? {
        return;
      }
      if id !in questions {
        return Err(QuestionNotFound);
      }
      var question := questions[id];
      if question.status != Disputed {
        return Err(QuestionNotDisputed);
      }
      var saved := Checkpoint();
      r := SettleEscalated(now, id, question, workers, losers);
      if r.Err? {
        RollBack(saved);
      }
    }

    method SettleEscalated(now: nat, id: QuestionId, question: Question, workers: seq<Address>, losers: seq<Address>)
      returns (r: Result<()>)
      requires |workers| > 0
      modifies this, index, board, token
      ensures config == old(config) && source == old(source)
      ensures var ready := old(At(now)).(esc := old(At(now)).esc.(escalated := old(escalated) - {id}));
              var spec := SettleTogether(ready, id, question, workers, losers, 0, LoserSlash(question.amount, now));
              r == spec.Status() && (r.Ok? ==> At(now) == spec.value)
    {
      hide Distribute, CreditAndRecord, RouteTake, SettleQuestion, SlasherAt;
      var amount, n := question.amount, |workers|;
      var fee := MulBps(amount, PLATFORM_FEE_BPS);
      var pool := amount - fee;
      var share := pool / n;
      var dust := pool - share * n;
      var slashCap := MulBps(amount, SLASH_CAP_BPS_OF_AMOUNT);
      var slashes := DistributeSlashes(losers, slashCap, n, now);
      if slashes.Err? {
        return Err(slashes.error);
      }
      var tally := slashes.value;
      if !Fits(fee + dust + tally.platformTake) || !Fits(share + tally.perWorker) {
        return Err(ArithmeticOverflow);
      }
      var platformTake, workerCredit := fee + dust + tally.platformTake, share + tally.perWorker;
      assert MakeBill(old(stakes), amount, n, losers, LoserSlash(amount, now))
             == Ok(Bill(Slashes(stakes, tally), platformTake, workerCredit));
      r := CreditAndRecordWorkers(workers, workerCredit);
      if r.Ok? {
        r := RoutePlatformTake(platformTake);
      }
      if r.Ok? {
        escalated := escalated - {id};
        r := SettleAs(id, question, Resolved);
      }
    }

    /** An unflagged resolution past its window; a bond posted against it joins the platform's take. */
    method FinalizeResolve(now: nat, id: QuestionId) returns (r: Result<()>)
      modifies this, index, board, token
      ensures r == Ledger.FinalizeResolve(old(At(now)), id).Status()
      ensures At(now) == Outcome(old(At(now)), Ledger.FinalizeResolve(old(At(now)), id))
    {
      hide SettleTogether;
      if id !in resolutions {
        return Err(NoPendingResolution);
      }
      var resolution := resolutions[id];
      if now <= resolution.deadline {
        return Err(DisputeWindowNotElapsed);
      }
      if resolution.disputed {
        return Err(QuestionDisputed);
      }
      if id !in questions {
        return Err(QuestionNotFound);
      }
      var question := questions[id];
      if question.status != ResolvedPending {
        return Err(NoPendingResolution);
      }
      var saved := Checkpoint();
      var forfeited := if id in bonds then bonds[id].amount else 0;
      bonds, resolutions := bonds - {id}, resolutions - {id};
      r := SettleFinalized(now, id, question, resolution.workers, resolution.losers, forfeited);
      if r.Err? {
        RollBack(saved);
      }
    }

    method SettleFinalized(now: nat, id: QuestionId, question: Question, workers: seq<Address>, losers: seq<Address>,
                           forfeited: int)
      returns (r: Result<()>)
      modifies this, index, board, token
      ensures config == old(config) && source == old(source)
      ensures var spec := SettleTogether(old(At(now)), id, question, workers, losers, forfeited,
                                         LoserSlash(question.amount, now));
              r == spec.Status() && (r.Ok? ==> At(now) == spec.value)
    {
      hide Distribute, CreditAndRecord, RouteTake, SettleQuestion, SlasherAt;
      if workers == [] {
        return Err(Trap);
      }
      var amount, n := question.amount, |workers|;
      var fee := MulBps(amount, PLATFORM_FEE_BPS);
      var pool := amount - fee;
      var share := pool / n;
      var dust := pool - share * n;
      var slashCap := MulBps(amount, SLASH_CAP_BPS_OF_AMOUNT);
      var slashes := DistributeSlashes(losers, slashCap, n, now);
      if slashes.Err? {
        return Err(slashes.error);
      }
      var tally := slashes.value;
      if !Fits(fee + dust + tally.platformTake) || !Fits(share + tally.perWorker) {
        return Err(ArithmeticOverflow);
      }
      var platformTake, workerCredit := fee + dust + tally.platformTake, share + tally.perWorker;
      assert MakeBill(old(stakes), amount, n, losers, LoserSlash(amount, now))
             == Ok(Bill(Slashes(stakes, tally), platformTake, workerCredit));
      r := CreditAndRecordWorkers(workers, workerCredit);
      if r.Err? {
        return;
      }
      if !Fits(platformTake + forfeited) {
        return Err(ArithmeticOverflow);
      }
      r := RoutePlatformTake(platformTake + forfeited);
      if r.Ok? {
        r := SettleAs(id, question, Resolved);
      }
    }

    /** The dry run: the guards of resolve(), then arithmetic that writes nothing. */
    method PreviewResolve(now: nat, id: QuestionId, workers: seq<Address>, losers: seq<Address>)
      returns (r: Result<ResolvePreview>)
      ensures r == PreviewCall(At(now), id, workers, losers)
    {
      hide PreviewResult, DistinctLists;
      var accepted := AcceptLists(workers, losers, true);
      if accepted.Err? {
        return Err(accepted.error);
      }
      if id !in questions {
        return Err(QuestionNotFound);
      }
      var question := questions[id];
      if question.status != Pending {
        return Err(QuestionNotPending);
      }
      r := Preview.PreviewResolve(stakes, question.amount, |workers|, losers, now);
    }

    // ---- consensus and challenges --------------------------------------------------------------

    method ResolveByConsensus(now: nat, id: QuestionId, answers: seq<Answer>) returns (r: Result<()>)
      modifies this, index, board, token
      ensures r == Consensus.ResolveByConsensus(old(At(now)), id, answers).Status()
      ensures At(now) == Outcome(old(At(now)), Consensus.ResolveByConsensus(old(At(now)), id, answers))
    {
      hide Ledger.Resolve, Unanimous;
      var n := |answers|;
      if n == 0 {
        return Err(EmptyAnswerSet);
      }
      if n > MAX_QUORUM_SIZE {
        return Err(QuorumTooLarge);
      }
      var distinct := NoWorkerTwice(answers);
      if !distinct {
        return Err(DuplicateAnswerAddress);
      }
      var found := UnanimousDissenter(answers);
      if found.Err? {
        return Err(found.error);
      }
      var verdict := SplitAnswers(answers, found.value);
      r := Resolve(now, id, verdict.workers, verdict.losers);
    }

    method SplitAnswers(answers: seq<Answer>, dissenter: Option<nat>) returns (verdict: Verdict)
      requires dissenter.Some? ==> dissenter.value < |answers|
      ensures verdict == Lists(board.Value(), config.established, answers, dissenter)
      ensures DistinctWorkers(answers) && Dissenter(answers) == Ok(dissenter) ==>
                forall x ::
                  && (x in verdict.workers <==> Agreed(answers, x))
                  && (x in verdict.losers <==>
                      Dissented(answers, x) && CountOf(board.Value(), x) >= config.established)
    {
      var workers: seq<Address>, losers: seq<Address> := [], [];
      for i := 0 to |answers|
        invariant workers == Agreeing(answers, i, if dissenter.Some? then dissenter.value else -1)
        invariant losers == if dissenter.Some? && dissenter.value < i
                            then Lists(board.Value(), config.established, answers, dissenter).losers else []
      {
        if Some(i) != dissenter {
          workers := workers + [answers[i].worker];
        } else {
          var count := if answers[i].worker in board.counts then board.counts[answers[i].worker] else 0;
          if count >= config.established {
            losers := losers + [answers[i].worker];
          }
        }
      }
      if DistinctWorkers(answers) && Dissenter(answers) == Ok(dissenter) {
        forall x {
          ConsensusNames(board.Value(), config.established, answers, x);
        }
      }
      return Verdict(workers, losers);
    }

    method Escalate(now: nat, id: QuestionId, workers: seq<Address>, losers: seq<Address>) returns (r: Result<()>)
      modifies this
      ensures r == Ledger.Escalate(old(At(now)), id, workers, losers).Status()
      ensures At(now) == Outcome(old(At(now)), Ledger.Escalate(old(At(now)), id, workers, losers))
    {
      hide DistinctLists;
      r := AcceptLists(workers, losers, false);
      if r.Err? {
        return;
      }
      if id !in questions {
        return Err(QuestionNotFound);
      }
      var question := questions[id];
      if question.status != Pending {
        return Err(QuestionNotPendingForEscalation);
      }
      escalated := escalated[id := Verdict(workers, losers)];
      questions := questions[id := question.(status := Disputed)];
      return Ok(());
    }

    method ResolveChallengeable(now: nat, id: QuestionId, workers: seq<Address>, losers: seq<Address>, window: nat)
      returns (r: Result<()>)
      modifies this
      ensures r == Ledger.ResolveChallengeable(old(At(now)), id, workers, losers, window).Status()
      ensures At(now) == Outcome(old(At(now)), Ledger.ResolveChallengeable(old(At(now)), id, workers, losers, window))
    {
      hide DistinctLists;
      r := AcceptLists(workers, losers, true);
      if r.Err? {
        return;
      }
      if id !in questions {
        return Err(QuestionNotFound);
      }
      var question := questions[id];
      if question.status != Pending {
        return Err(QuestionNotPending);
      }
      resolutions := resolutions[id := Resolution(workers, losers, SatAdd(now, window), false)];
      questions := questions[id := question.(status := ResolvedPending)];
      return Ok(());
    }

    method PostChallengeBond(now: nat, challenger: Address, id: QuestionId, amount: int) returns (r: Result<()>)
      modifies this, token
      ensures r == Ledger.PostChallengeBond(old(At(now)), challenger, id, amount).Status()
      ensures At(now) == Outcome(old(At(now)), Ledger.PostChallengeBond(old(At(now)), challenger, id, amount))
    {
      if config.paused {
        return Err(ContractPaused);
      }
      if challenger in contracts {
        return Err(Trap);
      }
      if amount <= 0 {
        return Err(InvalidBondAmount);
      }
      if id !in questions {
        return Err(QuestionNotFound);
      }
      if questions[id].status != ResolvedPending {
        return Err(NoChallengeableResolution);
      }
      if id !in resolutions {
        return Err(NoPendingResolution);
      }
      if now >= resolutions[id].deadline {
        return Err(NoChallengeableResolution);
      }
      if id in bonds {
        return Err(BondAlreadyPosted);
      }
      r := PullFrom(now, challenger, amount);
      if r.Ok? {
        bonds := bonds[id := Bond(challenger, amount)];
      }
    }

    method DisputeResolve(now: nat, id: QuestionId) returns (r: Result<()>)
      modifies this
      ensures r == Ledger.DisputeResolve(old(At(now)), id).Status()
      ensures At(now) == Outcome(old(At(now)), Ledger.DisputeResolve(old(At(now)), id))
    {
      if id !in resolutions {
        return Err(NoPendingResolution);
      }
      resolutions := resolutions[id := resolutions[id].(disputed := true)];
      return Ok(());
    }

    // ---- stakes and earnings -----------------------------------------------------------------------

    /** The stored bond with everything warmed up already rolled into its settled bucket. */
    method MaturedStake(worker: Address, now: nat) returns (info: StakeCell)
      ensures fresh(info) && info.Value() == Mature(StakeOf(Stored(), worker), now)
    {
      if worker in stakes {
        info := new StakeCell(stakes[worker]);
      } else {
        info := new StakeCell(NO_STAKE);
      }
      info.MatureWarming(now);
    }

    method GetEffectiveStake(now: nat, worker: Address) returns (r: Result<int>)
      ensures r == EffectiveStakeOf(At(now), worker)
    {
      hide EffectiveResult;
      var info := if worker in stakes then stakes[worker] else NO_STAKE;
      r := EffectiveStake.GetEffectiveStake(info, now);
    }

    method Stake(now: nat, worker: Address, amount: int) returns (r: Result<()>)
      modifies this, token
      ensures r == PostStake(old(At(now)), worker, amount).Status()
      ensures At(now) == Outcome(old(At(now)), PostStake(old(At(now)), worker, amount))
    {
      hide Mature, Fits, StakeOf;
      if config.paused {
        return Err(ContractPaused);
      }
      if worker in contracts {
        return Err(Trap);
      }
      if amount <= 0 {
        return Err(InvalidAmount);
      }
      var before := token.balances;
      r := PullFrom(now, worker, amount);
      if r.Err? {
        return;
      }
      var info := MaturedStake(worker, now);
      r := info.AddWarming(amount, now);
      if r.Err? {
        token.Restore(before);
        return;
      }
      var topped := info.Value();
      stakes := stakes[worker := topped];
    }

    /** Answers with the ledger from which the bucket can be released. */
    method BeginUnstake(now: nat, worker: Address, amount: int) returns (r: Result<nat>)
      modifies this
      ensures r.Status() == Ledger.BeginUnstake(old(At(now)), worker, amount).Status()
      ensures r.Ok? ==> worker in stakes && r.value == stakes[worker].releaseAt
      ensures r.Ok? ==> r.value == Min(U32_MAX, now + Max(51_840, old(config.timeout)))
      ensures At(now) == Outcome(old(At(now)), Ledger.BeginUnstake(old(At(now)), worker, amount))
    {
      hide Mature, StakeOf, DrainWarming;
      if worker in contracts {
        return Err(Trap);
      }
      if amount <= 0 {
        return Err(InvalidAmount);
      }
      var info := MaturedStake(worker, now);
      if amount > info.settled + info.warming {
        return Err(InsufficientStake);
      }
      ghost var matured := info.Value();
      var fromWarming := Min(amount, info.warming);
      info.DrainNewestFirst(fromWarming);
      info.settled := info.settled - (amount - fromWarming);
      DrainKeepsUnbonding(matured, fromWarming);
      if !Fits(info.unbonding + amount) {
        return Err(ArithmeticOverflow);
      }
      info.unbonding := info.unbonding + amount;
      info.releaseAt := SatAdd(now, Max(MIN_UNBONDING_LEDGERS, config.timeout));
      var left := info.Value();
      stakes := stakes[worker := left];
      return Ok(left.releaseAt);
    }

    method CompleteUnstake(now: nat, worker: Address) returns (r: Result<()>)
      modifies this, token
      ensures r == Ledger.CompleteUnstake(old(At(now)), worker).Status()
      ensures At(now) == Outcome(old(At(now)), Ledger.CompleteUnstake(old(At(now)), worker))
    {
      hide Mature, StakeOf;
      if worker in contracts {
        return Err(Trap);
      }
      var info := MaturedStake(worker, now);
      if info.unbonding <= 0 {
        return Err(NothingUnbonding);
      }
      if now < info.releaseAt {
        return Err(UnbondingNotElapsed);
      }
      r := token.Move(me, worker, info.unbonding);
      if r.Err? {
        return;
      }
      info.unbonding := 0;
      info.releaseAt := 0;
      var left := info.Value();
      stakes := stakes[worker := left];
    }

    method Withdraw(now: nat, worker: Address, recipient: Address, amount: int) returns (r: Result<()>)
      modifies this, token
      ensures r == Ledger.Withdraw(old(At(now)), worker, recipient, amount).Status()
      ensures At(now) == Outcome(old(At(now)), Ledger.Withdraw(old(At(now)), worker, recipient, amount))
    {
      if worker in contracts {
        return Err(Trap);
      }
      if amount <= 0 {
        return Err(InvalidAmount);
      }
      var earned := Get(owed, worker);
      if earned <= 0 {
        return Err(NothingOwed);
      }
      if amount > earned {
        return Err(InsufficientOwed);
      }
      var before := owed;
      owed := owed[worker := earned - amount];
      r := token.Move(me, recipient, amount);
      if r.Err? {
        owed := before;
      }
    }

    // ---- moving to a successor -------------------------------------------------------------------------

    ghost function PairAt(now: nat, target: OracleEscrow): Pair
      reads this, index, board, token, target, target.index, target.board
    {
      Pair(now, contracts, token.balances, Stored(), target.Stored())
    }

    /** Another instance on the same token, sharing no storage with this one. */
    predicate Successor(target: OracleEscrow) {
      target.token == token && target.index != index && target.board != board
    }

    /** The target admin's half of the handshake: names the trusted source, or closes the door. */
    method SetMigrationSource(named: Option<Address>) returns (r: Result<()>)
      modifies this`source
      ensures r == (if named == Some(me) then Err(InvalidMigrationTarget) else Ok(()))
      ensures source == if r.Ok? then named else old(source)
    {
      if named == Some(me) {
        return Err(InvalidMigrationTarget);
      }
      source := named;
      return Ok(());
    }

    method ImportQuestion(from: Address, id: QuestionId, q: Question) returns (r: Result<()>)
      modifies this`questions, this`openCount, index, token
      ensures var spec := Migration.ImportQuestion(old(token.balances), old(Stored()), from, id, q);
              r == spec.Status() && (r.Ok? ==> spec.value == (token.balances, Stored()))
    {
      if source != Some(from) {
        return Err(MigrationNotAuthorized);
      }
      if q.amount <= 0 {
        return Err(InvalidAmount);
      }
      if q.timeout == 0 || q.timeout > MAX_TIMEOUT_LEDGERS {
        return Err(InvalidTimeout);
      }
      if id in questions {
        return Err(QuestionAlreadyExists);
      }
      r := token.Move(from, me, q.amount);
      if r.Err? {
        return;
      }
      questions := questions[id := q.(status := Pending)];
      r := index.IndexAdd(id);
      if r.Ok? {
        openCount := SatAdd(openCount, 1);
      }
    }

    /** The local record is settled before the target is called. */
    method MigrateOne(now: nat, id: QuestionId, target: OracleEscrow) returns (r: Result<int>)
      requires Successor(target) && target != this
      modifies this`questions, this`openCount, index, token
      modifies target`questions, target`openCount, target.index
      ensures var spec := Migration.MigrateOne(old(PairAt(now, target)), id);
              && r.Status() == spec.Status() && (r.Ok? ==> spec.value == PairAt(now, target))
              && (r.Ok? ==> r.value == old(questions)[id].amount)
    {
      if id !in questions {
        return Err(QuestionNotFound);
      }
      var question := questions[id];
      if question.status != Pending {
        return Err(QuestionNotPending);
      }
      var settled := SettleAs(id, question, Migrated);
      if settled.Err? {
        return Err(settled.error);
      }
      var imported := target.ImportQuestion(me, id, question);
      if imported.Err? {
        return Err(imported.error);
      }
      return Ok(question.amount);
    }

    /** All ids or none, on both sides. */
    method MigratePending(now: nat, ids: seq<QuestionId>, target: OracleEscrow) returns (r: Result<int>)
      requires target.me != me ==> Successor(target)
      modifies this, index, board, token, target, target.index, target.board
      ensures var spec := Migration.MigratePending(old(PairAt(now, target)), ids);
              && r.Status() == spec.Status()
              && (r.Ok? ==> spec.value == (PairAt(now, target), r.value))
              && (r.Err? ==> PairAt(now, target) == old(PairAt(now, target)))
    {
      hide Migration.MigrateOne;
      if target.me == me {
        return Err(InvalidMigrationTarget);
      }
      var saved := Checkpoint();
      var savedThere := target.Checkpoint();
      var total := 0;
      for i := 0 to |ids|
        invariant MigrateBatch(old(PairAt(now, target)), ids, i) == Ok((PairAt(now, target), total))
        invariant config == old(config) && source == old(source)
        invariant target.config == old(target.config) && target.source == old(target.source)
      {
        var moved := MigrateOne(now, ids[i], target);
        if moved.Err? || !Fits(total + moved.value) {
          r := Err(if moved.Err? then moved.error else ArithmeticOverflow);
          MigrateStops(old(PairAt(now, target)), ids, i + 1, |ids|);
          RollBack(saved);
          target.RollBack(savedThere);
          return;
        }
        total := total + moved.value;
      }
      return Ok(total);
    }

    method ImportBalances(from: Address, a: Address, stake: int, earned: int, balance: int) returns (r: Result<()>)
      modifies this`stakes, this`owed, this`prepaid, token
      ensures var spec := Migration.ImportBalances(old(token.balances), old(Stored()), from, a, stake, earned, balance);
              r == spec.Status() && (r.Ok? ==> spec.value == (token.balances, Stored()))
    {
      if source != Some(from) {
        return Err(MigrationNotAuthorized);
      }
      if stake < 0 || earned < 0 || balance < 0 {
        return Err(InvalidAmount);
      }
      if !Fits(stake + earned) || !Fits(stake + earned + balance) {
        return Err(ArithmeticOverflow);
      }
      hide CreditKinds;
      r := Ok(());
      if stake + earned + balance > 0 {
        r := token.Move(from, me, stake + earned + balance);
      }
      if r.Ok? {
        r := CreditImported(a, stake, earned, balance);
      }
    }

    method CreditImported(a: Address, stake: nat, earned: nat, balance: nat) returns (r: Result<()>)
      modifies this`stakes, this`owed, this`prepaid
      ensures var spec := CreditKinds(old(Stored()), a, stake, earned, balance);
              r == spec.Status() && (r.Ok? ==> spec.value == Stored())
    {
      hide Fits;
      if stake > 0 {
        var info := if a in stakes then stakes[a] else NO_STAKE;
        if !Fits(info.settled + stake) {
          return Err(ArithmeticOverflow);
        }
        stakes := stakes[a := info.(settled := info.settled + stake)];
      }
      if earned > 0 {
        if !Fits(Get(owed, a) + earned) {
          return Err(ArithmeticOverflow);
        }
        owed := owed[a := Get(owed, a) + earned];
      }
      if balance > 0 {
        if !Fits(Get(prepaid, a) + balance) {
          return Err(ArithmeticOverflow);
        }
        prepaid := prepaid[a := Get(prepaid, a) + balance];
      }
      return Ok(());
    }

    /** The local entries are removed before the target is called. */
    method MigrateAddress(now: nat, a: Address, target: OracleEscrow) returns (r: Result<int>)
      requires Successor(target) && target != this
      modifies this`stakes, this`owed, this`prepaid, token
      modifies target`stakes, target`owed, target`prepaid
      ensures var spec := Migration.MigrateAddress(old(PairAt(now, target)), a);
              && r.Status() == spec.Status() && (r.Ok? ==> spec.value == PairAt(now, target))
              && (r.Ok? ==> r.value == TotalHeld(old(Stored()), a))
    {
      hide Migration.ImportBalances, Fits;
      var stake := if a in stakes then stakes[a].settled + stakes[a].warming + stakes[a].unbonding else 0;
      var earned, balance := Get(owed, a), Get(prepaid, a);
      assert stake == StakeHeld(Stored(), a);
      if !Fits(stake + earned) || !Fits(stake + earned + balance) {
        return Err(ArithmeticOverflow);
      }
      var sum := stake + earned + balance;
      if sum > 0 {
        if stake > 0 {
          stakes := stakes - {a};
        }
        if earned > 0 {
          owed := owed - {a};
        }
        if balance > 0 {
          prepaid := prepaid - {a};
        }
        var imported := target.ImportBalances(me, a, stake, earned, balance);
        if imported.Err? {
          return Err(imported.error);
        }
      }
      return Ok(sum);
    }

    method MigrateBalances(now: nat, addresses: seq<Address>, target: OracleEscrow) returns (r: Result<int>)
      requires target.me != me ==> Successor(target)
      modifies this, index, board, token, target, target.index, target.board
      ensures var spec := Migration.MigrateBalances(old(PairAt(now, target)), addresses);
              && r.Status() == spec.Status()
              && (r.Ok? ==> spec.value == (PairAt(now, target), r.value))
              && (r.Err? ==> PairAt(now, target) == old(PairAt(now, target)))
    {
      hide Migration.MigrateAddress, TotalHeld;
      if target.me == me {
        return Err(InvalidBalanceMigrationTarget);
      }
      var saved := Checkpoint();
      var savedThere := target.Checkpoint();
      var total := 0;
      for i := 0 to |addresses|
        invariant MigrateAddresses(old(PairAt(now, target)), addresses, i) == Ok((PairAt(now, target), total))
        invariant config == old(config) && source == old(source)
        invariant target.config == old(target.config) && target.source == old(target.source)
      {
        var moved := MigrateAddress(now, addresses[i], target);
        if moved.Err? || !Fits(total + moved.value) {
          r := Err(if moved.Err? then moved.error else ArithmeticOverflow);
          AddressesStop(old(PairAt(now, target)), addresses, i + 1, |addresses|);
          RollBack(saved);
          target.RollBack(savedThere);
          return;
        }
        total := total + moved.value;
      }
      return Ok(total);
    }
  }

  /** The parts of one split, and that each of the checked additions stays between the old and new total. */
  lemma SplitParts(t: Tally, slashed: int, n: int)
    requires n > 0
    ensures slashed <= 0 ==> Split(t, slashed, n) == t
    ensures slashed > 0 ==>
              var portion := MulBps(slashed, SLASH_REDISTRIBUTE_BPS);
              && Split(t, slashed, n) == Tally(t.platformTake + (slashed - portion) + (portion - portion / n * n),
                                               t.perWorker + portion / n, t.total + slashed)
              && 0 <= slashed - portion && 0 <= portion - portion / n * n && 0 <= portion / n
  {
  }

  lemma {:induction false} SweepTraps(w: World, ids: seq<QuestionId>, i: nat, n: nat)
    requires i <= n <= |ids| && Sweep(w, ids, i) == Err(Trap)
    ensures Sweep(w, ids, n) == Err(Trap)
    decreases n
  {
    hide RefundTimeout;
    if i < n {
      SweepTraps(w, ids, i, n - 1);
    }
  }

  /** A loop that stops at its first failure reports what the whole fold would. */
  lemma {:induction false} CreditStops(owed: map<Address, int>, workers: seq<Address>, i: nat, n: nat, credit: int)
    requires i <= n <= |workers| && CreditAll(owed, workers, i, credit).Err?
    ensures CreditAll(owed, workers, n, credit) == CreditAll(owed, workers, i, credit)
    decreases n
  {
    if i < n {
      CreditStops(owed, workers, i, n - 1, credit);
    }
  }

  lemma {:induction false} RecordStops(start: Board, workers: seq<Address>, i: nat, n: nat)
    requires i <= n <= |workers| && RecordAll(start, workers, i).Err?
    ensures RecordAll(start, workers, n) == RecordAll(start, workers, i)
    decreases n
  {
    hide Record;
    if i < n {
      RecordStops(start, workers, i, n - 1);
    }
  }

  lemma {:induction false} TogetherStops(owed: map<Address, int>, start: Board, workers: seq<Address>, i: nat, n: nat,
                                         credit: int)
    requires i <= n <= |workers| && CreditAndRecord(owed, start, workers, i, credit).Err?
    ensures CreditAndRecord(owed, start, workers, n, credit) == CreditAndRecord(owed, start, workers, i, credit)
    decreases n
  {
    hide Record;
    if i < n {
      TogetherStops(owed, start, workers, i, n - 1, credit);
    }
  }

  lemma DrainKeepsUnbonding(info: StakeInfo, amount: int)
    ensures DrainWarming(info, amount).unbonding == info.unbonding && DrainWarming(info, amount).settled == info.settled
  {
  }

  method NoWorkerTwice(answers: seq<Answer>) returns (distinct: bool)
    ensures distinct <==> DistinctWorkers(answers)
  {
    for i := 0 to |answers|
      invariant forall a, b :: 0 <= a < i && a < b < |answers| ==> answers[a].worker != answers[b].worker
    {
      for j := i + 1 to |answers|
        invariant forall b :: i < b < j ==> answers[i].worker != answers[b].worker
      {
        if answers[j].worker == answers[i].worker {
          return false;
        }
      }
    }
    return true;
  }

  lemma {:induction false} MigrateStops(p: Pair, ids: seq<QuestionId>, i: nat, n: nat)
    requires i <= n <= |ids| && MigrateBatch(p, ids, i).Err?
    ensures MigrateBatch(p, ids, n) == MigrateBatch(p, ids, i)
    decreases n
  {
    hide Migration.MigrateOne;
    if i < n {
      MigrateStops(p, ids, i, n - 1);
    }
  }

  lemma {:induction false} AddressesStop(p: Pair, addresses: seq<Address>, i: nat, n: nat)
    requires i <= n <= |addresses| && MigrateAddresses(p, addresses, i).Err?
    ensures MigrateAddresses(p, addresses, n) == MigrateAddresses(p, addresses, i)
    decreases n
  {
    hide Migration.MigrateAddress, TotalHeld;
    if i < n {
      AddressesStop(p, addresses, i, n - 1);
    }
  }
}
