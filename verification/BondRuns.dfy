/** Every stored bond, in every run, is a stack of dated deposits. */
module BondRuns {
  import opened Base
  import opened Stakes
  import opened Settlement
  import opened Ledger
  import opened Calls
  import opened Invariant
  import opened Solvency
  import opened Runs
  import opened Frames
  import opened DepositStack
  import opened Migration
  import opened Obligations

  // ---- what one call does to one bond --------------------------------------------------------

  /** The operation a successful call is on the bond of `a`, if it is one. */
  function OpOn(w: World, call: Call, a: Address): Option<StakeOp> {
    match call
    case DoStake(worker, amount) => if worker == a then Some(OpTopUp(amount)) else None
    case DoBeginUnstake(worker, amount) =>
      if worker == a then Some(OpUnstake(amount, w.esc.config.timeout)) else None
    case DoCompleteUnstake(worker) => if worker == a then Some(OpRelease) else None
    case DoResolve(id, _, _) => SlashOn(w, id, Judged(w, call).losers, a)
    case DoConsensus(id, _) => SlashOn(w, id, Judged(w, call).losers, a)
    case DoEscalateResolve(id, _, _) => SlashOn(w, id, Judged(w, call).losers, a)
    case DoFinalize(id) => SlashOn(w, id, Judged(w, call).losers, a)
    case _ => None
  }

  function SlashOn(w: World, id: QuestionId, losers: seq<Address>, a: Address): Option<StakeOp> {
    if id in w.esc.questions && a in losers then Some(OpSlash(SlashCap(w.esc.questions[id].amount))) else None
  }

  function AfterOp(info: StakeInfo, op: Option<StakeOp>, now: nat): StakeInfo {
    if op.None? then info else BondStep(info, op.value, now).0
  }

  /** Distinct losers are each slashed once; nobody else's bond moves. */
  lemma {:induction false} EachSlashedOnce(stakes: Bonds, losers: seq<Address>, k: nat, f: Slasher, n: int, a: Address)
    requires k <= |losers| && n > 0 && NoDup(losers)
    ensures var after := Distribute(stakes, losers, k, f, n).stakes;
            && (a in after <==> a in stakes)
            && (a in stakes ==> after[a] == if a in losers[..k] then f(stakes[a]).0 else stakes[a])
  {
    if k > 0 {
      EachSlashedOnce(stakes, losers, k - 1, f, n, a);
      assert losers[..k] == losers[..k - 1] + [losers[k - 1]];
      assert losers[k - 1] !in losers[..k - 1];
    }
  }

  /** Slashing a worker who never staked is slashing nothing. */
  lemma NothingToSlash(cap: int, now: nat)
    ensures BondStep(NO_STAKE, OpSlash(cap), now).0 == NO_STAKE
  {
    hide BondStep, Mature, Slashable;
    NothingSlashable(now);
    EmptyUnslashed(NO_STAKE, cap, now);
  }

  lemma NothingSlashable(now: nat)
    ensures Slashable(Mature(NO_STAKE, now)) == 0
  {
  }

  lemma EmptyUnslashed(info: StakeInfo, cap: int, now: nat)
    requires Slashable(Mature(info, now)) == 0
    ensures BondStep(info, OpSlash(cap), now).0 == info
  {
    hide Mature, TakeBuckets;
  }

  lemma SlashedIsOp(w: World, v: World, id: QuestionId, verdict: Verdict, a: Address)
    requires id in w.esc.questions && Acceptable(verdict.workers, verdict.losers)
    requires v.esc.stakes == Slashed(w, id, verdict)
    ensures StakeOf(v.esc, a) == AfterOp(StakeOf(w.esc, a), SlashOn(w, id, verdict.losers, a), w.now)
  {
    hide Slash, Distribute;
    var losers, cap := verdict.losers, SlashCap(w.esc.questions[id].amount);
    EachSlashedOnce(w.esc.stakes, losers, |losers|, SlasherAt(cap, w.now), |verdict.workers|, a);
    assert losers[..|losers|] == losers;
    NothingToSlash(cap, w.now);
  }

  /** A successful call leaves each bond as its operation on that bond leaves it. */
  lemma CallIsOp(w: World, call: Call, a: Address)
    requires Inv(w) && Step(w, call).Ok?
    ensures var v := Step(w, call).value;
            StakeOf(v.esc, a) == AfterOp(StakeOf(w.esc, a), OpOn(w, call, a), w.now)
  {
    hide Step, SumBy, Books, PendingIndex.Enumerates, Slashed, SlashOn, Finalizable, Mature, Consensus.Lists,
         Consensus.Dissenter, DistinctLists, Leaderboard.RecordAll;
    StepFramed(w, call);
    var v := Step(w, call).value;
    match call
    case DoStake(worker, amount) => PostedPositive(w, worker, amount);
    case DoResolve(id, _, _) => SlashedIsOp(w, v, id, Judged(w, call), a);
    case DoConsensus(id, _) => SlashedIsOp(w, v, id, Judged(w, call), a);
    case DoEscalateResolve(id, _, _) => SlashedIsOp(w, v, id, Judged(w, call), a);
    case DoFinalize(id) => SlashedIsOp(w, v, id, Judged(w, call), a);
    case _ =>
  }

  lemma PostedPositive(w: World, worker: Address, amount: int)
    requires Step(w, DoStake(worker, amount)).Ok?
    ensures amount > 0
  {
  }

  // ---- every run of one instance ---------------------------------------------------------------

  /** The operations on the bond of `a` among the first `k` calls. */
  function TraceOf(w: World, calls: seq<Call>, k: nat, a: Address): Trace
    requires k <= |calls|
  {
    if k == 0 then Start
    else
      var before, earlier := Run(w, calls, k - 1), TraceOf(w, calls, k - 1, a);
      if Step(before, calls[k - 1]).Err? then earlier else WithOp(earlier, before.now, OpOn(before, calls[k - 1], a))
  }

  function WithOp(earlier: Trace, now: nat, op: Option<StakeOp>): Trace {
    if op.None? then earlier else Then(earlier, now, op.value)
  }

  /** The trace is in time order up to `now`, and the bond stored for `a` is what it leaves. */
  predicate Follows(t: Trace, info: StakeInfo, now: nat) {
    InOrder(t) && EndOf(t) <= now && BondRun(t).0 == info
  }

  lemma {:induction false} TraceFollows(w: World, calls: seq<Call>, k: nat, a: Address)
    requires k <= |calls| && Deployed(w) && SoundToken(w.tok)
    ensures Inv(Run(w, calls, k))
    ensures Follows(TraceOf(w, calls, k, a), StakeOf(Run(w, calls, k).esc, a), Run(w, calls, k).now)
  {
    hide Step, Inv, OpOn, BondStep, Leaderboard.RecordAll;
    if k == 0 {
      DeployedSafe(w);
      NothingStaked(w, a);
    } else {
      TraceFollows(w, calls, k - 1, a);
      var before := Run(w, calls, k - 1);
      StepSafe(before, calls[k - 1]);
      if Step(before, calls[k - 1]).Ok? {
        CallIsOp(before, calls[k - 1], a);
        TimePasses(before, calls[k - 1]);
      }
    }
  }

  lemma NothingStaked(w: World, a: Address)
    requires Deployed(w)
    ensures StakeOf(w.esc, a) == NO_STAKE
  {
  }

  lemma TimePasses(w: World, call: Call)
    requires Step(w, call).Ok?
    ensures Step(w, call).value.now >= w.now
  {
    hide Step, Leaderboard.RecordAll;
    StepFramed(w, call);
  }

  /** At ledger `now` the bond reads as the account, and its tranches are positive, date-sorted and summed. */
  ghost predicate ReadsAs(info: StakeInfo, acc: Account, now: nat) {
    && Active(info) == Total(acc.stack)
    && Mature(info, now).settled == (if now == U32_MAX then Total(acc.stack) else AgedTotal(acc.stack, now))
    && info.unbonding == acc.unbonding && info.releaseAt == acc.releaseAt
    && SortedTranches(info, now)
  }

  /** The bond reads as the stack of dated deposits its operations built, at this ledger and, left alone, at every
      later one. */
  ghost predicate IsStack(info: StakeInfo, t: Trace, now: nat) {
    forall later: nat :: now <= later <= U32_MAX ==> ReadsAs(info, StackRun(t).0, later)
  }

  lemma FollowsIsStack(t: Trace, info: StakeInfo, now: nat)
    requires Follows(t, info, now)
    ensures IsStack(info, t, now) && BondRun(t).1 == StackRun(t).1
  {
    hide BondRun, StackRun, Mature, SortedTranches, AgedTotal, Total;
    forall later: nat | now <= later <= U32_MAX ensures ReadsAs(info, StackRun(t).0, later) {
      BondIsDepositStack(t, later);
    }
    RunRepresents(t);
  }

  /** In every run of the contract every worker's bond is the stack of dated deposits that the worker's own
      stakes and unstakes, and the slashes that named the worker, build; and it has answered each like it. */
  lemma BondsAreStacks(w: World, calls: seq<Call>, k: nat, a: Address)
    requires k <= |calls| && Deployed(w) && SoundToken(w.tok)
    ensures var t := TraceOf(w, calls, k, a);
            && BondRun(t).0 == StakeOf(Run(w, calls, k).esc, a) && BondRun(t).1 == StackRun(t).1
            && IsStack(StakeOf(Run(w, calls, k).esc, a), t, Run(w, calls, k).now)
  {
    hide TraceOf, Inv, IsStack, StakeOf;
    TraceFollows(w, calls, k, a);
    FollowsIsStack(TraceOf(w, calls, k, a), StakeOf(Run(w, calls, k).esc, a), Run(w, calls, k).now);
  }

  // ---- every run of two instances ---------------------------------------------------------------

  datatype Side = Source | Target

  function StoreOn(p: Pair, side: Side): Store {
    if side == Source then p.source else p.target
  }

  /** The operation a successful joint call is on the bond of `a` on one side. */
  function JointOpOn(p: Pair, call: JointCall, a: Address, side: Side): Option<StakeOp> {
    match call
    case AtSource(c) => if side == Source then OpOn(p.SourceView(), c, a) else None
    case AtTarget(c) => if side == Target then OpOn(p.TargetView(), c, a) else None
    case MoveBalances(addresses) =>
      if a in addresses && StakeHeld(p.source, a) > 0 then
        Some(if side == Source then OpLeave else OpImport(StakeHeld(p.source, a)))
      else None
    case _ => None
  }

  /** The bond of `a` stayed where it was on both sides. */
  predicate BondStays(p: Pair, v: Pair, a: Address) {
    && (a in v.source.stakes <==> a in p.source.stakes)
    && StakeOf(v.source, a) == StakeOf(p.source, a) && StakeOf(v.target, a) == StakeOf(p.target, a)
  }

  /** It left the source and was granted at the target. */
  predicate BondCrosses(p: Pair, v: Pair, a: Address) {
    && a !in v.source.stakes
    && StakeOf(v.target, a) == StakeOf(p.target, a).(settled := StakeOf(p.target, a).settled + StakeHeld(p.source, a))
  }

  lemma OtherAddress(p: Pair, x: Address, a: Address)
    requires MigrateAddress(p, x).Ok? && x != a
    ensures BondStays(p, MigrateAddress(p, x).value, a)
  {
    hide Slashable, Fits, Transfer, Get;
  }

  lemma OwnAddress(p: Pair, a: Address)
    requires MigrateAddress(p, a).Ok? && StakeHeld(p.source, a) >= 0
    requires Get(p.source.owed, a) >= 0 && Get(p.source.prepaid, a) >= 0
    ensures var v := MigrateAddress(p, a).value;
            if StakeHeld(p.source, a) > 0 then BondCrosses(p, v, a) else BondStays(p, v, a)
  {
    hide Slashable, Fits, Transfer, Get;
  }

  lemma {:induction false} AddressesBond(p: Pair, addresses: seq<Address>, k: nat, a: Address)
    requires BothInv(p) && k <= |addresses| && MigrateAddresses(p, addresses, k).Ok?
    ensures var v := MigrateAddresses(p, addresses, k).value.0;
            if a in Firsts(addresses, k) && StakeHeld(p.source, a) > 0 then BondCrosses(p, v, a) else BondStays(p, v, a)
  {
    hide MigrateAddress, BothInv, MovedTogether, HoldingsMoved, StakeOf, StakeHeld;
    if k > 0 {
      AddressesBond(p, addresses, k - 1, a);
      BalancesConserved(p, addresses, k - 1);
      var u, x := MigrateAddresses(p, addresses, k - 1).value.0, addresses[k - 1];
      MovedBoth(p, u);
      HeldSides(u, a);
      if x == a {
        OwnAddress(u, a);
      } else {
        OtherAddress(u, x, a);
      }
      HeldIsBond(p, a);
      HeldIsBond(u, a);
    }
  }

  /** What is held reads off the bond; one that has left holds nothing, so listing it again moves nothing. */
  lemma HeldIsBond(p: Pair, a: Address)
    ensures StakeHeld(p.source, a) == if a in p.source.stakes then Slashable(StakeOf(p.source, a)) else 0
  {
  }

  lemma HeldSides(p: Pair, a: Address)
    requires BothInv(p)
    ensures StakeHeld(p.source, a) >= 0 && Get(p.source.owed, a) >= 0 && Get(p.source.prepaid, a) >= 0
  {
    hide SumBy, PendingIndex.Enumerates, Tables;
    HeldParts(p.source, a, p.contracts);
  }

  lemma {:induction false} BatchKeepsBonds(p: Pair, ids: seq<QuestionId>, k: nat)
    requires k <= |ids| && MigrateBatch(p, ids, k).Ok?
    ensures var v := MigrateBatch(p, ids, k).value.0;
            v.source.stakes == p.source.stakes && v.target.stakes == p.target.stakes && v.now == p.now
  {
    hide MigrateOne;
    if k > 0 {
      BatchKeepsBonds(p, ids, k - 1);
      OneKeepsBonds(MigrateBatch(p, ids, k - 1).value.0, ids[k - 1]);
    }
  }

  lemma OneKeepsBonds(p: Pair, id: QuestionId)
    requires MigrateOne(p, id).Ok?
    ensures var v := MigrateOne(p, id).value;
            v.source.stakes == p.source.stakes && v.target.stakes == p.target.stakes && v.now == p.now
  {
    hide Transfer, PendingIndex.Add, PendingIndex.Remove;
  }

  lemma BalancesBond(p: Pair, addresses: seq<Address>, a: Address, side: Side)
    requires BothInv(p) && MigrateBalances(p, addresses).Ok?
    ensures var v, call := MigrateBalances(p, addresses).value.0, MoveBalances(addresses);
            && v.now == p.now
            && StakeOf(StoreOn(v, side), a) == AfterOp(StakeOf(StoreOn(p, side), a), JointOpOn(p, call, a, side), p.now)
  {
    hide BothInv, HoldingsMoved, Slashable, MigrateAddresses;
    AddressesBond(p, addresses, |addresses|, a);
    BalancesConserved(p, addresses, |addresses|);
    FirstsAre(addresses, |addresses|, a);
  }

  lemma JointCallIsOp(p: Pair, call: JointCall, a: Address, side: Side)
    requires BothInv(p) && JointStep(p, call).Ok?
    ensures var v := JointStep(p, call).value;
            && v.now >= p.now
            && StakeOf(StoreOn(v, side), a) == AfterOp(StakeOf(StoreOn(p, side), a), JointOpOn(p, call, a, side), p.now)
  {
    hide Step, Inv, OpOn, BondStep, MigrateBatch, MigrateBalances, StakeHeld;
    match call
    case AtSource(c) =>
      CallIsOp(p.SourceView(), c, a);
      TimePasses(p.SourceView(), c);
    case AtTarget(c) =>
      CallIsOp(p.TargetView(), c, a);
      TimePasses(p.TargetView(), c);
    case MoveQuestions(ids) => BatchKeepsBonds(p, ids, |ids|);
    case MoveBalances(addresses) => BalancesBond(p, addresses, a, side);
    case NameSource(_) =>
  }

  function JointTrace(p: Pair, calls: seq<JointCall>, k: nat, a: Address, side: Side): Trace
    requires k <= |calls|
  {
    if k == 0 then Start
    else
      var before, earlier := JointRun(p, calls, k - 1), JointTrace(p, calls, k - 1, a, side);
      if JointStep(before, calls[k - 1]).Err? then earlier
      else WithOp(earlier, before.now, JointOpOn(before, calls[k - 1], a, side))
  }

  lemma {:induction false} JointTraceFollows(p: Pair, calls: seq<JointCall>, k: nat, a: Address, side: Side)
    requires k <= |calls| && BothDeployed(p) && SoundToken(p.tok)
    ensures var v := JointRun(p, calls, k);
            Follows(JointTrace(p, calls, k, a, side), StakeOf(StoreOn(v, side), a), v.now)
  {
    hide JointStep, BothInv, JointOpOn, BondStep;
    if k == 0 {
      NothingStaked(p.SourceView(), a);
      NothingStaked(p.TargetView(), a);
    } else {
      JointTraceFollows(p, calls, k - 1, a, side);
      BothAlwaysSolvent(p, calls, k - 1);
      var before := JointRun(p, calls, k - 1);
      if JointStep(before, calls[k - 1]).Ok? {
        JointCallIsOp(before, calls[k - 1], a, side);
      }
    }
  }

  /** So also in every joint run of two instances, on either side, with the stake that leaves one and arrives,
      granted, at the other. */
  lemma JointBondsAreStacks(p: Pair, calls: seq<JointCall>, k: nat, a: Address, side: Side)
    requires k <= |calls| && BothDeployed(p) && SoundToken(p.tok)
    ensures var t, v := JointTrace(p, calls, k, a, side), JointRun(p, calls, k);
            && BondRun(t).0 == StakeOf(StoreOn(v, side), a) && BondRun(t).1 == StackRun(t).1
            && IsStack(StakeOf(StoreOn(v, side), a), t, v.now)
  {
    hide JointTrace, IsStack, StakeOf;
    JointTraceFollows(p, calls, k, a, side);
    var v := JointRun(p, calls, k);
    FollowsIsStack(JointTrace(p, calls, k, a, side), StakeOf(StoreOn(v, side), a), v.now);
  }
}
