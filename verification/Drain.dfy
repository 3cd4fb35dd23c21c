/** Winding down without the admin: when everyone can get everything out, and what stops them. */
module Drain {
  import opened Base
  import opened Stakes
  import opened StakeTotals
  import opened Settlement
  import opened PendingIndex
  import opened Leaderboard
  import opened Ledger
  import opened Calls
  import opened Invariant
  import opened Solvency
  import opened Lifecycle
  import opened SweepTimeouts
  import opened Runs
  import opened Frames
  import opened Challenges

  datatype Plan = Done | Do(call: Call, rest: Plan)

  /** A plan in which every call must succeed. */
  function Play(w: World, plan: Plan): Result<World>
    decreases plan
  {
    match plan
    case Done => Ok(w)
    case Do(call, rest) => var v :- Step(w, call); Play(v, rest)
  }

  /** Time passing, the permissionless exits, and each party taking out what is theirs. */
  predicate SelfServed(call: Call) {
    match call
    case DoRefundTimeout(_) | DoFinalize(_) | DoWithdrawBalance(_, _) | DoBeginUnstake(_, _)
      | DoCompleteUnstake(_) | Wait(_) => true
    case DoWithdraw(worker, recipient, _) => worker == recipient
    case _ => false
  }

  predicate SelfServedPlan(plan: Plan) {
    plan.Do? ==> SelfServed(plan.call) && SelfServedPlan(plan.rest)
  }

  /** No call of the plan is the admin's; anyone else may act in it. */
  predicate ByParties(plan: Plan) {
    plan.Do? ==> !AdminOnly(plan.call) && ByParties(plan.rest)
  }

  lemma {:induction false} SelfServedByParties(plan: Plan)
    requires SelfServedPlan(plan)
    ensures ByParties(plan)
  {
    if plan.Do? {
      SelfServedByParties(plan.rest);
    }
  }

  /** The addresses whose entry is worth something. */
  function Holders<V>(m: map<Address, V>, f: V -> int): set<Address> {
    set a | a in m && f(m[a]) > 0
  }

  /** The addresses with earnings that can sign for them. */
  function Payees(owed: map<Address, int>, contracts: set<Address>): set<Address> {
    Holders(owed, Identity) - contracts
  }

  /** No question or bond is live, and nobody who can sign has anything left inside. */
  ghost predicate AllOut(w: World) {
    && LiveIds(w.esc.questions) == {} && w.esc.bonds == map[]
    && Payees(w.esc.owed, w.contracts) == {} && Holders(w.esc.prepaid, Identity) == {}
    && Holders(w.esc.stakes, Slashable) == {}
  }

  /** No token came from outside or can come back, and no contract, which never signs, has earned or will. */
  ghost predicate Exact(w: World) {
    && Surplus(w) == 0 && OutsidePayouts(w.esc.me, w.esc.config)
    && EarnersSign(w.esc.owed, w.contracts) && WinnersSign(w.esc.resolutions, w.contracts)
  }

  ghost predicate EarnersSign(owed: map<Address, int>, contracts: set<Address>) {
    forall a :: a in contracts ==> Get(owed, a) <= 0
  }

  ghost predicate WinnersSign(resolutions: map<QuestionId, Resolution>, contracts: set<Address>) {
    forall id, i :: id in resolutions && 0 <= i < |resolutions[id].workers| ==> resolutions[id].workers[i] !in contracts
  }

  /** Every call succeeds, everyone is out by ledger `end`, and in an exact world not a stroop is left. */
  ghost predicate Empties(w: World, plan: Plan, end: nat) {
    && SelfServedPlan(plan) && Play(w, plan).Ok?
    && AllOut(Play(w, plan).value) && Play(w, plan).value.now <= end
    && (Exact(w) ==> Play(w, plan).value.Held() == 0)
  }

  lemma Prepend(w: World, call: Call, v: World, rest: Plan, end: nat)
    requires SelfServed(call) && Step(w, call) == Ok(v) && (Exact(w) ==> Exact(v)) && Empties(v, rest, end)
    ensures Empties(w, Do(call, rest), end)
  {
    hide Step, AllOut, Exact;
  }

  // ---- what the parties need ------------------------------------------------------------

  ghost predicate PendingDue(questions: map<QuestionId, Question>, horizon: nat) {
    forall id :: HasStatus(questions, id, Pending) ==> questions[id].Deadline() <= horizon
  }

  /** Every resolution can be finalized by the horizon. */
  ghost predicate ResolutionsDue(resolutions: map<QuestionId, Resolution>, horizon: nat) {
    forall id :: id in resolutions ==> !resolutions[id].disputed && resolutions[id].deadline < horizon
  }

  ghost predicate ReleasedBy(stakes: Bonds, end: nat) {
    forall a :: a in stakes ==> stakes[a].releaseAt <= end
  }

  /** The open resolutions that will credit `a`. */
  ghost function Listing(resolutions: map<QuestionId, Resolution>, a: Address): set<QuestionId> {
    set id | id in resolutions && a in resolutions[id].workers
  }

  /** The counter of `a` has no room for every open resolution that lists it. */
  ghost predicate Crowded(board: Board, resolutions: map<QuestionId, Resolution>, a: Address) {
    Listing(resolutions, a) != {} && CountOf(board, a) + |Listing(resolutions, a)| > U32_MAX
  }

  function End(w: World, horizon: nat): nat {
    ReleaseLedger(horizon, w.esc.config.timeout)
  }

  ghost predicate Windable(w: World, horizon: nat) {
    && Inv(w) && w.now <= horizon <= U32_MAX && w.esc.escalated == map[]
    && PendingDue(w.esc.questions, horizon) && ResolutionsDue(w.esc.resolutions, horizon)
    && ReleasedBy(w.esc.stakes, End(w, horizon))
    && (forall a: Address :: !Crowded(w.esc.board, w.esc.resolutions, a))
  }

  // ---- settling every live question ---------------------------------------------------------

  lemma RefundKeepsWinding(w: World, id: QuestionId)
    requires Windable(w, w.now) && HasStatus(w.esc.questions, id, Pending)
    ensures var r := RefundTimeout(w, id);
            && r.Ok? && Windable(r.value, w.now) && r.value.now == w.now && r.value.esc.config == w.esc.config
            && LiveIds(r.value.esc.questions) == LiveIds(w.esc.questions) - {id}
            && (Exact(w) ==> Exact(r.value))
  {
    hide SumBy, Enumerates, Tables, RefundTimeout, Crowded;
    RefundTimeoutSafe(w, id);
    RefundIs(w, id);
    QuestionUpdate(w.esc.questions, id, w.esc.questions[id].(status := Refunded));
  }

  /** What finalizing changes, besides tokens, the index and the question itself. */
  lemma FinalizeFrame(w: World, id: QuestionId)
    requires Inv(w) && FinalizeResolve(w, id).Ok?
    ensures Finalizable(w, id) && HasStatus(w.esc.questions, id, ResolvedPending)
    ensures var v, res, q := FinalizeResolve(w, id).value, w.esc.resolutions[id], w.esc.questions[id];
            && v.now == w.now && v.contracts == w.contracts
            && v.esc.me == w.esc.me && v.esc.config == w.esc.config
            && v.esc.escalated == w.esc.escalated && v.esc.resolutions == w.esc.resolutions - {id}
            && v.esc.questions == w.esc.questions[id := q.(status := Resolved)]
            && v.esc.prepaid == w.esc.prepaid
            && res.workers != []
            && var n, f := |res.workers|, LoserSlash(q.amount, w.now);
               && RecordAll(w.esc.board, res.workers, n) == Ok(v.esc.board)
               && v.esc.stakes == Distribute(w.esc.stakes, res.losers, |res.losers|, f, n).stakes
               && CreditAll(w.esc.owed, res.workers, n,
                            UncheckedBill(w.esc.stakes, q.amount, n, res.losers, f).workerCredit)
                  == Ok(v.esc.owed)
  {
    hide SumBy, Books, Enumerates, RouteTake, SlasherAt, Remove;
    var q, res := w.esc.questions[id], w.esc.resolutions[id];
    var bill := MakeBill(w.esc.stakes, q.amount, |res.workers|, res.losers, LoserSlash(q.amount, w.now)).value;
    TogetherIsApart(w.esc.owed, w.esc.board, res.workers, |res.workers|, bill.workerCredit);
  }

  /** Slashing never touches a release ledger. */
  lemma SlashKeepsReleases(stakes: Bonds, losers: seq<Address>, cap: int, now: nat, n: nat, end: nat)
    requires n > 0 && AllSound(stakes) && ReleasedBy(stakes, end)
    ensures ReleasedBy(Distribute(stakes, losers, |losers|, SlasherAt(cap, now), n).stakes, end)
  {
    var good := (info: StakeInfo) => info.releaseAt <= end && Sound(info);
    forall info {:trigger SlasherAt(cap, now)(info)} | good(info)
      ensures var r := SlasherAt(cap, now)(info);
              good(r.0) && r.1 >= 0 && Slashable(r.0) == Slashable(info) - r.1
    {
      SlashSound(info, cap, now);
    }
    DistributeKeeps(stakes, losers, |losers|, SlasherAt(cap, now), n, good, Slashable);
  }

  lemma FinalizeKeepsWinding(w: World, id: QuestionId)
    requires Windable(w, w.now) && HasStatus(w.esc.questions, id, ResolvedPending)
    ensures var r := FinalizeResolve(w, id);
            && r.Ok? && Windable(r.value, w.now) && r.value.now == w.now && r.value.esc.config == w.esc.config
            && LiveIds(r.value.esc.questions) == LiveIds(w.esc.questions) - {id}
            && (Exact(w) ==> Exact(r.value))
  {
    hide SumBy, Enumerates, FinalizeResolve, RecordAll, Distribute, SlasherAt, CreditAll, UncheckedBill, Crowded;
    var res, q := w.esc.resolutions[id], w.esc.questions[id];
    RoomToFinalize(w, id);
    FinalizesExactlyWhen(w, id);
    FinalizeSafe(w, id);
    FinalizeFrame(w, id);
    QuestionUpdate(w.esc.questions, id, q.(status := Resolved));
    var v := FinalizeResolve(w, id).value;
    forall a: Address ensures !Crowded(v.esc.board, v.esc.resolutions, a) {
      CrowdFollows(w, v, id, a);
    }
    SlashKeepsReleases(w.esc.stakes, res.losers, SlashCap(q.amount), w.now, |res.workers|, End(w, w.now));
    if Exact(w) {
      var bill := UncheckedBill(w.esc.stakes, q.amount, |res.workers|, res.losers, LoserSlash(q.amount, w.now));
      CreditsSign(w.esc.owed, res.workers, bill.workerCredit, w.contracts);
    }
  }

  lemma RoomToFinalize(w: World, id: QuestionId)
    requires id in w.esc.resolutions && forall a: Address :: !Crowded(w.esc.board, w.esc.resolutions, a)
    ensures CountsFit(w.esc.board, w.esc.resolutions[id].workers)
  {
    var ws := w.esc.resolutions[id].workers;
    forall i | 0 <= i < |ws| ensures CountOf(w.esc.board, ws[i]) < U32_MAX {
      assert id in Listing(w.esc.resolutions, ws[i]);
      assert !Crowded(w.esc.board, w.esc.resolutions, ws[i]);
    }
  }

  /** Finalizing moves one listing of each winner into its counter, so neither crowds nor relieves anyone. */
  lemma CrowdFollows(w: World, v: World, id: QuestionId, a: Address)
    requires id in w.esc.resolutions && v.esc.resolutions == w.esc.resolutions - {id}
    requires var ws := w.esc.resolutions[id].workers;
             NoDup(ws) && RecordAll(w.esc.board, ws, |ws|) == Ok(v.esc.board)
    ensures Crowded(v.esc.board, v.esc.resolutions, a) <==> Crowded(w.esc.board, w.esc.resolutions, a)
  {
    hide RecordAll;
    var ws := w.esc.resolutions[id].workers;
    RecordOnce(w.esc.board, ws, |ws|);
    RecordAllNeeds(w.esc.board, ws, |ws|);
    var before, after := Listing(w.esc.resolutions, a), Listing(v.esc.resolutions, a);
    assert after == before - {id};
    if a in ws {
      assert id in before && |after| == |before| - 1;
    } else {
      assert after == before;
    }
  }

  lemma CreditsSign(owed: map<Address, int>, workers: seq<Address>, credit: int, contracts: set<Address>)
    requires EarnersSign(owed, contracts) && NoDup(workers) && CreditAll(owed, workers, |workers|, credit).Ok?
    requires forall i :: 0 <= i < |workers| ==> workers[i] !in contracts
    ensures EarnersSign(CreditAll(owed, workers, |workers|, credit).value, contracts)
  {
    hide CreditAll;
    forall a | a in contracts ensures Get(CreditAll(owed, workers, |workers|, credit).value, a) <= 0 {
      CreditAllPointwise(owed, workers, |workers|, credit, a);
    }
  }

  lemma {:induction false} SettleAll(w: World) returns (plan: Plan)
    requires Windable(w, w.now)
    ensures Empties(w, plan, End(w, w.now))
    decreases |LiveIds(w.esc.questions)|
  {
    hide Windable, RefundTimeout, FinalizeResolve, LiveIds, Exact, Empties;
    var live := LiveIds(w.esc.questions);
    if live == {} {
      NoneLive(w);
      plan := PayOwed(w, End(w, w.now));
    } else {
      var id :| id in live;
      LiveKinds(w, id);
      assert |live - {id}| < |live|;
      if w.esc.questions[id].status == Pending {
        RefundKeepsWinding(w, id);
        var rest := SettleAll(RefundTimeout(w, id).value);
        plan := Do(DoRefundTimeout(id), rest);
        Prepend(w, plan.call, RefundTimeout(w, id).value, rest, End(w, w.now));
      } else {
        FinalizeKeepsWinding(w, id);
        var rest := SettleAll(FinalizeResolve(w, id).value);
        plan := Do(DoFinalize(id), rest);
        Prepend(w, plan.call, FinalizeResolve(w, id).value, rest, End(w, w.now));
      }
    }
  }

  lemma LiveKinds(w: World, id: QuestionId)
    requires Windable(w, w.now) && id in LiveIds(w.esc.questions)
    ensures HasStatus(w.esc.questions, id, Pending) || HasStatus(w.esc.questions, id, ResolvedPending)
  {
    hide SumBy, Enumerates, Books;
    assert id !in w.esc.escalated;
  }

  // ---- taking everything out ---------------------------------------------------------------

  /** Nothing live is left: only earnings, prepaid balances and stakes. */
  ghost predicate Wound(w: World, end: nat) {
    && Inv(w) && LiveIds(w.esc.questions) == {} && w.esc.bonds == map[]
    && w.now <= end <= U32_MAX && ReleaseLedger(w.now, w.esc.config.timeout) <= end
    && ReleasedBy(w.esc.stakes, end)
  }

  lemma NoneLive(w: World)
    requires Windable(w, w.now) && LiveIds(w.esc.questions) == {}
    ensures Wound(w, End(w, w.now))
  {
    hide SumBy, Enumerates, Books, Crowded;
    forall id ensures id !in w.esc.bonds {
      assert id in w.esc.bonds ==> id in LiveIds(w.esc.questions);
    }
  }

  lemma OneHolderLess<V>(m: map<Address, V>, f: V -> int, a: Address, v: V)
    requires a in Holders(m, f) && f(v) <= 0
    ensures Holders(m[a := v], f) == Holders(m, f) - {a}
    ensures |Holders(m[a := v], f)| < |Holders(m, f)|
  {
    assert Holders(m[a := v], f) == Holders(m, f) - {a};
  }

  lemma OnePayeeLess(owed: map<Address, int>, contracts: set<Address>, a: Address)
    requires a in Payees(owed, contracts)
    ensures |Payees(owed[a := 0], contracts)| < |Payees(owed, contracts)|
  {
    assert Payees(owed[a := 0], contracts) == Payees(owed, contracts) - {a};
  }

  lemma {:induction false} PayOwed(w: World, end: nat) returns (plan: Plan)
    requires Wound(w, end)
    ensures Empties(w, plan, end)
    decreases |Payees(w.esc.owed, w.contracts)|
  {
    hide Wound, Withdraw, Exact, Empties;
    var earners := Payees(w.esc.owed, w.contracts);
    if earners == {} {
      plan := PayPrepaid(w, end);
    } else {
      var a :| a in earners;
      var amount := w.esc.owed[a];
      WithdrawKeepsWound(w, a, end);
      OnePayeeLess(w.esc.owed, w.contracts, a);
      var rest := PayOwed(Withdraw(w, a, a, amount).value, end);
      plan := Do(DoWithdraw(a, a, amount), rest);
      Prepend(w, plan.call, Withdraw(w, a, a, amount).value, rest, end);
    }
  }

  lemma WithdrawKeepsWound(w: World, a: Address, end: nat)
    requires Wound(w, end) && a in Payees(w.esc.owed, w.contracts)
    ensures var r := Withdraw(w, a, a, w.esc.owed[a]);
            && r.Ok? && Wound(r.value, end) && r.value.contracts == w.contracts
            && r.value.esc.owed == w.esc.owed[a := 0] && (Exact(w) ==> Exact(r.value))
  {
    hide SumBy, Enumerates, Tables, Books;
    WithdrawSafe(w, a, a, w.esc.owed[a]);
  }

  lemma {:induction false} PayPrepaid(w: World, end: nat) returns (plan: Plan)
    requires Wound(w, end) && Payees(w.esc.owed, w.contracts) == {}
    ensures Empties(w, plan, end)
    decreases |Holders(w.esc.prepaid, Identity)|
  {
    hide Wound, WithdrawBalance, Exact, Empties;
    var payers := Holders(w.esc.prepaid, Identity);
    if payers == {} {
      plan := UnstakeAll(w, end);
    } else {
      var a :| a in payers;
      var amount := w.esc.prepaid[a];
      WithdrawBalanceKeepsWound(w, a, end);
      OneHolderLess(w.esc.prepaid, Identity, a, 0);
      var rest := PayPrepaid(WithdrawBalance(w, a, amount).value, end);
      plan := Do(DoWithdrawBalance(a, amount), rest);
      Prepend(w, plan.call, WithdrawBalance(w, a, amount).value, rest, end);
    }
  }

  lemma WithdrawBalanceKeepsWound(w: World, a: Address, end: nat)
    requires Wound(w, end) && a in Holders(w.esc.prepaid, Identity)
    ensures var r := WithdrawBalance(w, a, w.esc.prepaid[a]);
            && r.Ok? && Wound(r.value, end) && r.value.contracts == w.contracts
            && r.value.esc.prepaid == w.esc.prepaid[a := 0] && r.value.esc.owed == w.esc.owed
            && (Exact(w) ==> Exact(r.value))
  {
    hide SumBy, Enumerates, Tables, Books;
    WithdrawBalanceSafe(w, a, w.esc.prepaid[a]);
  }

  /** Only stakes are left. */
  ghost predicate OnlyStakes(w: World, end: nat) {
    Wound(w, end) && Payees(w.esc.owed, w.contracts) == {} && Holders(w.esc.prepaid, Identity) == {}
  }

  lemma {:induction false} UnstakeAll(w: World, end: nat) returns (plan: Plan)
    requires OnlyStakes(w, end)
    ensures Empties(w, plan, end)
    decreases |Holders(w.esc.stakes, Active)|
  {
    hide OnlyStakes, BeginUnstake, Releasing, Exact, Empties;
    var stakers := Holders(w.esc.stakes, Active);
    if stakers == {} {
      var later := w.(now := end);
      LaterWound(w, end);
      var rest := ReleaseAll(later);
      plan := Do(Wait(end - w.now), rest);
      Prepend(w, plan.call, later, rest, end);
    } else {
      var a :| a in stakers;
      var amount := Active(w.esc.stakes[a]);
      BeginUnstakeKeepsWound(w, a, end);
      var v := BeginUnstake(w, a, amount).value;
      OneHolderLess(w.esc.stakes, Active, a, v.esc.stakes[a]);
      var rest := UnstakeAll(v, end);
      plan := Do(DoBeginUnstake(a, amount), rest);
      Prepend(w, plan.call, v, rest, end);
    }
  }

  lemma BeginUnstakeKeepsWound(w: World, a: Address, end: nat)
    requires OnlyStakes(w, end) && a in Holders(w.esc.stakes, Active)
    ensures var r := BeginUnstake(w, a, Active(w.esc.stakes[a]));
            && r.Ok? && OnlyStakes(r.value, end)
            && a in r.value.esc.stakes && r.value.esc.stakes == w.esc.stakes[a := r.value.esc.stakes[a]]
            && Active(r.value.esc.stakes[a]) <= 0 && (Exact(w) ==> Exact(r.value))
  {
    hide SumBy, Enumerates, Tables, Unstake;
    BeginUnstakeSafe(w, a, Active(w.esc.stakes[a]));
    UnstakeSound(w.esc.stakes[a], Active(w.esc.stakes[a]), w.now, w.esc.config.timeout);
    UnstakeReleases(w.esc.stakes[a], Active(w.esc.stakes[a]), w.now, w.esc.config.timeout);
  }

  lemma UnstakeReleases(info: StakeInfo, amount: int, now: nat, timeout: nat)
    requires Unstake(info, amount, now, timeout).Ok?
    ensures Unstake(info, amount, now, timeout).value.releaseAt == ReleaseLedger(now, timeout)
  {
  }

  /** Every stake is unbonding and past its release ledger. */
  ghost predicate Releasing(w: World) {
    && Inv(w) && LiveIds(w.esc.questions) == {} && w.esc.bonds == map[]
    && ReleasedBy(w.esc.stakes, w.now)
    && Payees(w.esc.owed, w.contracts) == {} && Holders(w.esc.prepaid, Identity) == {}
    && Holders(w.esc.stakes, Active) == {}
  }

  lemma LaterWound(w: World, end: nat)
    requires OnlyStakes(w, end) && Holders(w.esc.stakes, Active) == {}
    ensures w.now <= end <= U32_MAX && Releasing(w.(now := end)) && (Exact(w) ==> Exact(w.(now := end)))
  {
    hide SumBy, Enumerates, Tables, Books;
  }

  function Unbonding(info: StakeInfo): int { info.unbonding }

  lemma {:induction false} ReleaseAll(w: World) returns (plan: Plan)
    requires Releasing(w)
    ensures Empties(w, plan, w.now)
    decreases |Holders(w.esc.stakes, Unbonding)|
  {
    hide Releasing, CompleteUnstake, AllOut, Exact;
    var leaving := Holders(w.esc.stakes, Unbonding);
    if leaving == {} {
      NothingLeft(w);
      plan := Done;
    } else {
      var a :| a in leaving;
      ReleaseKeeps(w, a);
      var v := CompleteUnstake(w, a).value;
      OneHolderLess(w.esc.stakes, Unbonding, a, v.esc.stakes[a]);
      var rest := ReleaseAll(v);
      plan := Do(DoCompleteUnstake(a), rest);
    }
  }

  lemma ReleaseKeeps(w: World, a: Address)
    requires Releasing(w) && a in Holders(w.esc.stakes, Unbonding)
    ensures var r := CompleteUnstake(w, a);
            && r.Ok? && Releasing(r.value) && r.value.now == w.now
            && a in r.value.esc.stakes && r.value.esc.stakes == w.esc.stakes[a := r.value.esc.stakes[a]]
            && r.value.esc.stakes[a].unbonding == 0 && (Exact(w) ==> Exact(r.value))
  {
    hide SumBy, Enumerates, Tables, Release;
    CompleteUnstakeSafe(w, a);
    ReleaseSound(w.esc.stakes[a], w.now);
    ReleaseClears(w.esc.stakes[a], w.now);
    var v := CompleteUnstake(w, a).value;
    forall x ensures x !in Holders(v.esc.stakes, Active) {
      assert x !in Holders(w.esc.stakes, Active);
      assert a !in Holders(w.esc.stakes, Active);
    }
  }

  lemma ReleaseClears(info: StakeInfo, now: nat)
    requires Release(info, now).Ok?
    ensures Release(info, now).value.0.releaseAt == 0
  {
  }

  lemma NothingLeft(w: World)
    requires Releasing(w) && Holders(w.esc.stakes, Unbonding) == {}
    ensures AllOut(w) && (Exact(w) ==> w.Held() == 0)
  {
    hide SumBy, Enumerates, Tables;
    forall a | a in w.esc.stakes ensures Slashable(w.esc.stakes[a]) == 0 {
      assert a !in Holders(w.esc.stakes, Active) && a !in Holders(w.esc.stakes, Unbonding);
      MatureSound(w.esc.stakes[a], 0);
      TrancheSumBounds(w.esc.stakes[a].tranches, |w.esc.stakes[a].tranches|, 0);
    }
    if Exact(w) {
      NothingOwed(w);
    }
  }

  /** Once everyone is out of an exact world, there are no claims left. */
  lemma NothingOwed(w: World)
    requires Inv(w) && AllOut(w) && Exact(w)
    ensures w.Held() == 0
  {
    var s := w.esc;
    forall id | id in s.questions ensures LiveAmount(s.questions[id]) == 0 {
      assert id !in LiveIds(s.questions);
    }
    forall a | a in s.owed ensures s.owed[a] == 0 {
      assert a !in Payees(s.owed, w.contracts);
      assert a in w.contracts ==> Get(s.owed, a) <= 0;
    }
    forall a | a in s.prepaid ensures s.prepaid[a] == 0 {
      assert a !in Holders(s.prepaid, Identity);
    }
    forall a | a in s.stakes ensures Slashable(s.stakes[a]) == 0 {
      assert a !in Holders(s.stakes, Slashable);
      MatureSound(s.stakes[a], 0);
    }
    SumZero(s.questions, LiveAmount);
    SumZero(s.owed, Identity);
    SumZero(s.prepaid, Identity);
    SumZero(s.stakes, Slashable);
    SumZero(s.bonds, BondValue);
  }

  // ---- the schedule ------------------------------------------------------------------------

  /** From any windable state there is a plan, with no call by the admin, in which every call succeeds and
      everyone who can sign gets everything out within one unbonding period of the horizon; when no token came
      from outside and no contract earns, the escrow ends with exactly nothing. */
  lemma EveryoneGetsOut(w: World, horizon: nat) returns (plan: Plan)
    requires Windable(w, horizon)
    ensures Empties(w, plan, End(w, horizon)) && ByParties(plan)
  {
    hide SumBy, Enumerates, Tables, Books, Crowded, AllOut;
    WaitSafe(w, horizon - w.now);
    var rest := SettleAll(w.(now := horizon));
    plan := Do(Wait(horizon - w.now), rest);
    SelfServedByParties(plan);
  }

  // ---- what stops it --------------------------------------------------------------------------

  /** Out of the parties' own reach: an escalated question, or a stuck resolution. */
  ghost predicate OutOfReach(w: World, id: QuestionId) {
    StuckAt(w, id) || HasStatus(w.esc.questions, id, Disputed)
  }

  lemma DisputedNeedsAdmin(w: World, call: Call, id: QuestionId)
    requires !AdminOnly(call) && HasStatus(w.esc.questions, id, Disputed) && Step(w, call).Ok?
    ensures HasStatus(Step(w, call).value.esc.questions, id, Disputed)
  {
    hide Step, RefundTimeout, FinalizeResolve;
    if call.DoSweep? {
      SweepStep(w, call.ids);
      SweepEvolves(w, call.ids, |call.ids|, id);
    } else {
      StepFramed(w, call);
    }
  }

  /** Nothing the parties do makes room in a crowded counter. */
  lemma CrowdNeedsAdmin(w: World, call: Call, a: Address)
    requires Inv(w) && !AdminOnly(call) && Step(w, call).Ok? && Crowded(w.esc.board, w.esc.resolutions, a)
    ensures var v := Step(w, call).value; Crowded(v.esc.board, v.esc.resolutions, a)
  {
    hide Step, SumBy, Books, Enumerates, Crowded, RecordAll, FinalizeResolve;
    StepFramed(w, call);
    if call.DoFinalize? {
      CrowdFollows(w, Step(w, call).value, call.id, a);
    } else {
      assert Winners(w, call) == [];
      NothingRecorded(w.esc.board);
    }
  }

  lemma NothingRecorded(board: Board)
    ensures RecordAll(board, [], 0) == Ok(board)
  {
  }

  /** Something only the admin could unblock, or nobody. */
  ghost predicate Blocked(w: World) {
    || (exists id :: OutOfReach(w, id))
    || (exists a: Address :: Crowded(w.esc.board, w.esc.resolutions, a))
  }

  lemma BlockedMeansLive(w: World)
    requires Inv(w) && Blocked(w)
    ensures LiveIds(w.esc.questions) != {} && w.Held() > 0
  {
    hide SumBy, Books, Enumerates, Claims;
    var id: QuestionId;
    if i :| OutOfReach(w, i) {
      id := i;
    } else {
      var a: Address :| Crowded(w.esc.board, w.esc.resolutions, a);
      id :| id in Listing(w.esc.resolutions, a);
    }
    assert id in LiveIds(w.esc.questions);
    EveryClaimBacked(w, 0, id);
  }

  lemma BlockedStep(w: World, call: Call)
    requires Inv(w) && Blocked(w) && !AdminOnly(call) && Step(w, call).Ok?
    ensures Inv(Step(w, call).value) && Blocked(Step(w, call).value)
  {
    hide Step, SumBy, Inv, Crowded, Stuck;
    var v := Step(w, call).value;
    StepSafe(w, call);
    if id :| OutOfReach(w, id) {
      if StuckAt(w, id) {
        StuckStep(w, call, id);
      } else {
        DisputedNeedsAdmin(w, call, id);
      }
      assert OutOfReach(v, id);
    } else {
      var a: Address :| Crowded(w.esc.board, w.esc.resolutions, a);
      CrowdNeedsAdmin(w, call, a);
      assert Crowded(v.esc.board, v.esc.resolutions, a);
    }
  }

  /** Whatever the parties do, in any order and with anyone's help but the admin's, a blocked escrow stays
      blocked. */
  lemma {:induction false} PlanLeaves(w: World, plan: Plan)
    requires Inv(w) && ByParties(plan) && Play(w, plan).Ok? && Blocked(w)
    ensures Inv(Play(w, plan).value) && Blocked(Play(w, plan).value)
    decreases plan
  {
    hide Step, SumBy, Inv, Blocked;
    if plan.Do? {
      BlockedStep(w, plan.call);
      PlanLeaves(Step(w, plan.call).value, plan.rest);
    }
  }

  /** Exactly when the parties can all get out by themselves, in every solvent state: no question is escalated,
      no resolution is flagged or left open to the last ledger, and no winner's u32 counter is too full for the
      resolutions that are still to credit it. */
  lemma DrainsExactlyWhenReachable(w: World)
    requires Inv(w)
    ensures (exists plan :: ByParties(plan) && Play(w, plan).Ok? && AllOut(Play(w, plan).value)) <==>
              && (forall id :: !OutOfReach(w, id))
              && (forall a: Address :: !Crowded(w.esc.board, w.esc.resolutions, a))
  {
    hide Play, ByParties, SelfServedPlan, Inv, Crowded, OutOfReach, Exact;
    if Blocked(w) {
      forall plan | ByParties(plan) && Play(w, plan).Ok? ensures !AllOut(Play(w, plan).value) {
        PlanLeaves(w, plan);
        BlockedMeansLive(Play(w, plan).value);
      }
    } else {
      LastLedger(w);
      var plan := EveryoneGetsOut(w, U32_MAX);
      assert ByParties(plan) && Play(w, plan).Ok? && AllOut(Play(w, plan).value);
    }
  }

  /** And when no token came from outside and no contract earns, exactly then can the parties empty the escrow
      to the last stroop. */
  lemma EmptiesExactlyWhenReachable(w: World)
    requires Inv(w) && Exact(w)
    ensures (exists plan :: ByParties(plan) && Play(w, plan).Ok? && Play(w, plan).value.Held() == 0) <==>
              && (forall id :: !OutOfReach(w, id))
              && (forall a: Address :: !Crowded(w.esc.board, w.esc.resolutions, a))
  {
    hide Play, ByParties, SelfServedPlan, Inv, Crowded, OutOfReach, Exact;
    if Blocked(w) {
      forall plan | ByParties(plan) && Play(w, plan).Ok? ensures Play(w, plan).value.Held() != 0 {
        PlanLeaves(w, plan);
        BlockedMeansLive(Play(w, plan).value);
      }
    } else {
      LastLedger(w);
      var plan := EveryoneGetsOut(w, U32_MAX);
      assert ByParties(plan) && Play(w, plan).Ok? && Play(w, plan).value.Held() == 0;
    }
  }

  lemma LastLedger(w: World)
    requires Inv(w) && !Blocked(w)
    ensures Windable(w, U32_MAX) && End(w, U32_MAX) == U32_MAX
  {
    hide SumBy, Enumerates, Crowded;
    forall id | id in w.esc.resolutions ensures !Stuck(w.esc.resolutions[id]) {
      assert !OutOfReach(w, id);
    }
    forall id ensures id !in w.esc.escalated {
      assert !OutOfReach(w, id);
    }
    forall a | a in w.esc.stakes ensures w.esc.stakes[a].releaseAt <= U32_MAX {
      assert Sound(w.esc.stakes[a]);
    }
  }
}
