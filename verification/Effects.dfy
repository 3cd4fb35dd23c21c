/** Who pays whom: when each call succeeds, and everything it then changes. */
module Effects {
  import opened Base
  import opened Stakes
  import opened StakeTotals
  import opened Settlement
  import opened PendingIndex
  import opened Ledger
  import opened Calls
  import opened Invariant
  import opened Solvency

  // ---- tokens and balances ------------------------------------------------------------

  /** Exactly `amount` went from one address to another; paying oneself changes nothing. */
  ghost predicate Paid(before: Balances, after: Balances, from: Address, to: Address, amount: int) {
    forall a :: Get(after, a) == Get(before, a) + (if a == to then amount else 0) - if a == from then amount else 0
  }

  /** One entry moved by `delta`, every other is as it was. */
  ghost predicate Changed(before: map<Address, int>, after: map<Address, int>, who: Address, delta: int) {
    forall a :: Get(after, a) == Get(before, a) + if a == who then delta else 0
  }

  lemma TransferPays(tok: Balances, from: Address, to: Address, amount: int)
    ensures var r := Transfer(tok, from, to, amount);
            && (r.Ok? <==> 0 <= amount <= Get(tok, from))
            && (r.Err? ==> r.error == Trap)
            && (r.Ok? ==> Paid(tok, r.value, from, to, amount))
  {
    TransferConserves(tok, from, to, amount);
  }

  /** What two addresses hold together fits an i128. */
  lemma TogetherBounded(tok: Balances, a: Address, b: Address)
    requires SoundToken(tok) && a != b
    ensures 0 <= Get(tok, a) + Get(tok, b) <= I128_MAX
  {
    HeldBounded(tok, a);
    HeldBounded(tok, b);
    if a in tok {
      SumRemove(tok, a, Identity);
      HeldBounded(tok - {a}, b);
    }
  }

  /** deposit() succeeds exactly for a signing payer with the tokens, and moves them into its balance. */
  lemma DepositExactly(w: World, payer: Address, amount: int)
    requires Inv(w)
    ensures var r := Step(w, DoDeposit(payer, amount));
            && (r.Ok? <==> !w.esc.config.paused && payer !in w.contracts && 0 < amount <= Get(w.tok, payer))
            && (r.Ok? ==>
                var v := r.value;
                && v == w.(tok := v.tok, esc := w.esc.(prepaid := v.esc.prepaid))
                && Paid(w.tok, v.tok, payer, w.esc.me, amount)
                && Changed(w.esc.prepaid, v.esc.prepaid, payer, amount))
  {
    hide SumBy, Transfer, Enumerates, Tables;
    TransferPays(w.tok, payer, w.esc.me, amount);
    EveryClaimBacked(w, payer, 0);
    if payer !in w.contracts {
      TogetherBounded(w.tok, w.esc.me, payer);
    }
  }

  /** withdraw_balance() succeeds exactly for a signing payer with the balance, and pays it to that payer. */
  lemma WithdrawBalanceExactly(w: World, payer: Address, amount: int)
    requires Inv(w)
    ensures var r := Step(w, DoWithdrawBalance(payer, amount));
            && (r.Ok? <==> payer !in w.contracts && 0 < amount <= Get(w.esc.prepaid, payer))
            && (r.Ok? ==>
                var v := r.value;
                && v == w.(tok := v.tok, esc := w.esc.(prepaid := v.esc.prepaid))
                && Paid(w.tok, v.tok, w.esc.me, payer, amount)
                && Changed(w.esc.prepaid, v.esc.prepaid, payer, -amount))
  {
    hide SumBy, Transfer, Enumerates, Tables;
    TransferPays(w.tok, w.esc.me, payer, amount);
    EveryClaimBacked(w, payer, 0);
  }

  /** withdraw() succeeds exactly for a signing worker who is owed as much; the recipient it names, and nobody
      else, receives the amount. */
  lemma WithdrawExactly(w: World, worker: Address, recipient: Address, amount: int)
    requires Inv(w)
    ensures var r := Step(w, DoWithdraw(worker, recipient, amount));
            && (r.Ok? <==> worker !in w.contracts && 0 < amount <= Get(w.esc.owed, worker))
            && (r.Ok? ==>
                var v := r.value;
                && v == w.(tok := v.tok, esc := w.esc.(owed := v.esc.owed))
                && Paid(w.tok, v.tok, w.esc.me, recipient, amount)
                && Changed(w.esc.owed, v.esc.owed, worker, -amount))
  {
    hide SumBy, Transfer, Enumerates, Tables;
    TransferPays(w.tok, w.esc.me, recipient, amount);
    EveryClaimBacked(w, worker, 0);
  }

  // ---- stakes -----------------------------------------------------------------------

  /** Only the bond of `worker` is different. */
  ghost predicate OnlyBond(before: Bonds, after: Bonds, worker: Address) {
    forall a :: a != worker ==> (a in after <==> a in before) && (a in before ==> after[a] == before[a])
  }

  lemma Stored(w: World, worker: Address, info: StakeInfo)
    ensures var v := SetStake(w, worker, info);
            StakeOf(v.esc, worker) == info && OnlyBond(w.esc.stakes, v.esc.stakes, worker)
  {
  }

  lemma TopUpAdds(info: StakeInfo, amount: int, now: nat)
    requires Sound(info) && amount > 0 && Slashable(info) + amount <= I128_MAX
    ensures var r := TopUp(info, amount, now);
            && r.Ok? && Active(r.value) == Active(info) + amount
            && r.value.unbonding == info.unbonding && r.value.releaseAt == info.releaseAt
  {
    MatureSound(info, now);
  }

  lemma UnstakeMoves(info: StakeInfo, amount: int, now: nat, timeout: nat)
    requires Sound(info) && Slashable(info) <= I128_MAX
    ensures var r := Unstake(info, amount, now, timeout);
            && (r.Ok? <==> 0 < amount <= Active(info))
            && (r.Ok? ==>
                && Active(r.value) == Active(info) - amount && r.value.unbonding == info.unbonding + amount
                && r.value.releaseAt == Min(U32_MAX, now + Max(51_840, timeout)))
  {
    MatureSound(info, now);
    if Unstake(info, amount, now, timeout).Ok? {
      UnstakeSound(info, amount, now, timeout);
    }
  }

  lemma ReleaseEmpties(info: StakeInfo, now: nat)
    requires Sound(info)
    ensures var r := Release(info, now);
            && (r.Ok? <==> info.unbonding > 0 && now >= info.releaseAt)
            && (r.Ok? ==>
                r.value.1 == info.unbonding && Active(r.value.0) == Active(info) && r.value.0.unbonding == 0)
  {
    if Release(info, now).Ok? {
      ReleaseSound(info, now);
    }
  }

  /** stake() succeeds exactly for a signing worker with the tokens, and adds them to its active stake. */
  lemma StakeExactly(w: World, worker: Address, amount: int)
    requires Inv(w)
    ensures var r := Step(w, DoStake(worker, amount));
            && (r.Ok? <==> !w.esc.config.paused && worker !in w.contracts && 0 < amount <= Get(w.tok, worker))
            && (r.Ok? ==>
                var v := r.value;
                var before, after := StakeOf(w.esc, worker), StakeOf(v.esc, worker);
                && v == w.(tok := v.tok, esc := w.esc.(stakes := v.esc.stakes))
                && Paid(w.tok, v.tok, worker, w.esc.me, amount)
                && OnlyBond(w.esc.stakes, v.esc.stakes, worker)
                && Active(after) == Active(before) + amount
                && after.unbonding == before.unbonding && after.releaseAt == before.releaseAt)
  {
    hide SumBy, Transfer, Enumerates, Tables, StakeOf, TopUp, OnlyBond, Active;
    TransferPays(w.tok, worker, w.esc.me, amount);
    StakeBounded(w.esc, worker);
    EveryClaimBacked(w, worker, 0);
    if worker !in w.contracts {
      TogetherBounded(w.tok, w.esc.me, worker);
    }
    if worker !in w.contracts && 0 < amount <= Get(w.tok, worker) {
      TopUpAdds(StakeOf(w.esc, worker), amount, w.now);
      Stored(w, worker, TopUp(StakeOf(w.esc, worker), amount, w.now).value);
    }
  }

  /** begin_unstake() succeeds exactly for a signing worker with the active stake. It moves no token: the amount
      waits in the unbonding bucket for three days of ledgers or the timeout, whichever is longer. */
  lemma BeginUnstakeExactly(w: World, worker: Address, amount: int)
    requires Inv(w)
    ensures var r := Step(w, DoBeginUnstake(worker, amount));
            var before := StakeOf(w.esc, worker);
            && (r.Ok? <==> worker !in w.contracts && 0 < amount <= Active(before))
            && (r.Ok? ==>
                var v := r.value;
                var after := StakeOf(v.esc, worker);
                && v == w.(esc := w.esc.(stakes := v.esc.stakes))
                && OnlyBond(w.esc.stakes, v.esc.stakes, worker)
                && Active(after) == Active(before) - amount && after.unbonding == before.unbonding + amount
                && after.releaseAt == Min(U32_MAX, w.now + Max(51_840, w.esc.config.timeout)))
  {
    hide SumBy, Transfer, Enumerates, Tables, StakeOf, Unstake, OnlyBond, Active;
    var info := StakeOf(w.esc, worker);
    StakeBounded(w.esc, worker);
    EveryClaimBacked(w, worker, 0);
    UnstakeMoves(info, amount, w.now, w.esc.config.timeout);
    if Unstake(info, amount, w.now, w.esc.config.timeout).Ok? {
      Stored(w, worker, Unstake(info, amount, w.now, w.esc.config.timeout).value);
    }
  }

  /** complete_unstake() succeeds exactly for a signing worker whose unbonding stake has come due, and pays that
      worker the whole bucket. */
  lemma CompleteUnstakeExactly(w: World, worker: Address)
    requires Inv(w)
    ensures var r := Step(w, DoCompleteUnstake(worker));
            var before := StakeOf(w.esc, worker);
            && (r.Ok? <==> worker !in w.contracts && before.unbonding > 0 && w.now >= before.releaseAt)
            && (r.Ok? ==>
                var v := r.value;
                var after := StakeOf(v.esc, worker);
                && v == w.(tok := v.tok, esc := w.esc.(stakes := v.esc.stakes))
                && Paid(w.tok, v.tok, w.esc.me, worker, before.unbonding)
                && OnlyBond(w.esc.stakes, v.esc.stakes, worker)
                && Active(after) == Active(before) && after.unbonding == 0)
  {
    hide SumBy, Transfer, Enumerates, Tables, StakeOf, Release, OnlyBond, Active;
    var info := StakeOf(w.esc, worker);
    StakeBounded(w.esc, worker);
    CompleteUnstakeSafe(w, worker);
    ReleaseEmpties(info, w.now);
    TransferPays(w.tok, w.esc.me, worker, info.unbonding);
    if Release(info, w.now).Ok? {
      Stored(w, worker, Release(info, w.now).value.0);
    }
  }

  // ---- questions ----------------------------------------------------------------------

  /** One question was written and counted in; the other tables are as they were. */
  ghost predicate Opened(before: Store, after: Store, id: QuestionId, q: Question) {
    && after == before.(questions := before.questions[id := q], index := after.index,
                        openCount := before.openCount + 1)
    && q.status == Pending
  }

  /** One question was closed and counted out. */
  ghost predicate Closed(before: Store, after: Store, id: QuestionId, status: Status) {
    && id in before.questions
    && after == before.(questions := before.questions[id := before.questions[id].(status := status)],
                        index := after.index, openCount := after.openCount)
    && after.openCount == before.openCount - 1
  }

  /** submit() succeeds exactly for a signing payer with the tokens and an unused id, while the count of open
      questions has room. */
  lemma SubmitExactly(w: World, payer: Address, id: QuestionId, amount: int)
    requires Inv(w)
    ensures var r := Step(w, DoSubmit(payer, id, amount));
            && (r.Ok? <==>
                && !w.esc.config.paused && payer !in w.contracts && 0 < amount <= Get(w.tok, payer)
                && id !in w.esc.questions && w.esc.openCount < U32_MAX)
            && (r.Ok? ==>
                var v := r.value;
                && v == w.(tok := v.tok, esc := v.esc)
                && Paid(w.tok, v.tok, payer, w.esc.me, amount)
                && Opened(w.esc, v.esc, id, Question(payer, amount, Pending, w.now, w.esc.config.timeout)))
  {
    hide SumBy, Transfer, Enumerates, Tables, Books, Add;
    TransferPays(w.tok, payer, w.esc.me, amount);
    RoomToOpen(w, id);
  }

  lemma RoomToOpen(w: World, id: QuestionId)
    requires Inv(w)
    ensures Add(w.esc.index, id).Ok? <==> w.esc.openCount < U32_MAX
  {
    hide SumBy, Enumerates, Tables, Books;
  }

  /** charge() succeeds exactly while the payer's prepaid balance covers a fresh question, and opens it from
      there: no token moves. */
  lemma ChargeExactly(w: World, payer: Address, id: QuestionId, amount: int)
    requires Inv(w)
    ensures var r := Step(w, DoCharge(payer, id, amount));
            && (r.Ok? <==>
                && !w.esc.config.paused && 0 < amount <= Get(w.esc.prepaid, payer)
                && id !in w.esc.questions && w.esc.openCount < U32_MAX)
            && (r.Ok? ==>
                var v := r.value;
                && v == w.(esc := v.esc)
                && Changed(w.esc.prepaid, v.esc.prepaid, payer, -amount)
                && Opened(w.esc.(prepaid := v.esc.prepaid), v.esc, id,
                          Question(payer, amount, Pending, w.now, w.esc.config.timeout)))
  {
    hide SumBy, Enumerates, Tables, Books, Add;
    RoomToOpen(w, id);
  }

  /** reopen_question() succeeds exactly for the payer of a refunded question with the tokens; the new question
      keeps the old one's timeout and nothing else. */
  lemma ReopenExactly(w: World, payer: Address, id: QuestionId, amount: int)
    requires Inv(w)
    ensures var r := Step(w, DoReopen(payer, id, amount));
            && (r.Ok? <==>
                && !w.esc.config.paused && payer !in w.contracts && 0 < amount <= Get(w.tok, payer)
                && HasStatus(w.esc.questions, id, Refunded) && w.esc.questions[id].payer == payer
                && w.esc.openCount < U32_MAX)
            && (r.Ok? ==>
                var v := r.value;
                && v == w.(tok := v.tok, esc := v.esc)
                && Paid(w.tok, v.tok, payer, w.esc.me, amount)
                && Opened(w.esc, v.esc, id, Question(payer, amount, Pending, w.now, w.esc.questions[id].timeout)))
  {
    hide SumBy, Transfer, Enumerates, Tables, Books, Add;
    TransferPays(w.tok, payer, w.esc.me, amount);
    RoomToOpen(w, id);
  }

  /** What a refund of `id` does: the amount goes back to its payer and the question is closed. */
  ghost predicate GivenBack(w: World, v: World, id: QuestionId) {
    && Closed(w.esc, v.esc, id, Refunded)
    && v == w.(tok := v.tok, esc := v.esc)
    && Paid(w.tok, v.tok, w.esc.me, w.esc.questions[id].payer, w.esc.questions[id].amount)
  }

  /** refund() succeeds exactly on a pending question. */
  lemma RefundExactly(w: World, id: QuestionId)
    requires Inv(w)
    ensures var r := Step(w, DoRefundNow(id));
            && (r.Ok? <==> HasStatus(w.esc.questions, id, Pending))
            && (r.Ok? ==> GivenBack(w, r.value, id))
  {
    hide SumBy, Transfer, Enumerates, Tables, Books, Remove;
    RefundSafe(w, id);
    if HasStatus(w.esc.questions, id, Pending) {
      var q := w.esc.questions[id];
      TransferPays(w.tok, w.esc.me, q.payer, q.amount);
      CountedIn(w, id);
    }
  }

  lemma CountedIn(w: World, id: QuestionId)
    requires Inv(w) && id in w.esc.questions && w.esc.questions[id].Live()
    ensures w.esc.openCount > 0
  {
    assert id in LiveIds(w.esc.questions);
  }

  /** refund_timeout() succeeds exactly on a pending question at or past the ledger it was opened at plus its
      timeout, or the last ledger. */
  lemma RefundTimeoutExactly(w: World, id: QuestionId)
    requires Inv(w)
    ensures var r := Step(w, DoRefundTimeout(id));
            && (r.Ok? <==>
                && HasStatus(w.esc.questions, id, Pending)
                && w.now >= Min(U32_MAX, w.esc.questions[id].createdAt + w.esc.questions[id].timeout))
            && (r.Ok? ==> GivenBack(w, r.value, id))
  {
    hide GivenBack, DoRefund, Inv;
    RefundExactly(w, id);
  }

  // ---- marks and challenges ------------------------------------------------------------

  /** The list checks: somebody to credit, at most 64 workers, nobody twice. */
  lemma ListsAccepted(c: Config, workers: seq<Address>, losers: seq<Address>, bounded: bool)
    ensures CheckLists(c, workers, losers, bounded).Ok? <==>
              && workers != [] && |workers| + |losers| <= 64 && NoDup(workers + losers)
              && (bounded ==> c.minQuorum <= |workers| + |losers| <= c.maxQuorum)
  {
    hide DistinctLists, NoDup;
    DistinctListsConcat(workers, losers);
  }

  /** escalate() succeeds exactly for acceptable lists and a pending question; it records the lists and marks the
      question, and nothing else. */
  lemma EscalateExactly(w: World, id: QuestionId, workers: seq<Address>, losers: seq<Address>)
    ensures var r := Step(w, DoEscalate(id, workers, losers));
            && (r.Ok? <==>
                && workers != [] && |workers| + |losers| <= 64 && NoDup(workers + losers)
                && HasStatus(w.esc.questions, id, Pending))
            && (r.Ok? ==>
                var v := r.value;
                && v == w.(esc := w.esc.(questions := v.esc.questions, escalated := v.esc.escalated))
                && v.esc.questions == w.esc.questions[id := w.esc.questions[id].(status := Disputed)]
                && v.esc.escalated == w.esc.escalated[id := Verdict(workers, losers)])
  {
    hide CheckLists, NoDup;
    ListsAccepted(w.esc.config, workers, losers, false);
  }

  /** resolve_challengeable() likewise, within the quorum bounds; the window is added to the ledger, up to the
      last one. */
  lemma ResolveChallengeableExactly(w: World, id: QuestionId, workers: seq<Address>, losers: seq<Address>, window: nat)
    ensures var r := Step(w, DoResolveChallengeable(id, workers, losers, window));
            && (r.Ok? <==>
                && workers != [] && |workers| + |losers| <= 64 && NoDup(workers + losers)
                && w.esc.config.minQuorum <= |workers| + |losers| <= w.esc.config.maxQuorum
                && HasStatus(w.esc.questions, id, Pending))
            && (r.Ok? ==>
                var v := r.value;
                && v == w.(esc := w.esc.(questions := v.esc.questions, resolutions := v.esc.resolutions))
                && v.esc.questions == w.esc.questions[id := w.esc.questions[id].(status := ResolvedPending)]
                && v.esc.resolutions == w.esc.resolutions[
                     id := Resolution(workers, losers, Min(U32_MAX, w.now + window), false)])
  {
    hide CheckLists, NoDup;
    ListsAccepted(w.esc.config, workers, losers, true);
  }

  /** post_challenge_bond() succeeds exactly inside the window of a recorded resolution that has no bond yet, for
      a signing challenger with the tokens. */
  lemma PostBondExactly(w: World, challenger: Address, id: QuestionId, amount: int)
    requires Inv(w)
    ensures var r := Step(w, DoPostBond(challenger, id, amount));
            && (r.Ok? <==>
                && !w.esc.config.paused && challenger !in w.contracts && 0 < amount <= Get(w.tok, challenger)
                && id in w.esc.resolutions && w.now < w.esc.resolutions[id].deadline && id !in w.esc.bonds)
            && (r.Ok? ==>
                var v := r.value;
                && v == w.(tok := v.tok, esc := w.esc.(bonds := v.esc.bonds))
                && Paid(w.tok, v.tok, challenger, w.esc.me, amount)
                && v.esc.bonds == w.esc.bonds[id := Bond(challenger, amount)])
  {
    hide SumBy, Transfer, Enumerates, Books;
    TransferPays(w.tok, challenger, w.esc.me, amount);
    assert id in w.esc.resolutions <==> HasStatus(w.esc.questions, id, ResolvedPending);
  }

  /** dispute_resolve() succeeds exactly on a recorded resolution, and only flags it. */
  lemma DisputeExactly(w: World, id: QuestionId)
    ensures var r := Step(w, DoDispute(id));
            && (r.Ok? <==> id in w.esc.resolutions)
            && (r.Ok? ==>
                var v := r.value;
                && v == w.(esc := w.esc.(resolutions := v.esc.resolutions))
                && v.esc.resolutions.Keys == w.esc.resolutions.Keys
                && v.esc.resolutions[id].disputed
                && (forall x :: x in w.esc.resolutions ==>
                      v.esc.resolutions[x]
                      == w.esc.resolutions[x].(disputed := x == id || w.esc.resolutions[x].disputed)))
  {
  }

  /** What the admin may configure: a timeout of one ledger to seven days of them, a public-goods share of at
      most the whole, quorum bounds in order. Nothing but the setting changes. */
  lemma SettingsExactly(w: World, call: Call)
    requires call.DoSetTimeout? || call.DoSetPaused? || call.DoSetGoods? || call.DoSetQuorum? || call.DoSetEstablished?
    ensures var r, c := Step(w, call), w.esc.config;
            && (r.Ok? <==>
                && (call.DoSetTimeout? ==> 0 < call.timeout <= 120_960)
                && (call.DoSetGoods? ==> call.bps <= 10_000)
                && (call.DoSetQuorum? ==> call.minQuorum <= call.maxQuorum))
            && (r.Ok? ==> r.value == w.(esc := w.esc.(config :=
                  match call
                  case DoSetTimeout(timeout) => c.(timeout := timeout)
                  case DoSetPaused(paused) => c.(paused := paused)
                  case DoSetGoods(address, bps) => c.(goods := Some(Goods(address, bps)))
                  case DoSetQuorum(minQuorum, maxQuorum) => c.(minQuorum := minQuorum, maxQuorum := maxQuorum)
                  case DoSetEstablished(count) => c.(established := count)
                  case _ => c)))
  {
  }
}
