/** How long stake stays within reach of a slash once its owner asks for it back. */
module Unbonding {
  import opened Base
  import opened Stakes
  import opened StakeTotals
  import opened Settlement
  import opened Ledger
  import opened Calls
  import opened Invariant
  import opened Solvency
  import opened Runs
  import opened Frames
  import opened Effects
  import opened DepositStack
  import BondRuns

  /** The ledger and the configured timeout of a worker's latest begin_unstake() not yet followed by a
      complete_unstake(). */
  datatype Request = NoRequest | Request(at: nat, timeout: nat)

  function Latest(w: World, calls: seq<Call>, k: nat, a: Address): Request
    requires k <= |calls|
  {
    if k == 0 then NoRequest
    else
      var before, earlier := Run(w, calls, k - 1), Latest(w, calls, k - 1, a);
      if Step(before, calls[k - 1]).Err? then earlier
      else if Begins(calls[k - 1], a) then Request(before.now, before.esc.config.timeout)
      else if calls[k - 1] == DoCompleteUnstake(a) then NoRequest
      else earlier
  }

  predicate Begins(call: Call, a: Address) {
    call.DoBeginUnstake? && call.worker == a
  }

  /** The unbonding bucket is empty without a request, and otherwise is released three days of ledgers or the
      timeout after it, whichever is later. */
  ghost predicate Awaits(info: StakeInfo, latest: Request) {
    match latest
    case NoRequest => info.unbonding == 0
    case Request(at, timeout) =>
      info.unbonding >= 0 && info.releaseAt == Min(U32_MAX, Max(at + 51_840, at + timeout))
  }

  lemma SlashKeepsRelease(info: StakeInfo, cap: int, now: nat)
    requires Sound(info)
    ensures var after := Slash(info, cap, now).0;
            0 <= after.unbonding <= info.unbonding && after.releaseAt == info.releaseAt
  {
    hide SlashAmount, Unripe, RipeSum, Drained, Shortfall;
    MatureSound(info, now);
    SlashSound(info, cap, now);
  }

  lemma TopUpKeepsRelease(info: StakeInfo, amount: int, now: nat)
    ensures TopUp(info, amount, now).Ok? ==>
              var after := TopUp(info, amount, now).value;
              after.unbonding == info.unbonding && after.releaseAt == info.releaseAt
  {
  }

  lemma OpKeepsRelease(info: StakeInfo, op: Option<StakeOp>, now: nat)
    requires Sound(info) && (op.None? || op.value.OpTopUp? || op.value.OpSlash?)
    ensures var after := BondRuns.AfterOp(info, op, now);
            0 <= after.unbonding <= info.unbonding && after.releaseAt == info.releaseAt
  {
    hide TopUp, Slash;
    match op
    case Some(OpTopUp(amount)) => TopUpKeepsRelease(info, amount, now);
    case Some(OpSlash(cap)) => SlashKeepsRelease(info, cap, now);
    case _ =>
  }

  /** No other call touches the bucket, except that a slash may take from it. */
  lemma OtherCallsKeep(w: World, call: Call, a: Address)
    requires Inv(w) && Step(w, call).Ok? && !Begins(call, a) && call != DoCompleteUnstake(a)
    ensures var before, after := StakeOf(w.esc, a), StakeOf(Step(w, call).value.esc, a);
            0 <= after.unbonding <= before.unbonding && after.releaseAt == before.releaseAt
  {
    hide SumBy, Step, StakeOf, BondRuns.AfterOp;
    StakeBounded(w.esc, a);
    BondRuns.CallIsOp(w, call, a);
    OpKeepsRelease(StakeOf(w.esc, a), BondRuns.OpOn(w, call, a), w.now);
  }

  lemma {:induction false} BucketAwaits(w: World, calls: seq<Call>, k: nat, a: Address)
    requires k <= |calls| && Deployed(w) && SoundToken(w.tok)
    ensures Inv(Run(w, calls, k))
    ensures Awaits(StakeOf(Run(w, calls, k).esc, a), Latest(w, calls, k, a))
  {
    hide Inv, Step, StakeOf;
    AlwaysSolvent(w, calls, k);
    if k == 0 {
      BondRuns.NothingStaked(w, a);
    } else {
      BucketAwaits(w, calls, k - 1, a);
      var before, call := Run(w, calls, k - 1), calls[k - 1];
      if Step(before, call).Ok? {
        if Begins(call, a) {
          BeginUnstakeExactly(before, a, call.amount);
        } else if call == DoCompleteUnstake(a) {
          CompleteUnstakeExactly(before, a);
        } else {
          OtherCallsKeep(before, call, a);
        }
      }
    }
  }

  // ---- when stake is paid out -------------------------------------------------------------

  /** In every run, complete_unstake() pays exactly when something is unbonding and three days of ledgers, and the
      timeout of the day, have both passed since the worker's latest begin_unstake(), or the last ledger is here.
      By then every question opened up to that request, with a timeout no longer, can be refunded. */
  lemma PaysExactlyWhenDue(w: World, calls: seq<Call>, k: nat, a: Address)
    requires k <= |calls| && Deployed(w) && SoundToken(w.tok)
    ensures var v, latest := Run(w, calls, k), Latest(w, calls, k, a);
            && (StakeOf(v.esc, a).unbonding > 0 ==> latest.Request?)
            && (Step(v, DoCompleteUnstake(a)).Ok? <==>
                && a !in w.contracts && StakeOf(v.esc, a).unbonding > 0
                && (v.now == U32_MAX || (v.now >= latest.at + 51_840 && v.now >= latest.at + latest.timeout)))
            && (Step(v, DoCompleteUnstake(a)).Ok? ==>
                forall id :: HasStatus(v.esc.questions, id, Pending) && v.esc.questions[id].createdAt <= latest.at
                             && v.esc.questions[id].timeout <= latest.timeout ==>
                               Step(v, DoRefundTimeout(id)).Ok?)
  {
    hide SumBy, SoundStore, Step, StakeOf, Latest, Deployed;
    var v, latest := Run(w, calls, k), Latest(w, calls, k, a);
    AlwaysSolvent(w, calls, k);
    BucketAwaits(w, calls, k, a);
    CompleteUnstakeExactly(v, a);
    forall id ensures Step(v, DoRefundTimeout(id)).Ok? <==>
                        HasStatus(v.esc.questions, id, Pending)
                        && v.now >= Min(U32_MAX, v.esc.questions[id].createdAt + v.esc.questions[id].timeout)
    {
      RefundTimeoutExactly(v, id);
    }
  }

  // ---- earlier requests -------------------------------------------------------------------

  /** No state from `i` to `j` is configured with a shorter timeout than state `i`. */
  predicate NeverLowered(w: World, calls: seq<Call>, i: nat, j: nat)
    requires i <= j <= |calls|
  {
    forall m :: i <= m <= j ==> Run(w, calls, m).esc.config.timeout >= Run(w, calls, i).esc.config.timeout
  }

  lemma {:induction false} LatestIsLater(w: World, calls: seq<Call>, i: nat, j: nat, a: Address)
    requires i < j <= |calls| && Begins(calls[i], a) && Step(Run(w, calls, i), calls[i]).Ok?
    ensures var t, latest := Run(w, calls, i).now, Latest(w, calls, j, a);
            && t <= Run(w, calls, j).now
            && (latest.Request? ==>
                && latest.at >= t
                && (NeverLowered(w, calls, i, j) ==> latest.timeout >= Run(w, calls, i).esc.config.timeout))
    decreases j
  {
    hide Step;
    if Step(Run(w, calls, j - 1), calls[j - 1]).Ok? {
      BondRuns.TimePasses(Run(w, calls, j - 1), calls[j - 1]);
    }
    if i < j - 1 {
      LatestIsLater(w, calls, i, j - 1, a);
      assert NeverLowered(w, calls, i, j) ==> NeverLowered(w, calls, i, j - 1);
    }
  }

  /** Whatever else is requested and configured meanwhile, no stake asked back at one ledger is paid within three
      days of ledgers of it; and none within the timeout of that day either, unless the timeout is lowered before
      the payment. */
  lemma EveryRequestIsHeld(w: World, calls: seq<Call>, i: nat, j: nat, a: Address)
    requires i < j <= |calls| && Deployed(w) && SoundToken(w.tok)
    requires Begins(calls[i], a) && Step(Run(w, calls, i), calls[i]).Ok?
    requires Step(Run(w, calls, j), DoCompleteUnstake(a)).Ok?
    ensures var u, now := Run(w, calls, i), Run(w, calls, j).now;
            && (now == U32_MAX || now >= u.now + 51_840)
            && (NeverLowered(w, calls, i, j) ==> now == U32_MAX || now >= u.now + u.esc.config.timeout)
  {
    hide Step, StakeOf, Latest, NeverLowered, Deployed, SumBy;
    PaysExactlyWhenDue(w, calls, j, a);
    LatestIsLater(w, calls, i, j, a);
  }

  /** A further request restarts the clock of the whole bucket, and brings the release forward exactly when the
      ledger plus its own waiting time comes before the release already set. */
  lemma RestartShortensExactlyWhen(w: World, worker: Address, amount: int)
    requires Inv(w) && Step(w, DoBeginUnstake(worker, amount)).Ok?
    ensures var before := StakeOf(w.esc, worker);
            var after := StakeOf(Step(w, DoBeginUnstake(worker, amount)).value.esc, worker);
            after.releaseAt < before.releaseAt <==>
            w.now + Max(51_840, w.esc.config.timeout) < before.releaseAt
  {
    hide Step, StakeOf, SumBy;
    StakeBounded(w.esc, worker);
    BeginUnstakeExactly(w, worker, amount);
  }

  // ---- a request shortened ------------------------------------------------------------------

  /** A question is opened, stake is posted and part of it asked back; then the timeout is lowered and the rest asked
      back, and three days of ledgers pass. */
  function ShortenedRun(payer: Address, id: QuestionId, amount: int, worker: Address, x: int, y: int): seq<Call> {
    [DoSubmit(payer, id, amount), DoStake(worker, x + y), DoBeginUnstake(worker, x), DoSetTimeout(1),
     DoBeginUnstake(worker, y), Wait(51_840)]
  }

  /** From any deployment with a timeout longer than three days, that run ends with all of the stake paid out on
      request while the question, opened before the first request and under the same timeout, is neither settled
      nor refundable. */
  lemma ShortenedFromDeployment(w: World, payer: Address, id: QuestionId, amount: int, worker: Address, x: int, y: int)
    requires Deployed(w) && SoundToken(w.tok) && !w.esc.config.paused
    requires 51_840 < w.esc.config.timeout && w.now + w.esc.config.timeout <= U32_MAX
    requires payer !in w.contracts && worker !in w.contracts && payer != worker
    requires 0 < amount <= Get(w.tok, payer) && 0 < x && 0 < y && x + y <= Get(w.tok, worker)
    ensures var v := Run(w, ShortenedRun(payer, id, amount, worker, x, y), 6);
            && StakeOf(v.esc, worker).unbonding == x + y && Step(v, DoCompleteUnstake(worker)).Ok?
            && v.now < w.now + w.esc.config.timeout
            && HasStatus(v.esc.questions, id, Pending) && !Step(v, DoRefundTimeout(id)).Ok?
  {
    hide Inv, Step, StakeOf, SumBy, Run, Restarted, Deployed;
    var calls := ShortenedRun(payer, id, amount, worker, x, y);
    OpenedAndStaked(w, payer, id, amount, worker, x + y);
    RestartEscapes(After(After(w, calls[0]), calls[1]), id, worker, x, y);
    SixCalls(w, calls);
    LastFour(After(After(w, calls[0]), calls[1]), worker, x, y);
  }

  /** After the first two calls. */
  lemma OpenedAndStaked(w: World, payer: Address, id: QuestionId, amount: int, worker: Address, stake: int)
    requires Deployed(w) && SoundToken(w.tok) && !w.esc.config.paused
    requires payer !in w.contracts && worker !in w.contracts && payer != worker
    requires 0 < amount <= Get(w.tok, payer) && 0 < stake <= Get(w.tok, worker)
    ensures var u := After(After(w, DoSubmit(payer, id, amount)), DoStake(worker, stake));
            && Inv(u) && u.now == w.now && u.contracts == w.contracts && u.esc.config == w.esc.config
            && Active(StakeOf(u.esc, worker)) == stake && StakeOf(u.esc, worker).unbonding == 0
            && HasStatus(u.esc.questions, id, Pending) && u.esc.questions[id].createdAt == w.now
            && u.esc.questions[id].timeout == w.esc.config.timeout
  {
    hide Inv, Step, StakeOf, SumBy, Paid, Deployed, OnlyBond, Active;
    OpenedFirst(w, payer, id, amount, worker);
    var u := After(w, DoSubmit(payer, id, amount));
    BondRuns.NothingStaked(w, worker);
    SameBond(w.esc, u.esc, worker);
    StakeExactly(u, worker, stake);
    StepSafe(u, DoStake(worker, stake));
    NothingActive();
  }

  lemma OpenedFirst(w: World, payer: Address, id: QuestionId, amount: int, worker: Address)
    requires Deployed(w) && SoundToken(w.tok) && !w.esc.config.paused
    requires payer !in w.contracts && worker !in w.contracts && payer != worker && 0 < amount <= Get(w.tok, payer)
    ensures var u := After(w, DoSubmit(payer, id, amount));
            && Inv(u) && u.now == w.now && u.contracts == w.contracts
            && u.esc.config == w.esc.config && u.esc.stakes == w.esc.stakes && Get(u.tok, worker) == Get(w.tok, worker)
            && u.esc.questions == map[id := Question(payer, amount, Pending, w.now, w.esc.config.timeout)]
  {
    hide Inv, Step, SumBy, Paid;
    DeployedSafe(w);
    SubmitExactly(w, payer, id, amount);
    StepSafe(w, DoSubmit(payer, id, amount));
    PaidElsewhere(w.tok, After(w, DoSubmit(payer, id, amount)).tok, payer, w.esc.me, amount, worker);
  }

  lemma NothingActive()
    ensures Active(NO_STAKE) == 0 == NO_STAKE.unbonding
  {
  }

  /** The last four calls of that run. */
  function Restarted(w: World, worker: Address, x: int, y: int): World {
    After(After(After(After(w, DoBeginUnstake(worker, x)), DoSetTimeout(1)), DoBeginUnstake(worker, y)), Wait(51_840))
  }

  lemma RestartEscapes(w: World, id: QuestionId, worker: Address, x: int, y: int)
    requires Inv(w) && worker !in w.contracts && 0 < x && 0 < y
    requires Active(StakeOf(w.esc, worker)) == x + y && StakeOf(w.esc, worker).unbonding == 0
    requires 51_840 < w.esc.config.timeout && w.now + w.esc.config.timeout <= U32_MAX
    requires HasStatus(w.esc.questions, id, Pending) && w.esc.questions[id].createdAt == w.now
    requires w.esc.questions[id].timeout == w.esc.config.timeout
    ensures var v := Restarted(w, worker, x, y);
            && StakeOf(v.esc, worker).unbonding == x + y && Step(v, DoCompleteUnstake(worker)).Ok?
            && v.now < w.now + w.esc.config.timeout
            && HasStatus(v.esc.questions, id, Pending) && !Step(v, DoRefundTimeout(id)).Ok?
  {
    hide Step, StakeOf, SumBy, SoundStore, OnlyBond, Active;
    BeginUnstakeExactly(w, worker, x);
    StepSafe(w, DoBeginUnstake(worker, x));
    var u := After(w, DoBeginUnstake(worker, x));
    SettingsExactly(u, DoSetTimeout(1));
    StepSafe(u, DoSetTimeout(1));
    var u' := After(u, DoSetTimeout(1));
    SameBond(u.esc, u'.esc, worker);
    BeginUnstakeExactly(u', worker, y);
    StepSafe(u', DoBeginUnstake(worker, y));
    var before := After(u', DoBeginUnstake(worker, y));
    Waited(before, 51_840);
    StepSafe(before, Wait(51_840));
    var v := After(before, Wait(51_840));
    SameBond(before.esc, v.esc, worker);
    CompleteUnstakeExactly(v, worker);
    RefundTimeoutExactly(v, id);
  }

  lemma PaidElsewhere(before: Balances, after: Balances, from: Address, to: Address, amount: int, a: Address)
    requires Paid(before, after, from, to, amount) && a != from && a != to
    ensures Get(after, a) == Get(before, a)
  {
  }

  lemma SameBond(s: Store, t: Store, worker: Address)
    requires s.stakes == t.stakes
    ensures StakeOf(s, worker) == StakeOf(t, worker)
  {
  }

  lemma Waited(w: World, ledgers: nat)
    ensures w.now + ledgers <= U32_MAX ==> Step(w, Wait(ledgers)) == Ok(w.(now := w.now + ledgers))
  {
  }

  lemma SixCalls(w: World, calls: seq<Call>)
    requires |calls| == 6
    ensures Run(w, calls, 6)
            == After(After(After(After(After(After(w, calls[0]), calls[1]), calls[2]), calls[3]), calls[4]), calls[5])
  {
    hide After;
    assert Run(w, calls, 0) == w;
    assert Run(w, calls, 1) == After(w, calls[0]);
    assert Run(w, calls, 2) == After(Run(w, calls, 1), calls[1]);
    assert Run(w, calls, 3) == After(Run(w, calls, 2), calls[2]);
    assert Run(w, calls, 4) == After(Run(w, calls, 3), calls[3]);
    assert Run(w, calls, 5) == After(Run(w, calls, 4), calls[4]);
  }

  lemma LastFour(w: World, worker: Address, x: int, y: int)
    ensures Restarted(w, worker, x, y)
            == After(After(After(After(w, DoBeginUnstake(worker, x)), DoSetTimeout(1)), DoBeginUnstake(worker, y)),
                     Wait(51_840))
  {
    hide After;
  }
}
