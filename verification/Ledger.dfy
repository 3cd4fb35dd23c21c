/** The escrow contract as a function of its storage: one atomic transition per entry point.
    An `Err` means the host discarded every write of the call. */
module Ledger {
  import opened Base
  import opened Stakes
  import opened Settlement
  import opened PendingIndex
  import opened Leaderboard

  const MAX_TIMEOUT_LEDGERS: nat := 120_960
  const MAX_QUORUM_SIZE: nat := 64

  datatype Status = Pending | Resolved | Refunded | Migrated | ResolvedPending | Disputed

  datatype Question = Question(payer: Address, amount: int, status: Status, createdAt: nat, timeout: nat) {
    /** Its money is still in escrow. */
    predicate Live() {
      status == Pending || status == Disputed || status == ResolvedPending
    }

    function Deadline(): nat {
      SatAdd(createdAt, timeout)
    }
  }

  datatype Resolution = Resolution(workers: seq<Address>, losers: seq<Address>, deadline: nat, disputed: bool)
  datatype Verdict = Verdict(workers: seq<Address>, losers: seq<Address>)
  datatype Bond = Bond(challenger: Address, amount: int)
  datatype Goods = Goods(address: Address, bps: nat)

  datatype Config = Config(
    platform: Address, timeout: nat, paused: bool, goods: Option<Goods>,
    minQuorum: nat, maxQuorum: nat, established: nat)

  /** Everything one contract instance stores. */
  datatype Store = Store(
    me: Address, config: Config, source: Option<Address>,
    questions: map<QuestionId, Question>,
    resolutions: map<QuestionId, Resolution>, escalated: map<QuestionId, Verdict>,
    bonds: map<QuestionId, Bond>,
    prepaid: map<Address, int>, owed: map<Address, int>, stakes: Bonds,
    index: Index, openCount: nat, board: Board)

  /** A contract with its surroundings: the ledger number, the token's balances, and the addresses
      of contracts, which never sign a call. */
  datatype World = World(now: nat, contracts: set<Address>, tok: Balances, esc: Store) {
    predicate Signs(a: Address) {
      a !in contracts
    }

    /** The escrow's own token balance. */
    function Held(): int {
      Get(tok, esc.me)
    }
  }

  // ---- opening ---------------------------------------------------------------------

  /** `require_auth` of `from`, then its transfer into escrow. */
  function Pull(w: World, from: Address, amount: int): Result<World> {
    if !w.Signs(from) then Err(Trap)
    else
      var tok :- Transfer(w.tok, from, w.esc.me, amount);
      Ok(w.(tok := tok))
  }

  function RecordQuestion(s: Store, id: QuestionId, q: Question): Result<Store> {
    if id in s.questions then Err(QuestionAlreadyExists)
    else
      var index :- Add(s.index, id);
      Ok(s.(questions := s.questions[id := q], index := index, openCount := SatAdd(s.openCount, 1)))
  }

  function OpenQuestion(w: World, payer: Address, id: QuestionId, amount: int): Result<World> {
    var esc :- RecordQuestion(w.esc, id, Question(payer, amount, Pending, w.now, w.esc.config.timeout));
    Ok(w.(esc := esc))
  }

  function Submit(w: World, payer: Address, id: QuestionId, amount: int): Result<World> {
    if w.esc.config.paused then Err(ContractPaused)
    else if !w.Signs(payer) then Err(Trap)
    else if amount <= 0 then Err(InvalidAmount)
    else
      var funded :- Pull(w, payer, amount);
      OpenQuestion(funded, payer, id, amount)
  }

  function Deposit(w: World, payer: Address, amount: int): Result<World> {
    if w.esc.config.paused then Err(ContractPaused)
    else if !w.Signs(payer) then Err(Trap)
    else if amount <= 0 then Err(InvalidAmount)
    else
      var funded :- Pull(w, payer, amount);
      var updated := Get(w.esc.prepaid, payer) + amount;
      if !Fits(updated) then Err(ArithmeticOverflow)
      else Ok(funded.(esc := w.esc.(prepaid := w.esc.prepaid[payer := updated])))
  }

  function WithdrawBalance(w: World, payer: Address, amount: int): Result<World> {
    if !w.Signs(payer) then Err(Trap)
    else if amount <= 0 then Err(InvalidAmount)
    else if amount > Get(w.esc.prepaid, payer) then Err(InsufficientBalance)
    else
      var tok :- Transfer(w.tok, w.esc.me, payer, amount);
      Ok(w.(tok := tok,
            esc := w.esc.(prepaid := w.esc.prepaid[payer := Get(w.esc.prepaid, payer) - amount])))
  }

  /** Admin only: opens a question from the payer's prepaid balance. */
  function Charge(w: World, payer: Address, id: QuestionId, amount: int): Result<World> {
    if w.esc.config.paused then Err(ContractPaused)
    else if amount <= 0 then Err(InvalidAmount)
    else if amount > Get(w.esc.prepaid, payer) then Err(InsufficientBalance)
    else
      var esc := w.esc.(prepaid := w.esc.prepaid[payer := Get(w.esc.prepaid, payer) - amount]);
      OpenQuestion(w.(esc := esc), payer, id, amount)
  }

  /** The original payer funds a refunded question again, with a fresh window. */
  function Reopen(w: World, payer: Address, id: QuestionId, amount: int): Result<World> {
    if w.esc.config.paused then Err(ContractPaused)
    else if !w.Signs(payer) then Err(Trap)
    else if amount <= 0 then Err(InvalidAmount)
    else if id !in w.esc.questions then Err(QuestionNotFound)
    else
      var existing := w.esc.questions[id];
      if existing.status != Refunded || existing.payer != payer then Err(QuestionNotRefunded)
      else
        var funded :- Pull(w, payer, amount);
        var index :- Add(w.esc.index, id);
        Ok(funded.(esc := w.esc.(
                     questions := w.esc.questions[id := Question(payer, amount, Pending, w.now, existing.timeout)],
                     index := index, openCount := SatAdd(w.esc.openCount, 1))))
  }

  // ---- leaving escrow -----------------------------------------------------------------

  /** The one place a question leaves the index: records the final status. */
  function SettleQuestion(s: Store, id: QuestionId, q: Question, status: Status): Result<Store> {
    var index :- Remove(s.index, id);
    Ok(s.(questions := s.questions[id := q.(status := status)], index := index,
          openCount := Max(0, s.openCount - 1)))
  }

  function DoRefund(w: World, id: QuestionId): Result<World> {
    if id !in w.esc.questions then Err(QuestionNotFound)
    else
      var q := w.esc.questions[id];
      if q.status != Pending then Err(QuestionNotPending)
      else
        var tok :- Transfer(w.tok, w.esc.me, q.payer, q.amount);
        var esc :- SettleQuestion(w.esc, id, q, Refunded);
        Ok(w.(tok := tok, esc := esc))
  }

  function RefundTimeout(w: World, id: QuestionId): Result<World> {
    if id !in w.esc.questions then Err(QuestionNotFound)
    else
      var q := w.esc.questions[id];
      if q.status != Pending then Err(QuestionNotPending)
      else if w.now < q.Deadline() then Err(TooEarlyForTimeout)
      else DoRefund(w, id)
  }

  /** The first `k` ids in order; contract errors are recorded and passed over, a trap aborts. */
  function Sweep(w: World, ids: seq<QuestionId>, k: nat): Result<(World, seq<Result<()>>)>
    requires k <= |ids|
  {
    if k == 0 then Ok((w, []))
    else
      var before :- Sweep(w, ids, k - 1);
      var r := RefundTimeout(before.0, ids[k - 1]);
      if r == Err(Trap) then Err(Trap)
      else Ok((if r.Ok? then r.value else before.0, before.1 + [r.Status()]))
  }

  // ---- settlement ---------------------------------------------------------------------

  /** What every list check asks of the two lists themselves. */
  predicate Acceptable(workers: seq<Address>, losers: seq<Address>) {
    workers != [] && |workers| + |losers| <= MAX_QUORUM_SIZE && DistinctLists(workers, losers)
  }

  function CheckLists(c: Config, workers: seq<Address>, losers: seq<Address>, bounded: bool): Result<()> {
    if workers == [] then Err(NoWorkers)
    else if |workers| + |losers| > MAX_QUORUM_SIZE then Err(QuorumTooLarge)
    else if bounded && (|workers| + |losers| < c.minQuorum || |workers| + |losers| > c.maxQuorum)
    then Err(QuorumOutOfBounds)
    else if !DistinctLists(workers, losers) then Err(InvalidWorkerLists)
    else Ok(())
  }

  /** The platform's take, less the public-goods share when one is configured. */
  function RouteTake(tok: Balances, me: Address, c: Config, take: int): Result<Balances> {
    if take <= 0 then Ok(tok)
    else if c.goods.Some? && c.goods.value.bps > 0 then
      var share := MulBps(take, c.goods.value.bps);
      var paid :- if share > 0 then Transfer(tok, me, c.goods.value.address, share) else Ok(tok);
      if take - share > 0 then Transfer(paid, me, c.platform, take - share) else Ok(paid)
    else Transfer(tok, me, c.platform, take)
  }

  /** One asset leg: slashes, credits and the platform's take. */
  function SettleAsset(w: World, amount: int, workers: seq<Address>, losers: seq<Address>, f: Slasher): Result<World>
    requires |workers| > 0
  {
    var bill :- MakeBill(w.esc.stakes, amount, |workers|, losers, f);
    var owed :- CreditAll(w.esc.owed, workers, |workers|, bill.workerCredit);
    var tok :- RouteTake(w.tok, w.esc.me, w.esc.config, bill.platformTake);
    Ok(w.(tok := tok, esc := w.esc.(stakes := bill.slashes.stakes, owed := owed)))
  }

  /** resolve(): the leg, then the leaderboard, then the question. */
  function Resolve(w: World, id: QuestionId, workers: seq<Address>, losers: seq<Address>): Result<World> {
    var _ :- CheckLists(w.esc.config, workers, losers, true);
    if id !in w.esc.questions then Err(QuestionNotFound)
    else
      var q := w.esc.questions[id];
      if q.status != Pending then Err(QuestionNotPending)
      else
        var paid :- SettleAsset(w, q.amount, workers, losers, LoserSlash(q.amount, w.now));
        var board :- RecordAll(paid.esc.board, workers, |workers|);
        var esc :- SettleQuestion(paid.esc.(board := board), id, q, Resolved);
        Ok(paid.(esc := esc))
  }

  /** The other two settlements credit each winner and its leaderboard row together. */
  function CreditAndRecord(owed: map<Address, int>, board: Board, workers: seq<Address>, k: nat, credit: int)
    : Result<(map<Address, int>, Board)>
    requires k <= |workers|
  {
    if k == 0 then Ok((owed, board))
    else
      var before :- CreditAndRecord(owed, board, workers, k - 1, credit);
      var owed' :- CreditOwed(before.0, workers[k - 1], credit);
      var board' :- Record(before.1, workers[k - 1]);
      Ok((owed', board'))
  }

  /** `forfeited` joins the platform's take. */
  function SettleTogether(w: World, id: QuestionId, q: Question, workers: seq<Address>, losers: seq<Address>,
                          forfeited: int, f: Slasher)
    : Result<World>
  {
    if workers == [] then Err(Trap)
    else
      var bill :- MakeBill(w.esc.stakes, q.amount, |workers|, losers, f);
      var paid :- CreditAndRecord(w.esc.owed, w.esc.board, workers, |workers|, bill.workerCredit);
      if !Fits(bill.platformTake + forfeited) then Err(ArithmeticOverflow)
      else
        var tok :- RouteTake(w.tok, w.esc.me, w.esc.config, bill.platformTake + forfeited);
        var esc :- SettleQuestion(
                     w.esc.(stakes := bill.slashes.stakes, owed := paid.0, board := paid.1), id, q, Resolved);
        Ok(w.(tok := tok, esc := esc))
  }

  function Escalate(w: World, id: QuestionId, workers: seq<Address>, losers: seq<Address>): Result<World> {
    var _ :- CheckLists(w.esc.config, workers, losers, false);
    if id !in w.esc.questions then Err(QuestionNotFound)
    else
      var q := w.esc.questions[id];
      if q.status != Pending then Err(QuestionNotPendingForEscalation)
      else Ok(w.(esc := w.esc.(escalated := w.esc.escalated[id := Verdict(workers, losers)],
                               questions := w.esc.questions[id := q.(status := Disputed)])))
  }

  function EscalateResolve(w: World, id: QuestionId, workers: seq<Address>, losers: seq<Address>): Result<World> {
    var _ :- CheckLists(w.esc.config, workers, losers, true);
    if id !in w.esc.questions then Err(QuestionNotFound)
    else
      var q := w.esc.questions[id];
      if q.status != Disputed then Err(QuestionNotDisputed)
      else SettleTogether(w.(esc := w.esc.(escalated := w.esc.escalated - {id})), id, q, workers, losers, 0,
                          LoserSlash(q.amount, w.now))
  }

  function ResolveChallengeable(w: World, id: QuestionId, workers: seq<Address>, losers: seq<Address>, window: nat)
    : Result<World>
  {
    var _ :- CheckLists(w.esc.config, workers, losers, true);
    if id !in w.esc.questions then Err(QuestionNotFound)
    else
      var q := w.esc.questions[id];
      if q.status != Pending then Err(QuestionNotPending)
      else
        var resolution := Resolution(workers, losers, SatAdd(w.now, window), false);
        Ok(w.(esc := w.esc.(resolutions := w.esc.resolutions[id := resolution],
                            questions := w.esc.questions[id := q.(status := ResolvedPending)])))
  }

  function PostChallengeBond(w: World, challenger: Address, id: QuestionId, amount: int): Result<World> {
    if w.esc.config.paused then Err(ContractPaused)
    else if !w.Signs(challenger) then Err(Trap)
    else if amount <= 0 then Err(InvalidBondAmount)
    else if id !in w.esc.questions then Err(QuestionNotFound)
    else if w.esc.questions[id].status != ResolvedPending then Err(NoChallengeableResolution)
    else if id !in w.esc.resolutions then Err(NoPendingResolution)
    else if w.now >= w.esc.resolutions[id].deadline then Err(NoChallengeableResolution)
    else if id in w.esc.bonds then Err(BondAlreadyPosted)
    else
      var funded :- Pull(w, challenger, amount);
      Ok(funded.(esc := w.esc.(bonds := w.esc.bonds[id := Bond(challenger, amount)])))
  }

  function DisputeResolve(w: World, id: QuestionId): Result<World> {
    if id !in w.esc.resolutions then Err(NoPendingResolution)
    else Ok(w.(esc := w.esc.(resolutions := w.esc.resolutions[id := w.esc.resolutions[id].(disputed := true)])))
  }

  function BondAmount(s: Store, id: QuestionId): int {
    if id in s.bonds then s.bonds[id].amount else 0
  }

  function FinalizeResolve(w: World, id: QuestionId): Result<World> {
    if id !in w.esc.resolutions then Err(NoPendingResolution)
    else
      var res := w.esc.resolutions[id];
      if w.now <= res.deadline then Err(DisputeWindowNotElapsed)
      else if res.disputed then Err(QuestionDisputed)
      else if id !in w.esc.questions then Err(QuestionNotFound)
      else
        var q := w.esc.questions[id];
        if q.status != ResolvedPending then Err(NoPendingResolution)
        else
          SettleTogether(w.(esc := w.esc.(resolutions := w.esc.resolutions - {id}, bonds := w.esc.bonds - {id})),
                         id, q, res.workers, res.losers, BondAmount(w.esc, id), LoserSlash(q.amount, w.now))
  }

  // ---- stakes and earnings --------------------------------------------------------------

  function StakeOf(s: Store, worker: Address): StakeInfo {
    if worker in s.stakes then s.stakes[worker] else NO_STAKE
  }

  function SetStake(w: World, worker: Address, info: StakeInfo): World {
    w.(esc := w.esc.(stakes := w.esc.stakes[worker := info]))
  }

  function PostStake(w: World, worker: Address, amount: int): Result<World> {
    if w.esc.config.paused then Err(ContractPaused)
    else if !w.Signs(worker) then Err(Trap)
    else if amount <= 0 then Err(InvalidAmount)
    else
      var funded :- Pull(w, worker, amount);
      var info :- TopUp(StakeOf(w.esc, worker), amount, w.now);
      Ok(SetStake(funded, worker, info))
  }

  function BeginUnstake(w: World, worker: Address, amount: int): Result<World> {
    if !w.Signs(worker) then Err(Trap)
    else
      var info :- Unstake(StakeOf(w.esc, worker), amount, w.now, w.esc.config.timeout);
      Ok(SetStake(w, worker, info))
  }

  function CompleteUnstake(w: World, worker: Address): Result<World> {
    if !w.Signs(worker) then Err(Trap)
    else
      var r :- Release(StakeOf(w.esc, worker), w.now);
      var tok :- Transfer(w.tok, w.esc.me, worker, r.1);
      Ok(SetStake(w.(tok := tok), worker, r.0))
  }

  function Withdraw(w: World, worker: Address, recipient: Address, amount: int): Result<World> {
    var owed := Get(w.esc.owed, worker);
    if !w.Signs(worker) then Err(Trap)
    else if amount <= 0 then Err(InvalidAmount)
    else if owed <= 0 then Err(NothingOwed)
    else if amount > owed then Err(InsufficientOwed)
    else
      var tok :- Transfer(w.tok, w.esc.me, recipient, amount);
      Ok(w.(tok := tok, esc := w.esc.(owed := w.esc.owed[worker := owed - amount])))
  }
}
