/** Every call of the contract, time, and the token's own traffic, as steps of one machine. */
module Calls {
  import opened Base
  import opened Ledger
  import opened Consensus

  datatype Call =
    | DoSubmit(payer: Address, id: QuestionId, amount: int)
    | DoDeposit(payer: Address, amount: int)
    | DoWithdrawBalance(payer: Address, amount: int)
    | DoCharge(payer: Address, id: QuestionId, amount: int)
    | DoReopen(payer: Address, id: QuestionId, amount: int)
    | DoRefundNow(id: QuestionId)
    | DoRefundTimeout(id: QuestionId)
    | DoSweep(ids: seq<QuestionId>)
    | DoResolve(id: QuestionId, workers: seq<Address>, losers: seq<Address>)
    | DoConsensus(id: QuestionId, answers: seq<Answer>)
    | DoEscalate(id: QuestionId, workers: seq<Address>, losers: seq<Address>)
    | DoEscalateResolve(id: QuestionId, workers: seq<Address>, losers: seq<Address>)
    | DoResolveChallengeable(id: QuestionId, workers: seq<Address>, losers: seq<Address>, window: nat)
    | DoPostBond(challenger: Address, id: QuestionId, amount: int)
    | DoDispute(id: QuestionId)
    | DoFinalize(id: QuestionId)
    | DoStake(worker: Address, amount: int)
    | DoBeginUnstake(worker: Address, amount: int)
    | DoCompleteUnstake(worker: Address)
    | DoWithdraw(worker: Address, recipient: Address, amount: int)
    | DoSetTimeout(timeout: nat)
    | DoSetPaused(paused: bool)
    | DoSetGoods(address: Address, bps: nat)
    | DoSetQuorum(minQuorum: nat, maxQuorum: nat)
    | DoSetEstablished(count: nat)
    | Wait(ledgers: nat)
    | TokenTransfer(from: Address, to: Address, amount: int)

  /** The admin's part of the interface; everyone else needs only their own signature, or none. */
  predicate AdminOnly(call: Call) {
    match call
    case DoCharge(_, _, _) | DoRefundNow(_) | DoResolve(_, _, _) | DoConsensus(_, _) | DoEscalate(_, _, _)
      | DoEscalateResolve(_, _, _) | DoResolveChallengeable(_, _, _, _) | DoDispute(_) | DoSetTimeout(_)
      | DoSetPaused(_) | DoSetGoods(_, _) | DoSetQuorum(_, _) | DoSetEstablished(_) => true
    case _ => false
  }

  function Configure(w: World, c: Config): Result<World> {
    Ok(w.(esc := w.esc.(config := c)))
  }

  function Step(w: World, call: Call): Result<World> {
    var c := w.esc.config;
    match call
    case DoSubmit(payer, id, amount) => Submit(w, payer, id, amount)
    case DoDeposit(payer, amount) => Deposit(w, payer, amount)
    case DoWithdrawBalance(payer, amount) => WithdrawBalance(w, payer, amount)
    case DoCharge(payer, id, amount) => Charge(w, payer, id, amount)
    case DoReopen(payer, id, amount) => Reopen(w, payer, id, amount)
    case DoRefundNow(id) => DoRefund(w, id)
    case DoRefundTimeout(id) => RefundTimeout(w, id)
    case DoSweep(ids) => var r :- Sweep(w, ids, |ids|); Ok(r.0)
    case DoResolve(id, workers, losers) => Resolve(w, id, workers, losers)
    case DoConsensus(id, answers) => ResolveByConsensus(w, id, answers)
    case DoEscalate(id, workers, losers) => Escalate(w, id, workers, losers)
    case DoEscalateResolve(id, workers, losers) => EscalateResolve(w, id, workers, losers)
    case DoResolveChallengeable(id, workers, losers, window) => ResolveChallengeable(w, id, workers, losers, window)
    case DoPostBond(challenger, id, amount) => PostChallengeBond(w, challenger, id, amount)
    case DoDispute(id) => DisputeResolve(w, id)
    case DoFinalize(id) => FinalizeResolve(w, id)
    case DoStake(worker, amount) => PostStake(w, worker, amount)
    case DoBeginUnstake(worker, amount) => BeginUnstake(w, worker, amount)
    case DoCompleteUnstake(worker) => CompleteUnstake(w, worker)
    case DoWithdraw(worker, recipient, amount) => Withdraw(w, worker, recipient, amount)
    case DoSetTimeout(timeout) =>
      if timeout == 0 || timeout > MAX_TIMEOUT_LEDGERS then Err(InvalidTimeout)
      else Configure(w, c.(timeout := timeout))
    case DoSetPaused(paused) => Configure(w, c.(paused := paused))
    case DoSetGoods(address, bps) =>
      if bps > BPS_DENOM then Err(InvalidPublicGoodsBps) else Configure(w, c.(goods := Some(Goods(address, bps))))
    case DoSetQuorum(minQuorum, maxQuorum) =>
      if minQuorum > maxQuorum then Err(InvalidAmount)
      else Configure(w, c.(minQuorum := minQuorum, maxQuorum := maxQuorum))
    case DoSetEstablished(count) => Configure(w, c.(established := count))
    case Wait(ledgers) => if w.now + ledgers > U32_MAX then Err(Trap) else Ok(w.(now := w.now + ledgers))
    case TokenTransfer(from, to, amount) =>
      if !w.Signs(from) then Err(Trap) else var tok :- Transfer(w.tok, from, to, amount); Ok(w.(tok := tok))
  }

  /** A failed call leaves everything as it was. */
  function After(w: World, call: Call): World {
    var r := Step(w, call);
    if r.Ok? then r.value else w
  }

  /** The first `k` calls of a run. */
  function Run(w: World, calls: seq<Call>, k: nat): World
    requires k <= |calls|
  {
    if k == 0 then w else After(Run(w, calls, k - 1), calls[k - 1])
  }
}
