/** The stake engine: lazily matured warming tranches, newest-first draining, unbonding and
    slashing, and the stack of dated deposits that it implements. */
module Stakes {
  import opened Base

  const DAY_LEDGERS: nat := 17_280
  const STAKE_WARMUP_LEDGERS: nat := DAY_LEDGERS
  const MIN_UNBONDING_LEDGERS: nat := 3 * DAY_LEDGERS
  const SLASH_BPS: int := 500

  datatype Tranche = Tranche(amount: int, since: nat)

  /** A worker's stored bond. The source's absent tranche vector is the empty sequence here:
      every read of it treats the two alike. */
  datatype StakeInfo = StakeInfo(
    settled: int, warming: int, tranches: seq<Tranche>, unbonding: int, releaseAt: nat)

  /** What an absent entry reads as. */
  const NO_STAKE: StakeInfo := StakeInfo(0, 0, [], 0, 0)

  function Slashable(info: StakeInfo): int {
    info.settled + info.warming + info.unbonding
  }

  function Active(info: StakeInfo): int {
    info.settled + info.warming
  }

  // ---- maturing -----------------------------------------------------------------

  predicate Ripe(t: Tranche, now: nat) {
    now >= SatAdd(t.since, STAKE_WARMUP_LEDGERS)
  }

  /** Sum of the oldest `n` tranches. */
  function Sum(ts: seq<Tranche>, n: nat): int
    requires n <= |ts|
  {
    if n == 0 then 0 else Sum(ts, n - 1) + ts[n - 1].amount
  }

  /** Sum of those of the oldest `n` tranches that are ripe. */
  function RipeSum(ts: seq<Tranche>, n: nat, now: nat): int
    requires n <= |ts|
  {
    if n == 0 then 0 else RipeSum(ts, n - 1, now) + if Ripe(ts[n - 1], now) then ts[n - 1].amount else 0
  }

  function Unripe(ts: seq<Tranche>, n: nat, now: nat): seq<Tranche>
    requires n <= |ts|
  {
    if n == 0 then [] else Unripe(ts, n - 1, now) + if Ripe(ts[n - 1], now) then [] else [ts[n - 1]]
  }

  function Mature(info: StakeInfo, now: nat): StakeInfo {
    var n := |info.tranches|;
    var ripe := RipeSum(info.tranches, n, now);
    info.(settled := info.settled + ripe,
          warming := info.warming - ripe,
          tranches := Unripe(info.tranches, n, now))
  }

  // ---- draining -----------------------------------------------------------------

  /** What is left of the oldest `n` tranches after taking `amount`, newest first. */
  function Drained(ts: seq<Tranche>, n: nat, amount: int): seq<Tranche>
    requires n <= |ts|
  {
    if n == 0 || amount <= 0 then ts[..n]
    else
      var take := Min(amount, ts[n - 1].amount);
      if take == ts[n - 1].amount then Drained(ts, n - 1, amount - take)
      else ts[..n - 1] + [ts[n - 1].(amount := ts[n - 1].amount - take)]
  }

  /** The part of `amount` those tranches could not supply. */
  function Shortfall(ts: seq<Tranche>, n: nat, amount: int): int
    requires n <= |ts|
  {
    if n == 0 || amount <= 0 then amount
    else
      var take := Min(amount, ts[n - 1].amount);
      if take == ts[n - 1].amount then Shortfall(ts, n - 1, amount - take) else amount - take
  }

  function DrainWarming(info: StakeInfo, amount: int): StakeInfo {
    var n := |info.tranches|;
    info.(warming := info.warming - (amount - Shortfall(info.tranches, n, amount)),
          tranches := Drained(info.tranches, n, amount))
  }

  // ---- the operations on one stored bond ------------------------------------------

  function TopUp(stored: StakeInfo, amount: int, now: nat): Result<StakeInfo> {
    var info := Mature(stored, now);
    if !Fits(info.warming + amount) then Err(ArithmeticOverflow)
    else Ok(info.(warming := info.warming + amount,
                  tranches := info.tranches + [Tranche(amount, now)]))
  }

  function ReleaseLedger(now: nat, timeout: nat): nat {
    SatAdd(now, Max(MIN_UNBONDING_LEDGERS, timeout))
  }

  function Unstake(stored: StakeInfo, amount: int, now: nat, timeout: nat): Result<StakeInfo> {
    if amount <= 0 then Err(InvalidAmount)
    else
      var info := Mature(stored, now);
      if amount > Active(info) then Err(InsufficientStake)
      else
        var fromWarming := Min(amount, info.warming);
        var drained := DrainWarming(info, fromWarming);
        if !Fits(info.unbonding + amount) then Err(ArithmeticOverflow)
        else Ok(drained.(settled := drained.settled - (amount - fromWarming),
                         unbonding := drained.unbonding + amount,
                         releaseAt := ReleaseLedger(now, timeout)))
  }

  /** Returns the emptied bond and the amount to pay out. */
  function Release(stored: StakeInfo, now: nat): Result<(StakeInfo, int)> {
    var info := Mature(stored, now);
    if info.unbonding <= 0 then Err(NothingUnbonding)
    else if now < info.releaseAt then Err(UnbondingNotElapsed)
    else Ok((info.(unbonding := 0, releaseAt := 0), info.unbonding))
  }

  /** The slash on `slashable` stake: a share of it, capped, and never more than there is. */
  function SlashSize(slashable: int, cap: int): int {
    if slashable <= 0 then 0
    else Max(0, Min(Min(MulBps(slashable, SLASH_BPS), cap), slashable))
  }

  function SlashAmount(info: StakeInfo, cap: int): int {
    SlashSize(Slashable(info), cap)
  }

  /** Takes `amount` from warming, then settled, then unbonding. */
  function TakeBuckets(info: StakeInfo, amount: int): StakeInfo {
    var fromWarming := Min(amount, info.warming);
    var drained := DrainWarming(info, fromWarming);
    var fromSettled := Min(amount - fromWarming, drained.settled);
    var fromUnbonding := Min(amount - fromWarming - fromSettled, drained.unbonding);
    drained.(settled := drained.settled - fromSettled,
             unbonding := drained.unbonding - fromUnbonding)
  }

  /** A zero slash writes nothing back, not even the matured tranches. */
  function Slash(stored: StakeInfo, cap: int, now: nat): (StakeInfo, int) {
    var info := Mature(stored, now);
    var amount := SlashAmount(info, cap);
    if amount == 0 then (stored, 0) else (TakeBuckets(info, amount), amount)
  }

  /** The working copy of a bond that the contract's helpers edit in place before it is stored. */
  class StakeCell {
    var settled: int
    var warming: int
    var tranches: seq<Tranche>
    var unbonding: int
    var releaseAt: nat

    constructor (info: StakeInfo)
      ensures Value() == info
    {
      settled, warming, tranches := info.settled, info.warming, info.tranches;
      unbonding, releaseAt := info.unbonding, info.releaseAt;
    }

    function Value(): StakeInfo
      reads this
    {
      StakeInfo(settled, warming, tranches, unbonding, releaseAt)
    }

    method MatureWarming(now: nat)
      modifies this
      ensures Value() == Mature(old(Value()), now)
    {
      var pending: seq<Tranche> := [];
      for i := 0 to |tranches|
        invariant tranches == old(tranches) && unbonding == old(unbonding) && releaseAt == old(releaseAt)
        invariant pending == Unripe(tranches, i, now)
        invariant settled == old(settled) + RipeSum(tranches, i, now)
        invariant warming == old(warming) - RipeSum(tranches, i, now)
      {
        var tranche := tranches[i];
        if now >= SatAdd(tranche.since, STAKE_WARMUP_LEDGERS) {
          settled := settled + tranche.amount;
          warming := warming - tranche.amount;
        } else {
          pending := pending + [tranche];
        }
      }
      tranches := pending;
    }

    method AddWarming(amount: int, now: nat) returns (r: Result<()>)
      modifies this
      ensures r.Ok? ==> Value() == old(Value()).(
                                     warming := old(warming) + amount,
                                     tranches := old(tranches) + [Tranche(amount, now)])
      ensures r == if Fits(old(warming) + amount) then Ok(()) else Err(ArithmeticOverflow)
    {
      if !Fits(warming + amount) {
        return Err(ArithmeticOverflow);
      }
      warming := warming + amount;
      tranches := tranches + [Tranche(amount, now)];
      return Ok(());
    }

    method DrainNewestFirst(amount: int)
      modifies this
      ensures Value() == DrainWarming(old(Value()), amount)
    {
      var left := amount;
      var kept := tranches;
      var i := |kept|;
      while i > 0 && left > 0
        invariant 0 <= i <= |kept|
        invariant left > 0 ==> kept == tranches[..i]
        invariant Drained(tranches, |tranches|, amount) ==
                  if left > 0 then Drained(tranches, i, left) else kept
        invariant Shortfall(tranches, |tranches|, amount) ==
                  if left > 0 then Shortfall(tranches, i, left) else left
        invariant Value() == old(Value())
        decreases i
      {
        i := i - 1;
        var tranche := kept[i];
        var take := Min(left, tranche.amount);
        left := left - take;
        if tranche.amount - take == 0 {
          kept := kept[..i] + kept[i + 1..];
        } else {
          kept := kept[i := tranche.(amount := tranche.amount - take)];
        }
      }
      warming := warming - (amount - left);
      tranches := kept;
    }

    /** The three-bucket slash on an already matured copy; returns what was taken. */
    method TakeSlash(cap: int) returns (amount: int)
      modifies this
      ensures amount == SlashAmount(old(Value()), cap)
      ensures Value() == if amount == 0 then old(Value()) else TakeBuckets(old(Value()), amount)
    {
      var slashable := settled + warming + unbonding;
      if slashable <= 0 {
        return 0;
      }
      amount := Min(Min(MulBps(slashable, SLASH_BPS), cap), slashable);
      if amount <= 0 {
        return 0;
      }
      var left := amount;
      var fromWarming := Min(left, warming);
      DrainNewestFirst(fromWarming);
      left := left - fromWarming;
      var take := Min(left, settled);
      settled := settled - take;
      left := left - take;
      take := Min(left, unbonding);
      unbonding := unbonding - take;
      left := left - take;
    }
  }
}
