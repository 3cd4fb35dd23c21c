/** A bond is a stack of dated deposits. */
module DepositStack {
  import opened Base
  import opened Stakes
  import opened StakeTotals

  /** Deposits are pushed, withdrawn and slashed at the newest end. `Stakes` keeps only a settled total and the
      tranches still warming; this module proves that nothing observable is lost, over any interleaving of
      operations. Stake migrated in is granted: mature at once, and older than every deposit. */
  datatype Stack = Bottom(granted: int) | Push(below: Stack, top: Tranche)

  datatype Account = Account(stack: Stack, unbonding: int, releaseAt: nat)

  function Total(s: Stack): int {
    match s case Bottom(granted) => granted case Push(below, top) => Total(below) + top.amount
  }

  /** Deposits old enough to count as matured at `now`. */
  function Matured(s: Stack, now: nat): int {
    match s case Bottom(granted) => granted
    case Push(below, top) => Matured(below, now) + if Ripe(top, now) then top.amount else 0
  }

  /** Deposits made at least a day, 17,280 ledgers, before `now`. */
  function AgedTotal(s: Stack, now: int): int {
    match s case Bottom(granted) => granted
    case Push(below, top) => AgedTotal(below, now) + if now - top.since >= 17_280 then top.amount else 0
  }

  function Height(s: Stack): nat {
    match s case Bottom(_) => 0 case Push(below, _) => Height(below) + 1
  }

  /** The `i` oldest deposits. */
  function Oldest(s: Stack, i: nat): Stack {
    if Height(s) <= i then s else Oldest(s.below, i)
  }

  /** The oldest `k` stroops. */
  function Keep(s: Stack, k: int): Stack {
    match s
    case Bottom(granted) => Bottom(Max(0, Min(granted, k)))
    case Push(below, top) =>
      if k <= Total(below) then Keep(below, k)
      else Push(below, top.(amount := Min(top.amount, k - Total(below))))
  }

  /** Positive amounts, dates sorted and none after `now`. */
  predicate WellDated(s: Stack, now: nat) {
    match s
    case Bottom(granted) => granted >= 0
    case Push(below, top) => top.amount > 0 && top.since <= now && WellDated(below, top.since)
  }

  predicate AllRipe(s: Stack, now: nat) {
    s.Push? ==> Ripe(s.top, now) && AllRipe(s.below, now)
  }

  // ---- truncation ----------------------------------------------------------------

  lemma {:induction false} TotalPositive(s: Stack, now: nat)
    requires WellDated(s, now)
    ensures Total(s) >= 0 && (Total(s) == 0 ==> s == Bottom(0))
    ensures 0 <= Matured(s, now) <= Total(s)
  {
    if s.Push? {
      TotalPositive(s.below, s.top.since);
      MaturedLater(s.below, s.top.since, now);
    }
  }

  lemma {:induction false} MaturedLater(s: Stack, t: nat, now: nat)
    requires WellDated(s, t) && t <= now
    ensures WellDated(s, now)
    ensures 0 <= Matured(s, t) <= Matured(s, now) <= Total(s)
  {
    if s.Push? {
      MaturedLater(s.below, s.top.since, t);
      MaturedLater(s.below, s.top.since, now);
      MaturedLater(s.below, t, now);
    }
  }

  lemma {:induction false} KeepAll(s: Stack, k: int, now: nat)
    requires WellDated(s, now) && k >= Total(s)
    ensures Keep(s, k) == s
  {
    if s.Push? {
      TotalPositive(s.below, s.top.since);
    }
  }

  lemma {:induction false} KeepShape(s: Stack, k: int, now: nat)
    requires WellDated(s, now) && 0 <= k <= Total(s)
    ensures WellDated(Keep(s, k), now) && Total(Keep(s, k)) == k
    ensures AllRipe(s, now) ==> AllRipe(Keep(s, k), now)
  {
    if s.Push? && k <= Total(s.below) {
      KeepShape(s.below, k, s.top.since);
      MaturedLater(Keep(s.below, k), s.top.since, now);
      KeepRipe(s.below, k, now);
    }
  }

  lemma {:induction false} KeepRipe(s: Stack, k: int, now: nat)
    ensures AllRipe(s, now) ==> AllRipe(Keep(s, k), now)
  {
    if s.Push? {
      KeepRipe(s.below, k, now);
    }
  }

  lemma {:induction false} KeepTwice(s: Stack, k: int, j: int)
    requires j <= k <= Total(s)
    ensures Keep(Keep(s, k), j) == Keep(s, j)
  {
    if s.Push? && k <= Total(s.below) {
      KeepTwice(s.below, k, j);
    }
  }

  /** The prefix law of a truncation: each prefix sum is the old one, cut at the new total. */
  lemma {:induction false} TruncationPrefixSums(s: Stack, k: int, i: nat, now: nat)
    requires WellDated(s, now) && 0 <= k <= Total(s)
    ensures Total(Oldest(Keep(s, k), i)) == Min(Total(Oldest(s, i)), k)
  {
    if s.Push? {
      TotalPositive(s.below, s.top.since);
      OldestTotal(s.below, i, s.top.since);
      if k <= Total(s.below) {
        TruncationPrefixSums(s.below, k, i, s.top.since);
        KeepHeight(s.below, k);
        KeepShape(s.below, k, s.top.since);
      }
    } else {
      OldestTotal(s, i, now);
    }
  }

  lemma {:induction false} OldestTotal(s: Stack, i: nat, now: nat)
    requires WellDated(s, now)
    ensures 0 <= Total(Oldest(s, i)) <= Total(s)
  {
    TotalPositive(s, now);
    if Height(s) > i {
      OldestTotal(s.below, i, s.top.since);
    }
  }

  lemma {:induction false} KeepHeight(s: Stack, k: int)
    ensures Height(Keep(s, k)) <= Height(s)
  {
    if s.Push? {
      KeepHeight(s.below, k);
    }
  }

  // ---- the tranche vector as the top of a stack --------------------------------------

  /** The saturating ripeness test is an age test, except at the last representable ledger. */
  lemma RipeIff(t: Tranche, now: nat)
    requires t.since <= now <= U32_MAX
    ensures Ripe(t, now) <==> now - t.since >= STAKE_WARMUP_LEDGERS || now == U32_MAX
  {
  }

  /** So what has matured is what is old enough; at the last ledger, everything. */
  lemma {:induction false} MaturedIsAged(s: Stack, now: nat, last: nat)
    requires WellDated(s, last) && last <= now <= U32_MAX
    ensures Matured(s, now) == if now == U32_MAX then Total(s) else AgedTotal(s, now)
  {
    if s.Push? {
      RipeIff(s.top, now);
      MaturedIsAged(s.below, now, s.top.since);
    }
  }

  /** `base` with the oldest `n` tranches pushed onto it. */
  function Pushed(base: Stack, ts: seq<Tranche>, n: nat): Stack
    requires n <= |ts|
  {
    if n == 0 then base else Push(Pushed(base, ts, n - 1), ts[n - 1])
  }

  lemma {:induction false} PushedTotal(base: Stack, ts: seq<Tranche>, n: nat)
    requires n <= |ts|
    ensures Total(Pushed(base, ts, n)) == Total(base) + Sum(ts, n)
  {
    if n > 0 {
      PushedTotal(base, ts, n - 1);
    }
  }

  lemma {:induction false} PushedMatured(base: Stack, ts: seq<Tranche>, n: nat, now: nat)
    requires n <= |ts|
    ensures Matured(Pushed(base, ts, n), now) == Matured(base, now) + RipeSum(ts, n, now)
  {
    if n > 0 {
      PushedMatured(base, ts, n - 1, now);
    }
  }

  lemma {:induction false} PushedSame(base: Stack, s: seq<Tranche>, t: seq<Tranche>, n: nat)
    requires n <= |s| && n <= |t|
    requires forall i :: 0 <= i < n ==> s[i] == t[i]
    ensures Pushed(base, s, n) == Pushed(base, t, n) && Sum(s, n) == Sum(t, n)
  {
    if n > 0 {
      PushedSame(base, s, t, n - 1);
    }
  }

  lemma {:induction false} PushedParts(base: Stack, ts: seq<Tranche>, n: nat, now: nat)
    requires n <= |ts| && WellDated(Pushed(base, ts, n), now)
    ensures WellDated(base, now) && Sum(ts, n) >= 0 && 0 <= RipeSum(ts, n, now) <= Sum(ts, n)
  {
    if n > 0 {
      var since := ts[n - 1].since;
      PushedParts(base, ts, n - 1, since);
      MaturedLater(base, since, now);
      MaturedLater(Pushed(base, ts, n - 1), since, now);
      PushedParts(base, ts, n - 1, now);
    }
  }

  /** Draining newest first truncates the stack to its oldest part. */
  lemma {:induction false} DrainedIsKeep(base: Stack, ts: seq<Tranche>, n: nat, a: int, now: nat)
    requires n <= |ts| && WellDated(Pushed(base, ts, n), now)
    requires 0 <= a <= Sum(ts, n)
    ensures var left := Drained(ts, n, a);
            && Shortfall(ts, n, a) == 0
            && Sum(left, |left|) == Sum(ts, n) - a
            && Pushed(base, left, |left|) == Keep(Pushed(base, ts, n), Total(base) + Sum(ts, n) - a)
  {
    PushedTotal(base, ts, n);
    if a == 0 {
      KeepAll(Pushed(base, ts, n), Total(base) + Sum(ts, n), now);
      PushedSame(base, ts[..n], ts, n);
    } else if n > 0 {
      var last := ts[n - 1];
      PushedTotal(base, ts, n - 1);
      PushedParts(base, ts, n - 1, last.since);
      TotalPositive(Pushed(base, ts, n - 1), last.since);
      if a >= last.amount {
        DrainedIsKeep(base, ts, n - 1, a - last.amount, last.since);
      } else {
        var left := Drained(ts, n, a);
        TotalPositive(base, last.since);
        PushedSame(base, left, ts, n - 1);
      }
    }
  }

  /** Ripe tranches leave the vector and become settled deposits, without changing the stack. */
  lemma {:induction false} RollOver(base: Stack, ts: seq<Tranche>, n: nat, now: nat)
    returns (base': Stack)
    requires n <= |ts| && WellDated(Pushed(base, ts, n), now) && AllRipe(base, now)
    ensures var rest := Unripe(ts, n, now);
            && Pushed(base', rest, |rest|) == Pushed(base, ts, n)
            && AllRipe(base', now) && Total(base') == Total(base) + RipeSum(ts, n, now)
            && Sum(rest, |rest|) == Sum(ts, n) - RipeSum(ts, n, now)
            && RipeSum(rest, |rest|, now) == 0
            && (n > 0 && Ripe(ts[n - 1], now) ==> rest == [])
  {
    if n == 0 {
      base' := base;
    } else {
      var last, rest := ts[n - 1], Unripe(ts, n - 1, now);
      MaturedLater(Pushed(base, ts, n - 1), last.since, now);
      base' := RollOver(base, ts, n - 1, now);
      if Ripe(last, now) {
        assert n > 1 ==> ts[n - 2].since <= last.since;
        base' := Push(base', last);
      } else {
        var rest' := rest + [last];
        PushedSame(base', rest', rest, |rest|);
        RipeSumSame(rest', rest, |rest|, now);
      }
    }
  }

  lemma {:induction false} RipeSumSame(s: seq<Tranche>, t: seq<Tranche>, n: nat, now: nat)
    requires n <= |s| && n <= |t|
    requires forall i :: 0 <= i < n ==> s[i] == t[i]
    ensures RipeSum(s, n, now) == RipeSum(t, n, now)
  {
    if n > 0 {
      RipeSumSame(s, t, n - 1, now);
    }
  }

  // ---- the refinement relation ------------------------------------------------------

  /** The bond `info` represents the account `acc` at ledger `now`; `done` are the deposits
      already rolled into `settled`. */
  ghost predicate RepresentsWith(info: StakeInfo, acc: Account, done: Stack, now: nat) {
    && acc.stack == Pushed(done, info.tranches, |info.tranches|)
    && WellDated(acc.stack, now) && AllRipe(done, now)
    && info.settled == Total(done)
    && info.warming == Sum(info.tranches, |info.tranches|)
    && info.unbonding == acc.unbonding >= 0
    && info.releaseAt == acc.releaseAt
  }

  ghost predicate Represents(info: StakeInfo, acc: Account, now: nat) {
    exists done :: RepresentsWith(info, acc, done, now)
  }

  lemma {:induction false} AllRipeLater(s: Stack, t: nat, now: nat)
    requires AllRipe(s, t) && t <= now
    ensures AllRipe(s, now) && Matured(s, now) == Total(s)
  {
    if s.Push? {
      AllRipeLater(s.below, t, now);
    }
  }

  /** What the contract reports is what the stack says, at any later ledger: active is the whole
      stack, and matured is the deposits ripe by then. Rolling ripe tranches over keeps the account. */
  lemma ReadsAgree(info: StakeInfo, acc: Account, t: nat, now: nat)
    requires Represents(info, acc, t) && t <= now
    ensures Represents(info, acc, now) && Represents(Mature(info, now), acc, now)
    ensures Active(info) == Active(Mature(info, now)) == Total(acc.stack)
    ensures Mature(info, now).settled == Matured(acc.stack, now)
    ensures Mature(info, now).warming >= 0 && Mature(info, now).settled >= 0
    ensures Mature(info, now).unbonding == acc.unbonding && Mature(info, now).releaseAt == acc.releaseAt
  {
    var done :| RepresentsWith(info, acc, done, t);
    var n := |info.tranches|;
    AllRipeLater(done, t, now);
    MaturedLater(acc.stack, t, now);
    assert RepresentsWith(info, acc, done, now);
    PushedTotal(done, info.tranches, n);
    PushedMatured(done, info.tranches, n, now);
    PushedParts(done, info.tranches, n, now);
    var done' := RollOver(done, info.tranches, n, now);
    assert RepresentsWith(Mature(info, now), acc, done', now);
  }

  /** Taking `a` from the newest end: warming first, then settled. */
  lemma TakeRepresents(info: StakeInfo, acc: Account, now: nat, a: int)
    requires Represents(info, acc, now)
    requires 0 <= a <= Active(info)
    ensures var w := Min(a, info.warming);
            Represents(DrainWarming(info, w).(settled := info.settled - (a - w)),
                       acc.(stack := Keep(acc.stack, Total(acc.stack) - a)), now)
  {
    var done :| RepresentsWith(info, acc, done, now);
    var ts, n := info.tranches, |info.tranches|;
    var w := Min(a, info.warming);
    PushedParts(done, ts, n, now);
    PushedTotal(done, ts, n);
    TotalPositive(done, now);
    DrainedIsKeep(done, ts, n, w, now);
    KeepShape(acc.stack, Total(acc.stack) - a, now);
    KeepShape(done, Total(done) - (a - w), now);
    if a > info.warming {
      KeepTwice(acc.stack, Total(done), Total(done) - (a - w));
      DrainedOut(done, ts, n, now);
    } else {
      KeepAll(done, Total(done), now);
    }
    var done' := Keep(done, Total(done) - (a - w));
    assert RepresentsWith(DrainWarming(info, w).(settled := info.settled - (a - w)),
                          acc.(stack := Keep(acc.stack, Total(acc.stack) - a)), done', now);
  }

  /** Draining every tranche leaves none. */
  lemma {:induction false} DrainedOut(base: Stack, ts: seq<Tranche>, n: nat, now: nat)
    requires n <= |ts| && WellDated(Pushed(base, ts, n), now)
    ensures Drained(ts, n, Sum(ts, n)) == []
  {
    if n > 0 {
      PushedParts(base, ts, n - 1, ts[n - 1].since);
      DrainedOut(base, ts, n - 1, ts[n - 1].since);
    }
  }

  // ---- operations over both representations -------------------------------------------

  datatype StakeOp =
    | OpTopUp(amount: int)
    | OpUnstake(amount: int, timeout: nat)
    | OpRelease
    | OpSlash(cap: int)
    | OpImport(stake: nat)
    | OpLeave

  /** One operation on the stored bond: the new bond and what the caller sees. */
  function BondStep(info: StakeInfo, op: StakeOp, now: nat): (StakeInfo, Result<int>) {
    match op
    case OpTopUp(amount) =>
      if amount <= 0 then (info, Err(InvalidAmount))
      else (match TopUp(info, amount, now) case Ok(i) => (i, Ok(Active(i))) case Err(e) => (info, Err(e)))
    case OpUnstake(amount, timeout) =>
      (match Unstake(info, amount, now, timeout)
       case Ok(i) => (i, Ok(i.releaseAt)) case Err(e) => (info, Err(e)))
    case OpRelease =>
      (match Release(info, now) case Ok(p) => (p.0, Ok(p.1)) case Err(e) => (info, Err(e)))
    case OpSlash(cap) =>
      var r := Slash(info, cap, now); (r.0, Ok(r.1))
    case OpImport(amount) => (info.(settled := info.settled + amount), Ok(amount))
    case OpLeave => (NO_STAKE, Ok(Slashable(info)))
  }

  /** The stack gives up its newest deposits first; unbonding stake pays only what is then left. */
  function TakeNewest(acc: Account, amount: int): Account {
    var fromStack := Min(amount, Total(acc.stack));
    acc.(stack := Keep(acc.stack, Total(acc.stack) - fromStack),
         unbonding := acc.unbonding - (amount - fromStack))
  }

  /** Migrated stake goes underneath everything. */
  function Granted(s: Stack, amount: nat): Stack {
    match s
    case Bottom(granted) => Bottom(granted + amount)
    case Push(below, top) => Push(Granted(below, amount), top)
  }

  /** The same operation on a stack of dated deposits. */
  function StackStep(acc: Account, op: StakeOp, now: nat): (Account, Result<int>) {
    var total := Total(acc.stack);
    match op
    case OpTopUp(amount) =>
      if amount <= 0 then (acc, Err(InvalidAmount))
      else if !Fits(total - Matured(acc.stack, now) + amount) then (acc, Err(ArithmeticOverflow))
      else (acc.(stack := Push(acc.stack, Tranche(amount, now))), Ok(total + amount))
    case OpUnstake(amount, timeout) =>
      if amount <= 0 then (acc, Err(InvalidAmount))
      else if amount > total then (acc, Err(InsufficientStake))
      else if !Fits(acc.unbonding + amount) then (acc, Err(ArithmeticOverflow))
      else
        (Account(Keep(acc.stack, total - amount), acc.unbonding + amount, ReleaseLedger(now, timeout)),
         Ok(ReleaseLedger(now, timeout)))
    case OpRelease =>
      if acc.unbonding <= 0 then (acc, Err(NothingUnbonding))
      else if now < acc.releaseAt then (acc, Err(UnbondingNotElapsed))
      else (Account(acc.stack, 0, 0), Ok(acc.unbonding))
    case OpSlash(cap) =>
      var amount := SlashSize(total + acc.unbonding, cap);
      (TakeNewest(acc, amount), Ok(amount))
    case OpImport(amount) => (acc.(stack := Granted(acc.stack, amount)), Ok(amount))
    case OpLeave => (Account(Bottom(0), 0, 0), Ok(total + acc.unbonding))
  }

  lemma TopUpRefines(info: StakeInfo, acc: Account, t: nat, amount: int, now: nat)
    requires Represents(info, acc, t) && t <= now
    ensures BondStep(info, OpTopUp(amount), now).1 == StackStep(acc, OpTopUp(amount), now).1
    ensures Represents(BondStep(info, OpTopUp(amount), now).0, StackStep(acc, OpTopUp(amount), now).0, now)
  {
    ReadsAgree(info, acc, t, now);
    var matured := Mature(info, now);
    var done :| RepresentsWith(matured, acc, done, now);
    var r := TopUp(info, amount, now);
    if amount > 0 && r.Ok? {
      var ts := matured.tranches;
      PushedSame(done, r.value.tranches, ts, |ts|);
      assert RepresentsWith(r.value, acc.(stack := Push(acc.stack, Tranche(amount, now))), done, now);
    }
  }

  lemma UnstakeRefines(info: StakeInfo, acc: Account, t: nat, amount: int, timeout: nat, now: nat)
    requires Represents(info, acc, t) && t <= now
    ensures var op := OpUnstake(amount, timeout);
            && BondStep(info, op, now).1 == StackStep(acc, op, now).1
            && Represents(BondStep(info, op, now).0, StackStep(acc, op, now).0, now)
  {
    ReadsAgree(info, acc, t, now);
    var matured := Mature(info, now);
    if 0 < amount <= Active(matured) {
      TakeRepresents(matured, acc, now, amount);
      var w := Min(amount, matured.warming);
      var taken := DrainWarming(matured, w).(settled := matured.settled - (amount - w));
      var acc' := acc.(stack := Keep(acc.stack, Total(acc.stack) - amount));
      var done :| RepresentsWith(taken, acc', done, now);
      var at := ReleaseLedger(now, timeout);
      assert RepresentsWith(taken.(unbonding := taken.unbonding + amount, releaseAt := at),
                            acc'.(unbonding := acc'.unbonding + amount, releaseAt := at), done, now);
    }
  }

  lemma ReleaseRefines(info: StakeInfo, acc: Account, t: nat, now: nat)
    requires Represents(info, acc, t) && t <= now
    ensures BondStep(info, OpRelease, now).1 == StackStep(acc, OpRelease, now).1
    ensures Represents(BondStep(info, OpRelease, now).0, StackStep(acc, OpRelease, now).0, now)
  {
    ReadsAgree(info, acc, t, now);
    var done :| RepresentsWith(Mature(info, now), acc, done, now);
    var r := Release(info, now);
    if r.Ok? {
      assert RepresentsWith(r.value.0, Account(acc.stack, 0, 0), done, now);
    }
  }

  lemma SlashRefines(info: StakeInfo, acc: Account, t: nat, cap: int, now: nat)
    requires Represents(info, acc, t) && t <= now
    ensures BondStep(info, OpSlash(cap), now).1 == StackStep(acc, OpSlash(cap), now).1
    ensures Represents(BondStep(info, OpSlash(cap), now).0, StackStep(acc, OpSlash(cap), now).0, now)
  {
    ReadsAgree(info, acc, t, now);
    var matured := Mature(info, now);
    var amount := SlashAmount(matured, cap);
    SlashSizeBounds(Slashable(matured), cap);
    if amount == 0 {
      var done :| RepresentsWith(info, acc, done, now);
      KeepAll(acc.stack, Total(acc.stack), now);
      TotalPositive(acc.stack, now);
    } else {
      TakeBucketsRefines(matured, acc, now, amount);
    }
  }

  lemma TakeBucketsRefines(info: StakeInfo, acc: Account, now: nat, amount: int)
    requires Represents(info, acc, now)
    requires info.settled >= 0 && info.warming >= 0 && Active(info) == Total(acc.stack)
    requires 0 <= amount <= Slashable(info)
    ensures Represents(TakeBuckets(info, amount), TakeNewest(acc, amount), now)
  {
    var fromStack := Min(amount, Active(info));
    var w := Min(fromStack, info.warming);
    TakeRepresents(info, acc, now, fromStack);
    var taken := DrainWarming(info, w).(settled := info.settled - (fromStack - w));
    var acc' := acc.(stack := Keep(acc.stack, Total(acc.stack) - fromStack));
    var done :| RepresentsWith(taken, acc', done, now);
    assert Min(amount, info.warming) == w;
    assert TakeBuckets(info, amount) == taken.(unbonding := info.unbonding - (amount - fromStack));
    assert RepresentsWith(TakeBuckets(info, amount), TakeNewest(acc, amount), done, now);
  }

  lemma {:induction false} GrantedShape(s: Stack, amount: nat, now: nat)
    ensures Total(Granted(s, amount)) == Total(s) + amount
    ensures WellDated(s, now) ==> WellDated(Granted(s, amount), now)
    ensures AllRipe(s, now) ==> AllRipe(Granted(s, amount), now)
  {
    if s.Push? {
      GrantedShape(s.below, amount, s.top.since);
      GrantedShape(s.below, amount, now);
    }
  }

  lemma {:induction false} GrantedPushed(base: Stack, ts: seq<Tranche>, n: nat, amount: nat)
    requires n <= |ts|
    ensures Granted(Pushed(base, ts, n), amount) == Pushed(Granted(base, amount), ts, n)
  {
    if n > 0 {
      GrantedPushed(base, ts, n - 1, amount);
    }
  }

  lemma ImportRefines(info: StakeInfo, acc: Account, t: nat, amount: nat, now: nat)
    requires Represents(info, acc, t) && t <= now
    ensures Represents(BondStep(info, OpImport(amount), now).0, StackStep(acc, OpImport(amount), now).0, now)
  {
    ReadsAgree(info, acc, t, now);
    var done :| RepresentsWith(info, acc, done, now);
    GrantedShape(done, amount, now);
    GrantedShape(acc.stack, amount, now);
    GrantedPushed(done, info.tranches, |info.tranches|, amount);
    assert RepresentsWith(info.(settled := info.settled + amount), acc.(stack := Granted(acc.stack, amount)),
                          Granted(done, amount), now);
  }

  lemma LeaveRefines(info: StakeInfo, acc: Account, t: nat, now: nat)
    requires Represents(info, acc, t) && t <= now
    ensures BondStep(info, OpLeave, now).1 == StackStep(acc, OpLeave, now).1
    ensures Represents(BondStep(info, OpLeave, now).0, StackStep(acc, OpLeave, now).0, now)
  {
    ReadsAgree(info, acc, t, now);
    NothingRepresents(now);
  }

  lemma NothingRepresents(now: nat)
    ensures Represents(NO_STAKE, Account(Bottom(0), 0, 0), now)
  {
    assert RepresentsWith(NO_STAKE, Account(Bottom(0), 0, 0), Bottom(0), now);
  }

  lemma StepRefines(info: StakeInfo, acc: Account, t: nat, op: StakeOp, now: nat)
    requires Represents(info, acc, t) && t <= now
    ensures BondStep(info, op, now).1 == StackStep(acc, op, now).1
    ensures Represents(BondStep(info, op, now).0, StackStep(acc, op, now).0, now)
  {
    match op
    case OpTopUp(amount) => TopUpRefines(info, acc, t, amount, now);
    case OpUnstake(amount, timeout) => UnstakeRefines(info, acc, t, amount, timeout, now);
    case OpRelease => ReleaseRefines(info, acc, t, now);
    case OpSlash(cap) => SlashRefines(info, acc, t, cap, now);
    case OpImport(amount) => ImportRefines(info, acc, t, amount, now);
    case OpLeave => LeaveRefines(info, acc, t, now);
  }

  // ---- whole runs -----------------------------------------------------------------------

  /** Operations in the order they ran, newest last, each with its ledger. */
  datatype Trace = Start | Then(before: Trace, now: nat, op: StakeOp)

  function EndOf(run: Trace): nat {
    match run case Start => 0 case Then(_, now, _) => now
  }

  predicate InOrder(run: Trace) {
    run.Then? ==> EndOf(run.before) <= run.now && InOrder(run.before)
  }

  function BondRun(run: Trace): (StakeInfo, seq<Result<int>>) {
    match run
    case Start => (NO_STAKE, [])
    case Then(before, now, op) =>
      var (info, seen) := BondRun(before);
      var r := BondStep(info, op, now);
      (r.0, seen + [r.1])
  }

  function StackRun(run: Trace): (Account, seq<Result<int>>) {
    match run
    case Start => (Account(Bottom(0), 0, 0), [])
    case Then(before, now, op) =>
      var (acc, seen) := StackRun(before);
      var r := StackStep(acc, op, now);
      (r.0, seen + [r.1])
  }

  lemma {:induction false} RunRepresents(run: Trace)
    requires InOrder(run)
    ensures BondRun(run).1 == StackRun(run).1
    ensures Represents(BondRun(run).0, StackRun(run).0, EndOf(run))
  {
    match run
    case Start => NothingRepresents(0);
    case Then(before, now, op) =>
      RunRepresents(before);
      StepRefines(BondRun(before).0, StackRun(before).0, EndOf(before), op, now);
  }

  /** Over any time-ordered interleaving of top-ups, unstakes, releases, slashes and migrations, the lazily
      matured bond answers every call like the stack of dated deposits, and at every later ledger
      reads as active the whole stack, and as matured the grants and the deposits at least a warmup old (at
      the last ledger, all of them); its tranches stay positive, date-sorted and summed. */
  lemma BondIsDepositStack(run: Trace, now: nat)
    requires InOrder(run) && EndOf(run) <= now <= U32_MAX
    ensures BondRun(run).1 == StackRun(run).1
    ensures var info, acc := BondRun(run).0, StackRun(run).0;
            && Active(info) == Total(acc.stack)
            && Mature(info, now).settled == (if now == U32_MAX then Total(acc.stack) else AgedTotal(acc.stack, now))
            && info.unbonding == acc.unbonding && info.releaseAt == acc.releaseAt
            && SortedTranches(info, now)
  {
    RunRepresents(run);
    var info, acc := BondRun(run).0, StackRun(run).0;
    ReadsAgree(info, acc, EndOf(run), now);
    StackDated(info, acc, now);
    MaturedIsAged(acc.stack, now, now);
    RepresentedIsSorted(info, acc, now);
  }

  lemma StackDated(info: StakeInfo, acc: Account, now: nat)
    requires Represents(info, acc, now)
    ensures WellDated(acc.stack, now)
  {
  }

  ghost predicate SortedTranches(info: StakeInfo, now: nat) {
    var ts := info.tranches;
    && info.settled >= 0 && info.unbonding >= 0
    && info.warming == Sum(ts, |ts|)
    && (forall i :: 0 <= i < |ts| ==> ts[i].amount > 0 && ts[i].since <= now)
    && (forall i, j :: 0 <= i < j < |ts| ==> ts[i].since <= ts[j].since)
  }

  lemma RepresentedIsSorted(info: StakeInfo, acc: Account, now: nat)
    requires Represents(info, acc, now)
    ensures SortedTranches(info, now)
  {
    var done :| RepresentsWith(info, acc, done, now);
    PushedSorted(done, info.tranches, |info.tranches|, now);
    PushedParts(done, info.tranches, |info.tranches|, now);
    TotalPositive(done, now);
  }

  lemma {:induction false} PushedSorted(base: Stack, ts: seq<Tranche>, n: nat, now: nat)
    requires n <= |ts| && WellDated(Pushed(base, ts, n), now)
    ensures forall i :: 0 <= i < n ==> ts[i].amount > 0 && ts[i].since <= now
    ensures forall i, j :: 0 <= i < j < n ==> ts[i].since <= ts[j].since
  {
    if n > 0 {
      PushedSorted(base, ts, n - 1, ts[n - 1].since);
    }
  }

  /** Rolling ripe tranches over early, at any ledger, is invisible to every later read. */
  lemma MaturingIsUnobservable(info: StakeInfo, mid: nat, now: nat)
    requires mid <= now
    ensures Mature(Mature(info, mid), now) == Mature(info, now)
  {
    RipeningInTwoSteps(info.tranches, |info.tranches|, mid, now);
  }

  lemma {:induction false} RipeningInTwoSteps(ts: seq<Tranche>, n: nat, mid: nat, now: nat)
    requires n <= |ts| && mid <= now
    ensures var left := Unripe(ts, n, mid);
            && Unripe(left, |left|, now) == Unripe(ts, n, now)
            && RipeSum(ts, n, mid) + RipeSum(left, |left|, now) == RipeSum(ts, n, now)
  {
    if n > 0 {
      RipeningInTwoSteps(ts, n - 1, mid, now);
      var left := Unripe(ts, n - 1, mid);
      if Ripe(ts[n - 1], mid) {
        assert left + [] == left;
      } else {
        UnripeSame(left + [ts[n - 1]], left, |left|, now);
      }
    }
  }

  lemma {:induction false} UnripeSame(s: seq<Tranche>, t: seq<Tranche>, n: nat, now: nat)
    requires n <= |s| && n <= |t|
    requires forall i :: 0 <= i < n ==> s[i] == t[i]
    ensures Unripe(s, n, now) == Unripe(t, n, now)
    ensures RipeSum(s, n, now) == RipeSum(t, n, now)
  {
    if n > 0 {
      UnripeSame(s, t, n - 1, now);
    }
  }
}
