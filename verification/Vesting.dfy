/** The fee-vesting treasury: cliff, line, claims anyone may trigger. */
module Vesting {
  import opened Base
  import opened Token
  import opened WideMath

  const U64_MAX: int := 0xFFFF_FFFF_FFFF_FFFF

  type u64 = x: nat | x <= 0xFFFF_FFFF_FFFF_FFFF

  type i128 = x: int | Fits(x)

  datatype Schedule = Schedule(start: u64, cliff: u64, end: u64, total: i128)

  predicate Legal(s: Schedule) {
    s.start <= s.cliff <= s.end && 0 < s.total
  }

  /** What is unlocked at `now`, over unbounded integers. */
  function Vested(s: Schedule, now: nat): int
    requires Legal(s)
  {
    if now < s.cliff then 0
    else if now >= s.end then s.total
    else s.total * (now - s.start) / (s.end - s.start)
  }

  lemma MulMonotone(a: nat, x: int, y: int)
    requires x <= y
    ensures a * x <= a * y
  {
  }

  lemma VestedGrows(s: Schedule, before: nat, now: nat)
    requires Legal(s) && before <= now
    ensures 0 <= Vested(s, before) <= Vested(s, now) <= s.total
  {
    var span := s.end - s.start;
    if s.cliff <= before < s.end {
      VestedInside(s, before);
      if now < s.end {
        MulMonotone(s.total, before - s.start, now - s.start);
        DivMonotone(s.total * (before - s.start), s.total * (now - s.start), span);
      }
    }
    if s.cliff <= now < s.end {
      VestedInside(s, now);
    }
  }

  lemma VestedInside(s: Schedule, now: nat)
    requires Legal(s) && s.cliff <= now < s.end
    ensures 0 <= Vested(s, now) <= s.total
  {
    var span := s.end - s.start;
    MulMonotone(s.total, 0, now - s.start);
    MulMonotone(s.total, now - s.start, span);
    DivMonotone(0, s.total * (now - s.start), span);
    DivMonotone(s.total * (now - s.start), s.total * span, span);
    DivAddMultiple(0, s.total, span);
  }

  /** `vested` is what a cliff-then-linear schedule unlocks by `now`: nothing before the cliff, everything from the
      end on, and in between the largest whole number of stroops not above the straight line from the start. */
  predicate OnTheLine(s: Schedule, now: nat, vested: int) {
    if now < s.cliff then vested == 0
    else if now >= s.end then vested == s.total
    else vested * (s.end - s.start) <= s.total * (now - s.start) < (vested + 1) * (s.end - s.start)
  }

  lemma VestedOnTheLine(s: Schedule, now: nat)
    requires Legal(s)
    ensures OnTheLine(s, now, Vested(s, now))
  {
    if s.cliff <= now < s.end {
      FloorBounds(s.total * (now - s.start), s.end - s.start);
    }
  }

  /** The checked path and the 256-bit path give the same floor. */
  method VestedAmount(s: Schedule, now: nat) returns (vested: int)
    requires Legal(s) && now <= U64_MAX
    ensures vested == Vested(s, now) && OnTheLine(s, now, vested)
  {
    VestedOnTheLine(s, now);
    if now < s.cliff {
      return 0;
    }
    if now >= s.end || s.end == s.start {
      return s.total;
    }
    var elapsed, span := now - s.start, s.end - s.start;
    if Fits(s.total * elapsed) {
      return s.total * elapsed / span;
    }
    VestedInside(s, now);
    var product := MulWide(s.total as u128, elapsed as u128);
    var highLimbZero;
    vested, highLimbZero := DivWideByI128(product, span);
    assert highLimbZero;
  }

  // ---- the contract as a function of its storage ---------------------------------------------

  datatype Treasury = Blank | Vesting(admin: Address, beneficiary: Address, schedule: Schedule, claimed: int)

  /** The treasury contract `me`, the clock and the token. */
  datatype Place = Place(now: nat, me: Address, tok: Balances, treasury: Treasury) {
    function Held(): int {
      Get(tok, me)
    }
  }

  datatype Call =
    | Initialize(admin: Address, beneficiary: Address, schedule: Schedule)
    | SetBeneficiary(beneficiary: Address)
    | ClaimVested
    | ClaimVestedAs(caller: Address)
    | Tick(seconds: nat)
    | TokenTransfer(from: Address, to: Address, amount: int)

  /** Panics are traps. `signers` are the addresses that signed the call. */
  function Configure(t: Treasury, signers: set<Address>, admin: Address, beneficiary: Address, s: Schedule)
    : Result<Treasury>
  {
    if t.Vesting? || s.start > s.cliff || s.cliff > s.end || s.total <= 0 then Err(Trap)
    else if admin !in signers || beneficiary !in signers then Err(Trap)
    else Ok(Vesting(admin, beneficiary, s, 0))
  }

  function Rotate(t: Treasury, signers: set<Address>, beneficiary: Address): Result<Treasury> {
    if t.Blank? || t.admin !in signers then Err(Trap) else Ok(t.(beneficiary := beneficiary))
  }

  predicate LegalTreasury(t: Treasury) {
    t.Vesting? ==> Legal(t.schedule)
  }

  function Claimable(t: Treasury, now: nat): int
    requires t.Vesting? && Legal(t.schedule)
  {
    Vested(t.schedule, now) - t.claimed
  }

  /** The world after a claim, and the amount paid. */
  function Claim(p: Place): Result<(Place, int)>
    requires LegalTreasury(p.treasury)
  {
    if p.treasury.Blank? then Err(Trap)
    else
      var amount := Claimable(p.treasury, p.now);
      if amount <= 0 then Err(Trap)
      else
        var tok :- Transfer(p.tok, p.me, p.treasury.beneficiary, amount);
        Ok((p.(tok := tok, treasury := p.treasury.(claimed := p.treasury.claimed + amount)), amount))
  }

  function ClaimAs(p: Place, signers: set<Address>, caller: Address): Result<(Place, int)>
    requires LegalTreasury(p.treasury)
  {
    if caller !in signers || p.treasury.Blank? || caller != p.treasury.beneficiary then Err(Trap) else Claim(p)
  }

  /** A call that may come from anyone, and the amount it paid out. The treasury itself signs nothing. */
  function Step(p: Place, signers: set<Address>, call: Call): Result<(Place, int)>
    requires LegalTreasury(p.treasury)
  {
    match call
    case Initialize(admin, beneficiary, schedule) =>
      var t :- Configure(p.treasury, signers, admin, beneficiary, schedule); Ok((p.(treasury := t), 0))
    case SetBeneficiary(beneficiary) =>
      var t :- Rotate(p.treasury, signers, beneficiary); Ok((p.(treasury := t), 0))
    case ClaimVested => Claim(p)
    case ClaimVestedAs(caller) => ClaimAs(p, signers, caller)
    case Tick(seconds) => if p.now + seconds > U64_MAX then Err(Trap) else Ok((p.(now := p.now + seconds), 0))
    case TokenTransfer(from, to, amount) =>
      if from !in signers || from == p.me then Err(Trap)
      else var tok :- Transfer(p.tok, from, to, amount); Ok((p.(tok := tok), 0))
  }

  /** A run and what it has paid out so far; a failed call changes nothing. */
  datatype Trail = Start(p: Place) | Then(before: Trail, signers: set<Address>, call: Call)

  /** Where a run ends. */
  function Reached(h: Trail): (p: Place)
    requires LegalTreasury(First(h).treasury)
    ensures LegalTreasury(p.treasury)
  {
    match h
    case Start(p) => p
    case Then(before, signers, call) =>
      var r := Step(Reached(before), signers, call);
      if r.Ok? then r.value.0 else Reached(before)
  }

  function First(h: Trail): Place {
    match h
    case Start(p) => p
    case Then(before, _, _) => First(before)
  }

  function Paid(h: Trail): int
    requires LegalTreasury(First(h).treasury)
  {
    match h
    case Start(_) => 0
    case Then(before, signers, call) =>
      var r := Step(Reached(before), signers, call);
      Paid(before) + if r.Ok? then r.value.1 else 0
  }

  // ---- runs from deployment ---------------------------------------------------------------

  predicate Deployed(h: Trail) {
    First(h).treasury.Blank? && First(h).now <= U64_MAX
  }

  /** What a run has paid is what it has recorded as claimed, and never more than is vested. */
  predicate OnSchedule(p: Place, paid: int)
    requires LegalTreasury(p.treasury)
  {
    && p.now <= U64_MAX
    && match p.treasury
       case Blank => paid == 0
       case Vesting(_, _, s, claimed) => paid == claimed && 0 <= paid <= Vested(s, p.now) <= s.total
  }

  lemma {:induction false} NeverAheadOfSchedule(h: Trail)
    requires Deployed(h)
    ensures OnSchedule(Reached(h), Paid(h))
  {
    match h
    case Start(_) =>
    case Then(before, signers, call) =>
      NeverAheadOfSchedule(before);
      var p := Reached(before);
      if p.treasury.Vesting? {
        VestedGrows(p.treasury.schedule, p.now, Reached(h).now);
      } else if Reached(h).treasury.Vesting? {
        VestedGrows(Reached(h).treasury.schedule, 0, Reached(h).now);
      }
  }

  /** The last call was a claim, by anyone, and it went through. */
  predicate JustClaimed(h: Trail)
    requires LegalTreasury(First(h).treasury)
  {
    h.Then? && (h.call.ClaimVested? || h.call.ClaimVestedAs?) && Step(Reached(h.before), h.signers, h.call).Ok?
  }

  /** Claims, however they are split, sum to what is vested at the last of them; one at or after the
      end brings the sum to the whole total. */
  lemma ClaimsSumToVested(h: Trail)
    requires Deployed(h) && JustClaimed(h)
    ensures var p := Reached(h);
            && p.treasury.Vesting? && p.now == Reached(h.before).now
            && Paid(h) == Vested(p.treasury.schedule, p.now) && OnTheLine(p.treasury.schedule, p.now, Paid(h))
            && (p.now >= p.treasury.schedule.end ==> Paid(h) == p.treasury.schedule.total)
            && p.now >= p.treasury.schedule.cliff
  {
    hide OnTheLine;
    NeverAheadOfSchedule(h.before);
    VestedOnTheLine(Reached(h).treasury.schedule, Reached(h).now);
  }

  /** Who may do what: the admin and the beneficiary sign the one initialization, and only a schedule in order is
      accepted; only the admin moves the beneficiary; a claim by name is the beneficiary's own claim. */
  lemma WhoMayCall(p: Place, signers: set<Address>, admin: Address, a: Address, schedule: Schedule)
    requires LegalTreasury(p.treasury)
    ensures Step(p, signers, Initialize(admin, a, schedule)).Ok? <==>
              && p.treasury.Blank? && {admin, a} <= signers
              && schedule.start <= schedule.cliff <= schedule.end && schedule.total > 0
    ensures Step(p, signers, SetBeneficiary(a)).Ok? <==> p.treasury.Vesting? && p.treasury.admin in signers
    ensures Step(p, signers, SetBeneficiary(a)).Ok? ==>
              Step(p, signers, SetBeneficiary(a)).value == (p.(treasury := p.treasury.(beneficiary := a)), 0)
    ensures Step(p, signers, ClaimVestedAs(a)) ==
              if p.treasury.Vesting? && a in signers && a == p.treasury.beneficiary then Step(p, {}, ClaimVested)
              else Err(Trap)
  {
  }

  predicate Extends(later: Trail, h: Trail)
  {
    later == h || (later.Then? && Extends(later.before, h))
  }

  /** Once configured, the schedule is fixed for ever; only the claims and the beneficiary move. */
  lemma {:induction false} ScheduleFixed(later: Trail, h: Trail)
    requires Deployed(h) && Extends(later, h) && Reached(h).treasury.Vesting?
    ensures First(later) == First(h)
    ensures var p, q := Reached(h), Reached(later);
            && q.treasury.Vesting? && q.treasury.schedule == p.treasury.schedule && q.treasury.admin == p.treasury.admin
            && p.now <= q.now && q.me == p.me && Paid(h) <= Paid(later)
  {
    if later != h {
      ScheduleFixed(later.before, h);
    }
  }

  /** Two continuations of one run that both end in a claim at the same time have paid the same. */
  lemma SplitIrrelevant(h: Trail, one: Trail, other: Trail)
    requires Deployed(h) && Reached(h).treasury.Vesting?
    requires Extends(one, h) && Extends(other, h) && First(one) == First(h) && First(other) == First(h)
    requires JustClaimed(one) && JustClaimed(other) && Reached(one).now == Reached(other).now
    ensures Paid(one) == Paid(other)
  {
    ScheduleFixed(one, h);
    ScheduleFixed(other, h);
    ClaimsSumToVested(one);
    ClaimsSumToVested(other);
  }

  /** The treasury holds what the schedule has still to pay. */
  ghost predicate Funded(p: Place) {
    p.treasury.Vesting? && NonNegative(p.tok) && p.Held() >= p.treasury.schedule.total - p.treasury.claimed
  }

  /** A treasury funded once stays funded, so a claim succeeds exactly when something is unlocked, pays
      exactly that, and pays it to the beneficiary of the moment. */
  lemma {:induction false} FundedClaims(later: Trail, h: Trail)
    requires Deployed(h) && Extends(later, h) && Funded(Reached(h))
    ensures First(later) == First(h) && Funded(Reached(later))
    ensures var p := Reached(later);
            var r := Claim(p);
            && (r.Ok? <==> p.treasury.claimed < Vested(p.treasury.schedule, p.now))
            && (r.Ok? && p.treasury.beneficiary != p.me ==>
                && r.value.1 == Vested(p.treasury.schedule, p.now) - p.treasury.claimed
                && Get(r.value.0.tok, p.treasury.beneficiary) == Get(p.tok, p.treasury.beneficiary) + r.value.1
                && r.value.0.Held() == p.Held() - r.value.1)
  {
    if later != h {
      FundedClaims(later.before, h);
      StepKeepsFunds(Reached(later.before), later.signers, later.call);
    }
    NeverAheadOfSchedule(later);
  }

  lemma StepKeepsFunds(p: Place, signers: set<Address>, call: Call)
    requires LegalTreasury(p.treasury) && Funded(p)
    ensures Step(p, signers, call).Ok? ==> Funded(Step(p, signers, call).value.0)
  {
  }

  // ---- the stored contract -------------------------------------------------------------------

  /** The contract's storage keys; the admin is present once the contract is initialized. */
  class FeeVesting {
    const me: Address
    const token: TokenContract
    var admin: Option<Address>
    var beneficiary: Address
    var schedule: Schedule
    var claimed: int

    constructor (me: Address, token: TokenContract)
      ensures this.me == me && this.token == token && Stored() == Blank
    {
      this.me, this.token := me, token;
      admin, beneficiary, schedule, claimed := None, 0, Schedule(0, 0, 0, 0), 0;
    }

    function Stored(): Treasury
      reads this
    {
      if admin.None? then Blank else Vesting(admin.value, beneficiary, schedule, claimed)
    }

    ghost function At(now: nat): Place
      reads this, token
    {
      Place(now, me, token.balances, Stored())
    }

    method Initialize(signers: set<Address>, newAdmin: Address, newBeneficiary: Address,
                      start: u64, cliff: u64, end: u64, total: i128)
      returns (r: Result<()>)
      modifies this
      ensures var spec := Configure(old(Stored()), signers, newAdmin, newBeneficiary,
                                    Schedule(start, cliff, end, total));
              r == spec.Status() && Stored() == if r.Ok? then spec.value else old(Stored())
      ensures LegalTreasury(old(Stored())) ==> LegalTreasury(Stored())
    {
      if admin.Some? || start > cliff || cliff > end || total <= 0 {
        return Err(Trap);
      }
      if newAdmin !in signers || newBeneficiary !in signers {
        return Err(Trap);
      }
      admin := Some(newAdmin);
      beneficiary := newBeneficiary;
      schedule := Schedule(start, cliff, end, total);
      claimed := 0;
      return Ok(());
    }

    method ChangeBeneficiary(signers: set<Address>, newBeneficiary: Address) returns (r: Result<()>)
      modifies this
      ensures var spec := Rotate(old(Stored()), signers, newBeneficiary);
              r == spec.Status() && Stored() == if r.Ok? then spec.value else old(Stored())
    {
      if admin.None? || admin.value !in signers {
        return Err(Trap);
      }
      beneficiary := newBeneficiary;
      return Ok(());
    }

    method ClaimableAmount(now: nat) returns (amount: int)
      requires Stored().Vesting? && LegalTreasury(Stored()) && now <= U64_MAX
      ensures amount == Claimable(Stored(), now)
    {
      var vested := VestedAmount(schedule, now);
      amount := vested - claimed;
    }

    /** The claim is recorded before the payment; a payment that fails undoes the record. */
    method ClaimVested(now: nat) returns (r: Result<int>)
      requires LegalTreasury(Stored()) && now <= U64_MAX
      modifies this, token
      ensures r.Status() == Claim(old(At(now))).Status()
      ensures r.Ok? ==> Claim(old(At(now))) == Ok((At(now), r.value))
      ensures r.Err? ==> At(now) == old(At(now))
    {
      if admin.None? {
        return Err(Trap);
      }
      var amount := ClaimableAmount(now);
      if amount <= 0 {
        return Err(Trap);
      }
      claimed := claimed + amount;
      var paid := token.Move(me, beneficiary, amount);
      if paid.Err? {
        claimed := claimed - amount;
        return Err(paid.error);
      }
      return Ok(amount);
    }

    method ClaimVestedAs(now: nat, signers: set<Address>, caller: Address) returns (r: Result<int>)
      requires LegalTreasury(Stored()) && now <= U64_MAX
      modifies this, token
      ensures r.Status() == ClaimAs(old(At(now)), signers, caller).Status()
      ensures r.Ok? ==> ClaimAs(old(At(now)), signers, caller) == Ok((At(now), r.value))
      ensures r.Err? ==> At(now) == old(At(now))
    {
      if caller !in signers || admin.None? || caller != beneficiary {
        return Err(Trap);
      }
      r := ClaimVested(now);
    }
  }
}
