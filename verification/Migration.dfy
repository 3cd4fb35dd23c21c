/** Moving questions and balances from one contract instance to its successor. */
module Migration {
  import opened Base
  import opened Stakes
  import opened StakeTotals
  import opened PendingIndex
  import opened Ledger
  import opened Invariant
  import opened Solvency
  import opened SweepTimeouts
  import opened Frames

  /** Two instances sharing a clock and a token. */
  datatype Pair = Pair(now: nat, contracts: set<Address>, tok: Balances, source: Store, target: Store) {
    function SourceView(): World {
      World(now, contracts, tok, source)
    }

    function TargetView(): World {
      World(now, contracts, tok, target)
    }
  }

  // ---- questions ----------------------------------------------------------------------

  /** The target's half: it takes the funds from the source it was told to trust, which is the caller. */
  function ImportQuestion(tok: Balances, s: Store, from: Address, id: QuestionId, q: Question)
    : Result<(Balances, Store)>
  {
    if s.source != Some(from) then Err(MigrationNotAuthorized)
    else if q.amount <= 0 then Err(InvalidAmount)
    else if q.timeout == 0 || q.timeout > MAX_TIMEOUT_LEDGERS then Err(InvalidTimeout)
    else if id in s.questions then Err(QuestionAlreadyExists)
    else
      var pulled :- Transfer(tok, from, s.me, q.amount);
      var recorded :- RecordQuestion(s, id, q.(status := Pending));
      Ok((pulled, recorded))
  }

  /** The source's half settles its own record first. */
  function MigrateOne(p: Pair, id: QuestionId): Result<Pair> {
    if id !in p.source.questions then Err(QuestionNotFound)
    else
      var q := p.source.questions[id];
      if q.status != Pending then Err(QuestionNotPending)
      else
        var left :- SettleQuestion(p.source, id, q, Migrated);
        var arrived :- ImportQuestion(p.tok, p.target, p.source.me, id, q);
        Ok(p.(tok := arrived.0, source := left, target := arrived.1))
  }

  /** The first `k` ids and the running total; any failure reverts the whole batch. */
  function MigrateBatch(p: Pair, ids: seq<QuestionId>, k: nat): Result<(Pair, int)>
    requires k <= |ids|
  {
    if k == 0 then Ok((p, 0))
    else
      var before :- MigrateBatch(p, ids, k - 1);
      var moved :- MigrateOne(before.0, ids[k - 1]);
      var total := before.1 + before.0.source.questions[ids[k - 1]].amount;
      if !Fits(total) then Err(ArithmeticOverflow) else Ok((moved, total))
  }

  function MigratePending(p: Pair, ids: seq<QuestionId>): Result<(Pair, int)> {
    if p.target.me == p.source.me then Err(InvalidMigrationTarget) else MigrateBatch(p, ids, |ids|)
  }

  // ---- balances ------------------------------------------------------------------------

  /** Settled, warming and unbonding together. */
  function StakeHeld(s: Store, a: Address): int {
    if a in s.stakes then Slashable(s.stakes[a]) else 0
  }

  /** One address's stake, earnings and prepaid balance. */
  function TotalHeld(s: Store, a: Address): int {
    StakeHeld(s, a) + Get(s.owed, a) + Get(s.prepaid, a)
  }

  predicate SumsFit(stake: int, owed: int, balance: int) {
    Fits(stake + owed) && Fits(stake + owed + balance)
  }

  /** Positive entries are removed; the others stay as they are. */
  function Removed(s: Store, a: Address): Store {
    s.(stakes := if StakeHeld(s, a) > 0 then s.stakes - {a} else s.stakes,
       owed := if Get(s.owed, a) > 0 then s.owed - {a} else s.owed,
       prepaid := if Get(s.prepaid, a) > 0 then s.prepaid - {a} else s.prepaid)
  }

  function CreditStake(s: Store, a: Address, amount: int): Result<Store> {
    if amount <= 0 then Ok(s)
    else
      var info := StakeOf(s, a);
      if !Fits(info.settled + amount) then Err(ArithmeticOverflow)
      else Ok(s.(stakes := s.stakes[a := info.(settled := info.settled + amount)]))
  }

  function CreditBalance(m: map<Address, int>, a: Address, amount: int): Result<map<Address, int>> {
    if amount <= 0 then Ok(m)
    else if !Fits(Get(m, a) + amount) then Err(ArithmeticOverflow)
    else Ok(m[a := Get(m, a) + amount])
  }

  function CreditKinds(s: Store, a: Address, stake: int, owed: int, balance: int): Result<Store> {
    var staked :- CreditStake(s, a, stake);
    var owed' :- CreditBalance(s.owed, a, owed);
    var prepaid' :- CreditBalance(s.prepaid, a, balance);
    Ok(staked.(owed := owed', prepaid := prepaid'))
  }

  /** Migrated stake arrives settled, whatever bucket it left from. */
  function ImportBalances(tok: Balances, s: Store, from: Address, a: Address, stake: int, owed: int, balance: int)
    : Result<(Balances, Store)>
  {
    if s.source != Some(from) then Err(MigrationNotAuthorized)
    else if stake < 0 || owed < 0 || balance < 0 then Err(InvalidAmount)
    else if !SumsFit(stake, owed, balance) then Err(ArithmeticOverflow)
    else
      var sum := stake + owed + balance;
      var pulled :- if sum > 0 then Transfer(tok, from, s.me, sum) else Ok(tok);
      var credited :- CreditKinds(s, a, stake, owed, balance);
      Ok((pulled, credited))
  }

  function MigrateAddress(p: Pair, a: Address): Result<Pair> {
    var stake, owed, balance := StakeHeld(p.source, a), Get(p.source.owed, a), Get(p.source.prepaid, a);
    if !SumsFit(stake, owed, balance) then Err(ArithmeticOverflow)
    else if stake + owed + balance <= 0 then Ok(p)
    else
      var arrived :- ImportBalances(p.tok, p.target, p.source.me, a, stake, owed, balance);
      Ok(p.(tok := arrived.0, source := Removed(p.source, a), target := arrived.1))
  }

  function MigrateAddresses(p: Pair, addresses: seq<Address>, k: nat): Result<(Pair, int)>
    requires k <= |addresses|
  {
    if k == 0 then Ok((p, 0))
    else
      var before :- MigrateAddresses(p, addresses, k - 1);
      var moved :- MigrateAddress(before.0, addresses[k - 1]);
      var total := before.1 + TotalHeld(before.0.source, addresses[k - 1]);
      if !Fits(total) then Err(ArithmeticOverflow) else Ok((moved, total))
  }

  function MigrateBalances(p: Pair, addresses: seq<Address>): Result<(Pair, int)> {
    if p.target.me == p.source.me then Err(InvalidBalanceMigrationTarget)
    else MigrateAddresses(p, addresses, |addresses|)
  }

  // ---- both sides stay solvent -------------------------------------------------------------

  ghost predicate BothInv(p: Pair) {
    Inv(p.SourceView()) && Inv(p.TargetView()) && p.source.me != p.target.me
  }

  ghost function CombinedClaims(p: Pair): int {
    Claims(p.source) + Claims(p.target)
  }

  function CombinedHeld(p: Pair): int {
    p.SourceView().Held() + p.TargetView().Held()
  }

  /** Claims and their tokens moved together: neither side's surplus changed, nor did any sum. */
  ghost predicate MovedTogether(p: Pair, v: Pair) {
    && BothInv(v) && v.now == p.now && v.contracts == p.contracts
    && v.source.me == p.source.me && v.target.me == p.target.me
    && Surplus(v.SourceView()) == Surplus(p.SourceView()) && Surplus(v.TargetView()) == Surplus(p.TargetView())
    && CombinedHeld(v) == CombinedHeld(p) && CombinedClaims(v) == CombinedClaims(p)
    && SumBy(v.tok, Identity) == SumBy(p.tok, Identity)
    && (forall x :: x != p.source.me && x != p.target.me ==> Get(v.tok, x) == Get(p.tok, x))
  }

  lemma MovedTwice(p: Pair, u: Pair, v: Pair)
    requires MovedTogether(p, u) && MovedTogether(u, v)
    ensures MovedTogether(p, v)
  {
    hide Inv, Claims, SumBy;
  }

  /** `amount` of claims left one store for the other together with its tokens. */
  lemma MovedWithTokens(p: Pair, v: Pair, amount: int)
    requires BothInv(p) && v.now == p.now && v.contracts == p.contracts && amount >= 0
    requires SoundStore(v.source, p.contracts) && SoundStore(v.target, p.contracts)
    requires v.source.me == p.source.me && v.target.me == p.target.me
    requires Claims(v.source) == Claims(p.source) - amount && Claims(v.target) == Claims(p.target) + amount
    requires Transfer(p.tok, p.source.me, p.target.me, amount) == Ok(v.tok)
    ensures MovedTogether(p, v) && v.SourceView().Held() == p.SourceView().Held() - amount
  {
    hide SumBy, SoundStore, Claims, Transfer;
    TransferSound(p.tok, p.source.me, p.target.me, amount);
  }

  /** A question that the source can hand over and the target can take. */
  predicate Movable(p: Pair, id: QuestionId) {
    && id in p.source.questions && p.source.questions[id].status == Pending
    && id !in p.target.questions
    && 0 < p.source.questions[id].timeout <= MAX_TIMEOUT_LEDGERS
  }

  predicate Named(p: Pair) {
    p.target.source == Some(p.source.me)
  }

  /** One question: it moves exactly when it is movable, keeping its payer, amount, opening ledger and
      timeout. */
  lemma MigrateOneExact(p: Pair, id: QuestionId)
    requires BothInv(p)
    ensures var r := MigrateOne(p, id);
            && (r.Ok? <==> Named(p) && Movable(p, id) && p.target.index.count < U32_MAX)
            && r != Err(ArithmeticOverflow)
            && (r.Ok? ==>
                var v, q := r.value, p.source.questions[id];
                && MovedTogether(p, v)
                && v.source == p.source.(questions := p.source.questions[id := q.(status := Migrated)],
                                         index := v.source.index, openCount := v.source.openCount)
                && v.target == p.target.(questions := p.target.questions[id := q],
                                         index := v.target.index, openCount := v.target.openCount)
                && v.SourceView().Held() == p.SourceView().Held() - q.amount
                && v.target.index.count == p.target.index.count + 1)
  {
    hide SumBy, SoundStore, Claims, SoundToken, SettleQuestion, RecordQuestion, Transfer, MovedTogether;
    if HasStatus(p.source.questions, id, Pending) {
      var q := p.source.questions[id];
      SettleMigrated(p.source, id, q, p.contracts);
      SourcePays(p, id);
      assert q.(status := Pending) == q;
      if id !in p.target.questions {
        RecordMigrated(p.target, id, q, p.contracts);
        if MigrateOne(p, id).Ok? {
          MovedWithTokens(p, MigrateOne(p, id).value, q.amount);
        }
      }
    }
  }

  lemma SourcePays(p: Pair, id: QuestionId)
    requires BothInv(p) && HasStatus(p.source.questions, id, Pending)
    ensures var q := p.source.questions[id];
            && q.amount > 0 && q.payer !in p.contracts && Transfer(p.tok, p.source.me, p.target.me, q.amount).Ok?
  {
    hide SumBy, Enumerates, Tables;
    EveryClaimBacked(p.SourceView(), 0, id);
    TransferSound(p.tok, p.source.me, p.target.me, p.source.questions[id].amount);
  }

  lemma RecordMigrated(s: Store, id: QuestionId, q: Question, contracts: set<Address>)
    requires SoundStore(s, contracts) && id !in s.questions && q.status == Pending && q.amount > 0
             && q.payer !in contracts
    ensures var r := RecordQuestion(s, id, q);
            && (r.Ok? <==> s.index.count < U32_MAX) && (r.Err? ==> r.error == Trap)
            && (r.Ok? ==>
                && SoundStore(r.value, contracts) && Claims(r.value) == Claims(s) + q.amount
                && r.value == s.(questions := s.questions[id := q], index := r.value.index,
                                 openCount := r.value.openCount)
                && r.value.index.count == s.index.count + 1)
  {
    hide SumBy, Enumerates, Tables, Books;
    OpenedBooks(s, id, q, contracts);
  }

  lemma SettleMigrated(s: Store, id: QuestionId, q: Question, contracts: set<Address>)
    requires SoundStore(s, contracts) && id in s.questions && q == s.questions[id] && q.status == Pending
    ensures var r := SettleQuestion(s, id, q, Migrated);
            && r.Ok? && SoundStore(r.value, contracts) && Claims(r.value) == Claims(s) - q.amount
            && r.value == s.(questions := s.questions[id := q.(status := Migrated)],
                             index := r.value.index, openCount := r.value.openCount)
  {
    TablesUntouched(s.questions, s.resolutions, s.escalated, s.bonds, id, q.(status := Migrated));
    SettledBooks(s, id, q, Migrated, contracts);
  }

  // ---- whole batches of questions ------------------------------------------------------------

  ghost function Firsts<T(!new)>(ids: seq<T>, k: nat): set<T>
    requires k <= |ids|
  {
    if k == 0 then {} else Firsts(ids, k - 1) + {ids[k - 1]}
  }

  lemma {:induction false} FirstsAre<T(!new)>(ids: seq<T>, k: nat, id: T)
    requires k <= |ids|
    ensures id in Firsts(ids, k) <==> exists i :: 0 <= i < k && ids[i] == id
  {
    if k > 0 {
      FirstsAre(ids, k - 1, id);
      assert (exists i :: 0 <= i < k && ids[i] == id) <==>
             (exists i :: 0 <= i < k - 1 && ids[i] == id) || ids[k - 1] == id;
    }
  }

  /** The source's questions once `moved` have left. */
  ghost predicate MarkedOff(before: map<QuestionId, Question>, after: map<QuestionId, Question>,
                            moved: set<QuestionId>) {
    && (forall id :: id in moved ==> id in before)
    && (forall id :: id in after <==> id in before)
    && (forall id :: id in before ==> after[id] == if id in moved then before[id].(status := Migrated) else before[id])
  }

  /** The target's questions once `moved` have arrived, as they were at the source. */
  ghost predicate Arrived(source: map<QuestionId, Question>, before: map<QuestionId, Question>,
                          after: map<QuestionId, Question>, moved: set<QuestionId>) {
    && (forall id :: id in moved ==> id in source)
    && (forall id :: id in after <==> id in before || id in moved)
    && (forall id :: id in after ==> after[id] == if id in moved then source[id] else before[id])
  }

  /** `v` is `p` with exactly `moved` handed over; only the order of the two indexes is left open. */
  ghost predicate HandedOver(p: Pair, v: Pair, moved: set<QuestionId>) {
    && v.source == p.source.(questions := v.source.questions, index := v.source.index, openCount := v.source.openCount)
    && v.target == p.target.(questions := v.target.questions, index := v.target.index, openCount := v.target.openCount)
    && MarkedOff(p.source.questions, v.source.questions, moved)
    && Arrived(p.source.questions, p.target.questions, v.target.questions, moved)
    && v.target.index.count == p.target.index.count + |moved|
    && v.SourceView().Held() == p.SourceView().Held() - SumBy(Selected(p.source.questions, moved), AmountOf)
  }

  /** The first `k` ids can all be handed over, one after the other. */
  ghost predicate BatchMovable(p: Pair, ids: seq<QuestionId>, k: nat)
    requires k <= |ids|
  {
    k == 0 ||
    (&& BatchMovable(p, ids, k - 1) && Named(p) && Movable(p, ids[k - 1]) && ids[k - 1] !in Firsts(ids, k - 1)
     && p.target.index.count + k <= U32_MAX)
  }

  lemma {:induction false} BatchExact(p: Pair, ids: seq<QuestionId>, k: nat)
    requires k <= |ids| && BothInv(p)
    ensures var r := MigrateBatch(p, ids, k);
            && (r.Ok? <==> BatchMovable(p, ids, k))
            && r != Err(ArithmeticOverflow)
            && (r.Ok? ==>
                && MovedTogether(p, r.value.0) && HandedOver(p, r.value.0, Firsts(ids, k)) && |Firsts(ids, k)| == k
                && r.value.1 == SumBy(Selected(p.source.questions, Firsts(ids, k)), AmountOf))
  {
    hide SumBy, BothInv, MovedTogether, MigrateOne, HandedOver, Movable;
    if k == 0 {
      NothingMoved(p);
    } else {
      BatchExact(p, ids, k - 1);
      if BatchMovable(p, ids, k - 1) {
        var u := MigrateBatch(p, ids, k - 1).value.0;
        BatchStep(p, u, Firsts(ids, k - 1), ids[k - 1]);
      }
    }
  }

  lemma NothingMoved(p: Pair)
    requires BothInv(p)
    ensures HandedOver(p, p, {}) && MovedTogether(p, p)
    ensures SumBy(Selected(p.source.questions, {}), AmountOf) == 0
  {
    hide Tables, Books;
    assert Selected(p.source.questions, {}) == map[];
  }

  /** One more id of a batch. */
  lemma BatchStep(p: Pair, u: Pair, moved: set<QuestionId>, id: QuestionId)
    requires BothInv(p) && MovedTogether(p, u) && HandedOver(p, u, moved)
    ensures var r, chosen := MigrateOne(u, id), moved + {id};
            && (r.Ok? <==> Named(p) && Movable(p, id) && id !in moved && p.target.index.count + |moved| < U32_MAX)
            && r != Err(ArithmeticOverflow)
            && (r.Ok? ==>
                && id in u.source.questions && |chosen| == |moved| + 1
                && MovedTogether(p, r.value) && HandedOver(p, r.value, chosen)
                && SumBy(Selected(p.source.questions, chosen), AmountOf)
                   == SumBy(Selected(p.source.questions, moved), AmountOf) + u.source.questions[id].amount
                && Fits(SumBy(Selected(p.source.questions, chosen), AmountOf)))
  {
    hide SumBy, BothInv, MovedTogether, MigrateOne, Selected;
    MovedBoth(p, u);
    MigrateOneExact(u, id);
    assert Movable(u, id) <==> Movable(p, id) && id !in moved;
    if MigrateOne(u, id).Ok? {
      var v := MigrateOne(u, id).value;
      MovedTwice(p, u, v);
      SelectMore(p.source.questions, moved, id, AmountOf);
      OneMoreHandedOver(p, u, v, moved, id);
      MovedBoth(p, v);
      HeldsFit(p, v);
    }
  }

  lemma OneMoreHandedOver(p: Pair, u: Pair, v: Pair, moved: set<QuestionId>, id: QuestionId)
    requires HandedOver(p, u, moved) && id in p.source.questions && id !in moved
    requires v.source == u.source.(questions := u.source.questions[id := u.source.questions[id].(status := Migrated)],
                                   index := v.source.index, openCount := v.source.openCount)
    requires v.target == u.target.(questions := u.target.questions[id := u.source.questions[id]],
                                   index := v.target.index, openCount := v.target.openCount)
    requires v.target.index.count == u.target.index.count + 1
    requires v.SourceView().Held() == u.SourceView().Held() - p.source.questions[id].amount
    requires SumBy(Selected(p.source.questions, moved + {id}), AmountOf)
             == SumBy(Selected(p.source.questions, moved), AmountOf) + p.source.questions[id].amount
    ensures HandedOver(p, v, moved + {id}) && |moved + {id}| == |moved| + 1
  {
    hide SumBy, Selected, Get, MarkedOff, Arrived;
    assert |moved + {id}| == |moved| + 1;
    OneMoreMarked(p.source.questions, u.source.questions, moved, id);
    OneMoreArrived(p.source.questions, p.target.questions, u.target.questions, moved, id);
  }

  lemma OneMoreMarked(before: map<QuestionId, Question>, now: map<QuestionId, Question>, moved: set<QuestionId>,
                      id: QuestionId)
    requires MarkedOff(before, now, moved) && id in before && id !in moved
    ensures now[id] == before[id] && MarkedOff(before, now[id := before[id].(status := Migrated)], moved + {id})
  {
  }

  lemma OneMoreArrived(source: map<QuestionId, Question>, before: map<QuestionId, Question>,
                       now: map<QuestionId, Question>,
                       moved: set<QuestionId>, id: QuestionId)
    requires Arrived(source, before, now, moved) && id in source && id !in moved
    ensures Arrived(source, before, now[id := source[id]], moved + {id})
  {
  }

  lemma MovedBoth(p: Pair, v: Pair)
    requires MovedTogether(p, v)
    ensures BothInv(v)
  {
  }

  lemma HeldsFit(p: Pair, v: Pair)
    requires BothInv(p) && BothInv(v)
    ensures Fits(p.SourceView().Held() - v.SourceView().Held())
  {
    HeldBounded(p.tok, p.source.me);
    HeldBounded(v.tok, v.source.me);
  }

  /** Each id of the batch is migrated away here and live there as it was; no other question moved. */
  ghost predicate ArrivedAsLeft(p: Pair, v: Pair, ids: seq<QuestionId>) {
    && (forall id :: id in ids ==>
          && HasStatus(v.source.questions, id, Migrated) && id in p.source.questions
          && id in v.target.questions && v.target.questions[id] == p.source.questions[id])
    && (forall id :: id !in ids ==>
          && Lookup(v.SourceView(), id) == Lookup(p.SourceView(), id)
          && Lookup(v.TargetView(), id) == Lookup(p.TargetView(), id))
  }

  /** A batch moves all of its ids or none. It succeeds exactly when they are distinct, every one is
      pending here and unknown there, and the target named this contract; then each is live there with
      its payer, amount, opening ledger and timeout, and the reported total is what was paid across. */
  lemma BatchAllOrNothing(p: Pair, ids: seq<QuestionId>)
    requires BothInv(p)
    ensures var r := MigratePending(p, ids);
            && (r.Ok? <==>
                && (forall i :: 0 <= i < |ids| ==> Movable(p, ids[i])) && NoDup(ids)
                && (ids != [] ==> Named(p)) && p.target.index.count + |ids| <= U32_MAX)
            && r != Err(ArithmeticOverflow)
            && (r.Ok? ==>
                && MovedTogether(p, r.value.0) && ArrivedAsLeft(p, r.value.0, ids)
                && r.value.1 == p.SourceView().Held() - r.value.0.SourceView().Held())
  {
    hide SumBy, BothInv, MovedTogether, MigrateBatch, Movable, ArrivedAsLeft;
    BatchExact(p, ids, |ids|);
    WholeBatch(p, ids, |ids|);
    MeansApart(p);
    if MigratePending(p, ids).Ok? {
      EachArrived(p, MigratePending(p, ids).value.0, ids);
    }
  }

  lemma EachArrived(p: Pair, v: Pair, ids: seq<QuestionId>)
    requires HandedOver(p, v, Firsts(ids, |ids|))
    ensures ArrivedAsLeft(p, v, ids)
  {
    hide SumBy, Selected, Firsts;
    var moved := Firsts(ids, |ids|);
    forall id ensures id in moved <==> id in ids {
      FirstsAre(ids, |ids|, id);
    }
    forall id | id !in ids
      ensures Lookup(v.SourceView(), id) == Lookup(p.SourceView(), id)
      ensures Lookup(v.TargetView(), id) == Lookup(p.TargetView(), id)
    {
      assert id in v.source.questions <==> id in p.source.questions;
      assert id in v.target.questions <==> id in p.target.questions;
    }
  }

  lemma MeansApart(p: Pair)
    requires BothInv(p)
    ensures p.source.me != p.target.me && p.target.index.count <= U32_MAX
  {
  }

  lemma {:induction false} WholeBatch(p: Pair, ids: seq<QuestionId>, k: nat)
    requires k <= |ids| && BothInv(p)
    ensures BatchMovable(p, ids, k) <==>
              && (forall i :: 0 <= i < k ==> Movable(p, ids[i])) && (forall i, j :: 0 <= i < j < k ==> ids[i] != ids[j])
              && (k > 0 ==> Named(p)) && p.target.index.count + k <= U32_MAX
  {
    hide Movable, Named, BothInv;
    MeansApart(p);
    if k > 0 {
      WholeBatch(p, ids, k - 1);
      FirstsAre(ids, k - 1, ids[k - 1]);
    }
  }

  // ---- whole batches of balances ----------------------------------------------------------------

  lemma SumWithout<V(!new)>(m: map<Address, V>, a: Address, f: V -> int)
    ensures SumBy(m - {a}, f) == SumBy(m, f) - if a in m then f(m[a]) else 0
  {
    if a in m {
      SumRemove(m, a, f);
    } else {
      assert m - {a} == m;
    }
  }

  lemma HeldParts(s: Store, a: Address, contracts: set<Address>)
    requires SoundStore(s, contracts)
    ensures StakeHeld(s, a) >= 0 && Get(s.owed, a) >= 0 && Get(s.prepaid, a) >= 0 && TotalHeld(s, a) <= Claims(s)
    ensures StakeHeld(s, a) > 0 || Get(s.prepaid, a) > 0 ==> a !in contracts
  {
    ClaimParts(s);
    SlashableNonNegative(s.stakes);
    if a in s.stakes { SumMember(s.stakes, a, Slashable); }
    if a in s.owed { SumMember(s.owed, a, Identity); }
    if a in s.prepaid { SumMember(s.prepaid, a, Identity); }
  }

  lemma RemovedBooks(s: Store, a: Address, contracts: set<Address>)
    requires SoundStore(s, contracts)
    ensures SoundStore(Removed(s, a), contracts) && Claims(Removed(s, a)) == Claims(s) - TotalHeld(s, a)
  {
    hide SumBy, Enumerates, Tables, Sound;
    HeldParts(s, a, contracts);
    SumWithout(s.stakes, a, Slashable);
    SumWithout(s.owed, a, Identity);
    SumWithout(s.prepaid, a, Identity);
  }

  lemma CreditStakeBooks(s: Store, a: Address, amount: nat, contracts: set<Address>)
    requires SoundStore(s, contracts) && (amount > 0 ==> a !in contracts) && Claims(s) + amount <= I128_MAX
    ensures var r := CreditStake(s, a, amount);
            && r.Ok? && SoundStore(r.value, contracts) && Claims(r.value) == Claims(s) + amount
            && r.value == s.(stakes := r.value.stakes)
            && forall x :: StakeHeld(r.value, x) == StakeHeld(s, x) + if x == a then amount else 0
  {
    hide StakeOf;
    if amount > 0 {
      var info := StakeOf(s, a);
      StakeBounded(s, a);
      MatureSound(info, 0);
      StakeStored(s, contracts, a, info.(settled := info.settled + amount));
    }
  }

  lemma CreditBalanceBooks(m: map<Address, int>, a: Address, amount: nat)
    requires NonNegative(m) && SumBy(m, Identity) + amount <= I128_MAX
    ensures var r := CreditBalance(m, a, amount);
            && r.Ok? && NonNegative(r.value) && SumBy(r.value, Identity) == SumBy(m, Identity) + amount
            && (forall x :: Get(r.value, x) == Get(m, x) + if x == a then amount else 0)
            && (forall x :: x in r.value ==> x in m || (x == a && amount > 0))
  {
    if a in m {
      SumMember(m, a, Identity);
    }
    SumNonNegative(m, Identity);
    SumUpdate(m, a, Get(m, a) + amount, Identity);
  }

  /** Everything imported is credited, in kind, when there is room for it. */
  lemma ImportedBooks(tok: Balances, s: Store, from: Address, a: Address, stake: nat, owed: nat, balance: nat,
                      contracts: set<Address>)
    requires SoundStore(s, contracts) && (stake > 0 || balance > 0 ==> a !in contracts)
    requires Claims(s) + (stake + owed + balance) <= I128_MAX && s.source == Some(from)
    requires 0 < stake + owed + balance <= Get(tok, from)
    ensures var r := ImportBalances(tok, s, from, a, stake, owed, balance);
            && r.Ok? && Ok(r.value.0) == Transfer(tok, from, s.me, stake + owed + balance)
            && SoundStore(r.value.1, contracts) && Claims(r.value.1) == Claims(s) + (stake + owed + balance)
            && r.value.1 == s.(stakes := r.value.1.stakes, owed := r.value.1.owed, prepaid := r.value.1.prepaid)
            && Credited(s, r.value.1, a, stake, owed, balance)
            && forall x :: x != a ==> Credited(s, r.value.1, x, 0, 0, 0)
  {
    hide SumBy, Enumerates, Tables, CreditStake, CreditBalance, Sound;
    ClaimParts(s);
    CreditStakeBooks(s, a, stake, contracts);
    CreditBalanceBooks(s.owed, a, owed);
    CreditBalanceBooks(s.prepaid, a, balance);
  }

  /** What `x` holds in `u` is what it holds in `s` plus the given amounts, in kind. */
  predicate Credited(s: Store, u: Store, x: Address, stake: int, owed: int, balance: int) {
    && StakeHeld(u, x) == StakeHeld(s, x) + stake
    && Get(u.owed, x) == Get(s.owed, x) + owed
    && Get(u.prepaid, x) == Get(s.prepaid, x) + balance
  }

  /** What `x` held at the source of `p` has gone to its holdings at the target, in kind. */
  predicate Gone(p: Pair, v: Pair, x: Address) {
    && Credited(p.source, v.source, x, -StakeHeld(p.source, x), -Get(p.source.owed, x), -Get(p.source.prepaid, x))
    && Credited(p.target, v.target, x, StakeHeld(p.source, x), Get(p.source.owed, x), Get(p.source.prepaid, x))
  }

  predicate Unmoved(p: Pair, v: Pair, x: Address) {
    Credited(p.source, v.source, x, 0, 0, 0) && Credited(p.target, v.target, x, 0, 0, 0)
  }

  /** The addresses in `gone` hold nothing at the source any more, and at the target what they held on
      both sides, in kind; nobody else's holdings changed. */
  ghost predicate HoldingsMoved(p: Pair, v: Pair, gone: set<Address>) {
    forall x :: if x in gone then Gone(p, v, x) else Unmoved(p, v, x)
  }

  /** Only stakes, earnings and prepaid balances moved. */
  predicate OnlyBalances(p: Pair, v: Pair) {
    && v.source == p.source.(stakes := v.source.stakes, owed := v.source.owed, prepaid := v.source.prepaid)
    && v.target == p.target.(stakes := v.target.stakes, owed := v.target.owed, prepaid := v.target.prepaid)
  }

  lemma MigrateAddressExact(p: Pair, a: Address)
    requires BothInv(p)
    ensures var r := MigrateAddress(p, a);
            && (r.Ok? <==> TotalHeld(p.source, a) > 0 ==> Named(p)) && r != Err(ArithmeticOverflow)
            && (r.Ok? ==>
                && MovedTogether(p, r.value) && OnlyBalances(p, r.value) && HoldingsMoved(p, r.value, {a})
                && r.value.SourceView().Held() == p.SourceView().Held() - TotalHeld(p.source, a))
  {
    hide SumBy, SoundStore, Claims, ImportBalances, Removed, MovedTogether, SoundToken, Transfer, StakeHeld, Credited,
         HoldingsMoved, OnlyBalances, Get;
    var stake, owed, balance := StakeHeld(p.source, a), Get(p.source.owed, a), Get(p.source.prepaid, a);
    HeldParts(p.source, a, p.contracts);
    HeldBounded(p.tok, p.source.me);
    RoomAtTarget(p, stake + owed + balance);
    if TotalHeld(p.source, a) <= 0 {
      NothingMoved(p);
      HoldsNothing(p, a);
    } else if Named(p) {
      RemovedBooks(p.source, a, p.contracts);
      RemovedHoldings(p.source, a);
      ImportedBooks(p.tok, p.target, p.source.me, a, stake, owed, balance, p.contracts);
      MovedWithTokens(p, MigrateAddress(p, a).value, stake + owed + balance);
      OneAddressMoved(p, MigrateAddress(p, a).value, a);
    } else {
      ImportRefused(p, a);
    }
  }

  lemma HoldsNothing(p: Pair, a: Address)
    requires TotalHeld(p.source, a) <= 0
    requires StakeHeld(p.source, a) >= 0 && Get(p.source.owed, a) >= 0 && Get(p.source.prepaid, a) >= 0
    ensures HoldingsMoved(p, p, {a}) && OnlyBalances(p, p)
  {
    hide StakeHeld, Get;
  }

  lemma OneAddressMoved(p: Pair, v: Pair, a: Address)
    requires Credited(p.source, v.source, a, -StakeHeld(p.source, a), -Get(p.source.owed, a), -Get(p.source.prepaid, a))
    requires Credited(p.target, v.target, a, StakeHeld(p.source, a), Get(p.source.owed, a), Get(p.source.prepaid, a))
    requires forall x :: x != a ==> Credited(p.source, v.source, x, 0, 0, 0)
    requires forall x :: x != a ==> Credited(p.target, v.target, x, 0, 0, 0)
    requires v.source == p.source.(stakes := v.source.stakes, owed := v.source.owed, prepaid := v.source.prepaid)
    requires v.target == p.target.(stakes := v.target.stakes, owed := v.target.owed, prepaid := v.target.prepaid)
    ensures HoldingsMoved(p, v, {a}) && OnlyBalances(p, v)
  {
    hide Credited, StakeHeld, Get;
  }

  /** The token's supply bounds what both sides owe together. */
  lemma RoomAtTarget(p: Pair, amount: int)
    requires BothInv(p) && 0 <= amount <= Claims(p.source)
    ensures Claims(p.target) + amount <= I128_MAX && amount <= Get(p.tok, p.source.me)
  {
    hide SumBy, SoundStore, Claims;
    TransferSound(p.tok, p.source.me, p.target.me, amount);
    HeldBounded(Transfer(p.tok, p.source.me, p.target.me, amount).value, p.target.me);
  }

  lemma ImportRefused(p: Pair, a: Address)
    requires !Named(p)
    ensures ImportBalances(p.tok, p.target, p.source.me, a, StakeHeld(p.source, a), Get(p.source.owed, a),
                           Get(p.source.prepaid, a))
            == Err(MigrationNotAuthorized)
  {
  }

  lemma RemovedHoldings(s: Store, a: Address)
    requires StakeHeld(s, a) >= 0 && Get(s.owed, a) >= 0 && Get(s.prepaid, a) >= 0
    ensures var s' := Removed(s, a);
            && Credited(s, s', a, -StakeHeld(s, a), -Get(s.owed, a), -Get(s.prepaid, a))
            && (forall x :: x != a ==> Credited(s, s', x, 0, 0, 0))
            && s' == s.(stakes := s'.stakes, owed := s'.owed, prepaid := s'.prepaid)
  {
  }

  /** Balances move in kind: every listed address, however often it is listed, ends with nothing here and
      with the sum of its two holdings there; combined claims and combined tokens are what they were, and
      no addition overflowed. */
  lemma {:induction false} BalancesConserved(p: Pair, addresses: seq<Address>, k: nat)
    requires BothInv(p) && k <= |addresses|
    ensures var r := MigrateAddresses(p, addresses, k);
            && (Named(p) ==> r.Ok?) && r != Err(ArithmeticOverflow)
            && (r.Ok? ==>
                && MovedTogether(p, r.value.0) && OnlyBalances(p, r.value.0)
                && HoldingsMoved(p, r.value.0, Firsts(addresses, k))
                && r.value.1 == p.SourceView().Held() - r.value.0.SourceView().Held())
  {
    hide SumBy, BothInv, MovedTogether, MigrateAddress, HoldingsMoved;
    if k == 0 {
      NothingMoved(p);
      NoHoldingsMoved(p);
    } else {
      BalancesConserved(p, addresses, k - 1);
      var before := MigrateAddresses(p, addresses, k - 1);
      if before.Ok? {
        var u := before.value.0;
        MovedBoth(p, u);
        MigrateAddressExact(u, addresses[k - 1]);
        if MigrateAddress(u, addresses[k - 1]).Ok? {
          HoldingsTwice(p, u, MigrateAddress(u, addresses[k - 1]).value, Firsts(addresses, k - 1), addresses[k - 1]);
          MovedTwice(p, u, MigrateAddress(u, addresses[k - 1]).value);
          MovedBoth(p, MigrateAddress(u, addresses[k - 1]).value);
          HeldsFit(p, MigrateAddress(u, addresses[k - 1]).value);
        }
      }
    }
  }

  lemma NoHoldingsMoved(p: Pair)
    ensures HoldingsMoved(p, p, {})
  {
  }

  /** An address listed again has nothing left to move. */
  lemma HoldingsTwice(p: Pair, u: Pair, v: Pair, gone: set<Address>, a: Address)
    requires HoldingsMoved(p, u, gone) && HoldingsMoved(u, v, {a})
    ensures HoldingsMoved(p, v, gone + {a})
  {
    hide StakeHeld, Get;
    forall x ensures if x in gone + {a} then Gone(p, v, x) else Unmoved(p, v, x) {
      assert if x in gone then Gone(p, u, x) else Unmoved(p, u, x);
      assert if x in {a} then Gone(u, v, x) else Unmoved(u, v, x);
    }
  }

  /** In particular no address's total over the two sides changes. */
  lemma TotalsConserved(p: Pair, addresses: seq<Address>, x: Address)
    requires BothInv(p)
    ensures var r := MigrateBalances(p, addresses);
            && (Named(p) ==> r.Ok?)
            && (r.Ok? ==>
                && TotalHeld(r.value.0.source, x) + TotalHeld(r.value.0.target, x)
                   == TotalHeld(p.source, x) + TotalHeld(p.target, x)
                && (x in addresses ==> TotalHeld(r.value.0.source, x) == 0))
  {
    hide SumBy, Inv, MovedTogether, MigrateAddresses, StakeHeld, Get;
    BalancesConserved(p, addresses, |addresses|);
    FirstsAre(addresses, |addresses|, x);
    var r := MigrateBalances(p, addresses);
    if r.Ok? {
      assert if x in Firsts(addresses, |addresses|) then Gone(p, r.value.0, x) else Unmoved(p, r.value.0, x);
    }
  }
}
