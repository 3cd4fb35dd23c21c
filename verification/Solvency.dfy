/** Solvency: every call keeps every claim backed by tokens, and none of the contract's checked
    additions can overflow. One lemma per call, over what moving tokens and closing questions keep. */
module Solvency {
  import opened Base
  import opened Stakes
  import opened StakeTotals
  import opened Settlement
  import opened PendingIndex
  import opened Leaderboard
  import opened Ledger
  import opened Invariant

  // ---- moving tokens ------------------------------------------------------------------

  /** Tokens move without changing their supply. */
  ghost predicate Moved(contracts: set<Address>, me: Address, before: Balances, after: Balances) {
    SoundToken(after) && SumBy(after, Identity) == SumBy(before, Identity) && Shelters(contracts, me, before, after)
  }

  lemma TransferSound(tok: Balances, from: Address, to: Address, amount: int)
    requires SoundToken(tok)
    ensures var r := Transfer(tok, from, to, amount);
            && (r.Ok? <==> 0 <= amount <= Get(tok, from))
            && (r.Err? ==> r.error == Trap)
            && (r.Ok? ==>
                && SoundToken(r.value) && SumBy(r.value, Identity) == SumBy(tok, Identity)
                && (from != to ==> Get(r.value, from) == Get(tok, from) - amount)
                && (from != to ==> Get(r.value, to) == Get(tok, to) + amount)
                && (from == to ==> Get(r.value, to) == Get(tok, to))
                && forall a :: a != from && a != to ==> Get(r.value, a) == Get(tok, a))
  {
    TransferConserves(tok, from, to, amount);
    HeldBounded(tok, from);
    HeldBounded(tok, to);
  }

  lemma PullSound(w: World, from: Address, amount: int)
    requires SoundToken(w.tok) && w.esc.me in w.contracts && amount > 0
    ensures var r := Pull(w, from, amount);
            && (r.Err? ==> r.error == Trap)
            && (r.Ok? ==>
                && w.Signs(from) && r.value == w.(tok := r.value.tok)
                && Moved(w.contracts, w.esc.me, w.tok, r.value.tok)
                && r.value.Held() == w.Held() + amount <= I128_MAX)
  {
    TransferSound(w.tok, from, w.esc.me, amount);
    var r := Pull(w, from, amount);
    if r.Ok? {
      HeldBounded(r.value.tok, w.esc.me);
    }
  }

  /** Paying out what is held never fails; only a payment to the escrow itself leaves a surplus. */
  lemma PayoutSound(contracts: set<Address>, tok: Balances, me: Address, to: Address, amount: int)
    requires SoundToken(tok) && 0 <= amount <= Get(tok, me)
    ensures var r := Transfer(tok, me, to, amount);
            && r.Ok? && Moved(contracts, me, tok, r.value)
            && Get(r.value, me) == Get(tok, me) - (if to == me then 0 else amount)
  {
    TransferSound(tok, me, to, amount);
  }

  /** Neither payout address is the escrow itself. */
  predicate OutsidePayouts(me: Address, c: Config) {
    c.platform != me && (c.goods.Some? ==> c.goods.value.address != me)
  }

  lemma RouteSound(contracts: set<Address>, tok: Balances, me: Address, c: Config, take: int)
    requires SoundToken(tok) && SaneConfig(c) && 0 <= take <= Get(tok, me)
    ensures var r := RouteTake(tok, me, c, take);
            && r.Ok? && Moved(contracts, me, tok, r.value)
            && Get(tok, me) - take <= Get(r.value, me) <= Get(tok, me)
            && (OutsidePayouts(me, c) ==> Get(r.value, me) == Get(tok, me) - take)
  {
    if take > 0 && c.goods.Some? && c.goods.value.bps > 0 {
      var share := MulBps(take, c.goods.value.bps);
      MulBpsRange(take, c.goods.value.bps);
      PayoutSound(contracts, tok, me, c.goods.value.address, share);
      if share > 0 {
        PayoutSound(contracts, Transfer(tok, me, c.goods.value.address, share).value, me, c.platform, take - share);
      } else {
        PayoutSound(contracts, tok, me, c.platform, take);
      }
    } else if take > 0 {
      PayoutSound(contracts, tok, me, c.platform, take);
    }
  }

  /** Who gets the take: the public-goods address its floored share, the platform the rest; if they are one
      address, it gets all of it. */
  lemma RouteReaches(tok: Balances, me: Address, c: Config, take: int)
    requires OutsidePayouts(me, c) && SaneConfig(c) && take >= 0 && RouteTake(tok, me, c, take).Ok?
    ensures var after := RouteTake(tok, me, c, take).value;
            var share := if c.goods.Some? then take * c.goods.value.bps / BPS_DENOM else 0;
            if c.goods.Some? && c.goods.value.address == c.platform
            then Get(after, c.platform) == Get(tok, c.platform) + take
            else
              && Get(after, c.platform) == Get(tok, c.platform) + take - share
              && (c.goods.Some? ==> Get(after, c.goods.value.address) == Get(tok, c.goods.value.address) + share)
  {
    if c.goods.Some? {
      MulBpsIsFloor(take, c.goods.value.bps);
      MulBpsRange(take, c.goods.value.bps);
    }
  }

  // ---- questions ------------------------------------------------------------------------

  lemma QuestionUpdate(questions: map<QuestionId, Question>, id: QuestionId, q: Question)
    ensures SumBy(questions[id := q], LiveAmount)
            == SumBy(questions, LiveAmount) - (if id in questions then LiveAmount(questions[id]) else 0) + LiveAmount(q)
    ensures LiveIds(questions[id := q]) == if q.Live() then LiveIds(questions) + {id} else LiveIds(questions) - {id}
  {
    SumUpdate(questions, id, q, LiveAmount);
  }

  predicate HasTable(status: Status) {
    status == ResolvedPending || status == Disputed
  }

  lemma TablesUntouched(questions: map<QuestionId, Question>, resolutions: map<QuestionId, Resolution>,
                        escalated: map<QuestionId, Verdict>, bonds: map<QuestionId, Bond>, id: QuestionId, q: Question)
    requires Tables(questions, resolutions, escalated, bonds)
    requires id in questions ==> !HasTable(questions[id].status)
    requires !HasTable(q.status)
    ensures Tables(questions[id := q], resolutions, escalated, bonds)
  {
  }

  /** A new or refunded question becomes Pending. */
  lemma OpenedBooks(s: Store, id: QuestionId, q: Question, contracts: set<Address>)
    requires SoundStore(s, contracts)
    requires id in s.questions ==> s.questions[id].status == Refunded
    requires q.status == Pending && q.amount > 0 && q.payer !in contracts
    ensures var index := Add(s.index, id);
            && (index.Err? ==> index.error == Trap)
            && (index.Ok? ==>
                var s' := s.(questions := s.questions[id := q], index := index.value,
                             openCount := SatAdd(s.openCount, 1));
                SoundStore(s', contracts) && Claims(s') == Claims(s) + q.amount)
  {
    hide SumBy, Enumerates;
    assert id !in LiveIds(s.questions);
    AddEnumerates(s.index, LiveIds(s.questions), id);
    QuestionUpdate(s.questions, id, q);
    TablesUntouched(s.questions, s.resolutions, s.escalated, s.bonds, id, q);
  }

  /** A sound store, except that one question's side table has already been dropped. */
  ghost predicate SoundSansTables(s: Store, contracts: set<Address>) {
    && Books(s)
    && OutsidePayers(s.questions, contracts) && OutsideHolders(s.prepaid, s.stakes, contracts)
    && Enumerates(s.index, LiveIds(s.questions)) && s.openCount == s.index.count
    && SaneConfig(s.config) && s.me in contracts
  }

  /** A live question leaves the index for good. */
  lemma SettledBooks(s: Store, id: QuestionId, q: Question, status: Status, contracts: set<Address>)
    requires SoundSansTables(s, contracts)
    requires id in s.questions && q == s.questions[id] && q.Live()
    requires status == Resolved || status == Refunded || status == Migrated
    requires Tables(s.questions[id := q.(status := status)], s.resolutions, s.escalated, s.bonds)
    ensures var r := SettleQuestion(s, id, q, status);
            && r.Ok? && SoundStore(r.value, contracts) && Claims(r.value) == Claims(s) - q.amount
            && r.value == s.(questions := s.questions[id := q.(status := status)],
                             index := r.value.index, openCount := r.value.openCount)
  {
    hide SumBy, Enumerates, Remove;
    RemoveEnumerates(s.index, LiveIds(s.questions), id);
    QuestionUpdate(s.questions, id, q.(status := status));
  }

  lemma SubmitSafe(w: World, payer: Address, id: QuestionId, amount: int)
    requires Inv(w)
    ensures var r := Submit(w, payer, id, amount);
            r != Err(ArithmeticOverflow) && (r.Ok? ==> Advances(w, r.value, true))
  {
    if amount > 0 {
      PullSound(w, payer, amount);
      if id !in w.esc.questions && w.Signs(payer) {
        OpenedBooks(w.esc, id, Question(payer, amount, Pending, w.now, w.esc.config.timeout), w.contracts);
      }
    }
  }

  lemma ReopenSafe(w: World, payer: Address, id: QuestionId, amount: int)
    requires Inv(w)
    ensures var r := Reopen(w, payer, id, amount);
            r != Err(ArithmeticOverflow) && (r.Ok? ==> Advances(w, r.value, true))
  {
    hide SumBy;
    if amount > 0 {
      PullSound(w, payer, amount);
      if HasStatus(w.esc.questions, id, Refunded) && w.Signs(payer) {
        OpenedBooks(w.esc, id, Question(payer, amount, Pending, w.now, w.esc.questions[id].timeout), w.contracts);
      }
    }
  }

  lemma DepositSafe(w: World, payer: Address, amount: int)
    requires Inv(w)
    ensures var r := Deposit(w, payer, amount);
            r != Err(ArithmeticOverflow) && (r.Ok? ==> Advances(w, r.value, true))
  {
    hide SumBy;
    if amount > 0 {
      PullSound(w, payer, amount);
      ClaimsBounded(w.esc, payer);
      SumUpdate(w.esc.prepaid, payer, Get(w.esc.prepaid, payer) + amount, Identity);
    }
  }

  lemma WithdrawBalanceSafe(w: World, payer: Address, amount: int)
    requires Inv(w)
    ensures var r := WithdrawBalance(w, payer, amount);
            && r != Err(ArithmeticOverflow) && (r.Ok? ==> Advances(w, r.value, true))
            && (w.Signs(payer) && 0 < amount <= Get(w.esc.prepaid, payer) ==> r.Ok?)
  {
    hide SumBy;
    if 0 < amount <= Get(w.esc.prepaid, payer) {
      EveryClaimBacked(w, payer, 0);
      PayoutSound(w.contracts, w.tok, w.esc.me, payer, amount);
      SumUpdate(w.esc.prepaid, payer, Get(w.esc.prepaid, payer) - amount, Identity);
    }
  }

  lemma ChargeSafe(w: World, payer: Address, id: QuestionId, amount: int)
    requires Inv(w)
    ensures var r := Charge(w, payer, id, amount);
            r != Err(ArithmeticOverflow) && (r.Ok? ==> Advances(w, r.value, true))
  {
    hide SumBy, SoundStore, Claims, SoundToken;
    if 0 < amount <= Get(w.esc.prepaid, payer) && id !in w.esc.questions {
      var esc := w.esc.(prepaid := w.esc.prepaid[payer := Get(w.esc.prepaid, payer) - amount]);
      DrawnBooks(w.esc, w.contracts, payer, amount);
      OpenedBooks(esc, id, Question(payer, amount, Pending, w.now, esc.config.timeout), w.contracts);
    }
  }

  lemma DrawnBooks(s: Store, contracts: set<Address>, payer: Address, amount: int)
    requires SoundStore(s, contracts) && 0 < amount <= Get(s.prepaid, payer)
    ensures var s' := s.(prepaid := s.prepaid[payer := Get(s.prepaid, payer) - amount]);
            SoundStore(s', contracts) && Claims(s') == Claims(s) - amount && payer !in contracts
  {
    SumUpdate(s.prepaid, payer, Get(s.prepaid, payer) - amount, Identity);
    assert payer in s.prepaid;
  }

  lemma RefundSafe(w: World, id: QuestionId)
    requires Inv(w)
    ensures var r := DoRefund(w, id);
            && (r.Ok? <==> HasStatus(w.esc.questions, id, Pending))
            && (r.Ok? ==> Advances(w, r.value, true))
            && (r.Err? ==> r.error == QuestionNotFound || r.error == QuestionNotPending)
  {
    if HasStatus(w.esc.questions, id, Pending) {
      var q := w.esc.questions[id];
      EveryClaimBacked(w, 0, id);
      PayoutSound(w.contracts, w.tok, w.esc.me, q.payer, q.amount);
      TablesUntouched(w.esc.questions, w.esc.resolutions, w.esc.escalated, w.esc.bonds, id, q.(status := Refunded));
      SettledBooks(w.esc, id, q, Refunded, w.contracts);
    }
  }

  /** The permissionless refund works for every pending question past its own deadline, and no other. */
  predicate Refundable(w: World, id: QuestionId) {
    id in w.esc.questions && w.esc.questions[id].status == Pending && w.now >= w.esc.questions[id].Deadline()
  }

  lemma RefundTimeoutSafe(w: World, id: QuestionId)
    requires Inv(w)
    ensures var r := RefundTimeout(w, id);
            && (r.Ok? <==> Refundable(w, id))
            && (r.Ok? ==> Advances(w, r.value, true))
            && (r.Err? ==> r.error in {QuestionNotFound, QuestionNotPending, TooEarlyForTimeout})
  {
    RefundSafe(w, id);
  }

  lemma AdvancesTwice(w: World, u: World, v: World, exact: bool)
    requires Advances(w, u, exact) && Advances(u, v, exact)
    ensures Advances(w, v, exact)
  {
  }

  lemma AdvancesNowhere(w: World)
    requires Inv(w)
    ensures Advances(w, w, true)
  {
  }

  lemma {:induction false} SweepSafe(w: World, ids: seq<QuestionId>, k: nat)
    requires Inv(w) && k <= |ids|
    ensures Sweep(w, ids, k).Ok? && Advances(w, Sweep(w, ids, k).value.0, true)
  {
    hide RefundTimeout, Advances, Inv;
    if k == 0 {
      AdvancesNowhere(w);
    } else {
      SweepSafe(w, ids, k - 1);
      SweepStepSafe(w, Sweep(w, ids, k - 1).value.0, ids[k - 1]);
    }
  }

  lemma SweepStepSafe(w: World, u: World, id: QuestionId)
    requires Advances(w, u, true)
    ensures var r := RefundTimeout(u, id);
            r != Err(Trap) && Advances(w, if r.Ok? then r.value else u, true)
  {
    RefundTimeoutSafe(u, id);
    if RefundTimeout(u, id).Ok? {
      AdvancesTwice(w, u, RefundTimeout(u, id).value, true);
    }
  }

  // ---- settlement ------------------------------------------------------------------------

  /** No credited worker's u32 count is about to wrap. */
  predicate CountsFit(board: Board, workers: seq<Address>) {
    forall i :: 0 <= i < |workers| ==> CountOf(board, workers[i]) < U32_MAX
  }

  lemma RecordCounts(board: Board, a: Address)
    requires CountOf(board, a) < U32_MAX
    ensures Record(board, a).Ok?
    ensures forall x :: CountOf(Record(board, a).value, x) == CountOf(board, x) + if x == a then 1 else 0
  {
  }

  /** Distinct workers are counted once each. */
  lemma {:induction false} RecordOnce(board: Board, workers: seq<Address>, k: nat)
    requires k <= |workers| && NoDup(workers) && RecordAll(board, workers, k).Ok?
    ensures forall a :: CountOf(RecordAll(board, workers, k).value, a)
                        == CountOf(board, a) + if exists i :: 0 <= i < k && workers[i] == a then 1 else 0
  {
    if k > 0 {
      var before := RecordAll(board, workers, k - 1).value;
      RecordOnce(board, workers, k - 1);
      RecordCounts(before, workers[k - 1]);
      forall a ensures CountOf(RecordAll(board, workers, k).value, a)
                       == CountOf(board, a) + if exists i :: 0 <= i < k && workers[i] == a then 1 else 0
      {
        assert (exists i :: 0 <= i < k && workers[i] == a) <==>
               (exists i :: 0 <= i < k - 1 && workers[i] == a) || workers[k - 1] == a;
      }
    }
  }

  lemma {:induction false} RecordAllFits(board: Board, workers: seq<Address>, k: nat)
    requires k <= |workers| && NoDup(workers) && CountsFit(board, workers)
    ensures RecordAll(board, workers, k).Ok?
  {
    if k > 0 {
      RecordAllFits(board, workers, k - 1);
      RecordOnce(board, workers, k - 1);
      RecordCounts(RecordAll(board, workers, k - 1).value, workers[k - 1]);
    }
  }

  /** Crediting and recording worker by worker, or list by list, come to the same. */
  lemma {:induction false} TogetherIsApart(owed: map<Address, int>, board: Board, workers: seq<Address>, k: nat,
                                           credit: int)
    requires k <= |workers|
    ensures var together := CreditAndRecord(owed, board, workers, k, credit);
            var credited, recorded := CreditAll(owed, workers, k, credit), RecordAll(board, workers, k);
            && (together.Ok? <==> credited.Ok? && recorded.Ok?)
            && (together.Ok? ==> together.value == (credited.value, recorded.value))
            && (together.Err? && credited.Ok? ==> together.error == Trap)
            && (recorded.Err? ==> recorded.error == Trap)
  {
    if k > 0 {
      TogetherIsApart(owed, board, workers, k - 1, credit);
    }
  }

  /** One settlement's bill and credits fit, and move what is owed by exactly the platform's take. */
  lemma BillEffect(stakes: Bonds, owed: map<Address, int>, amount: nat, workers: seq<Address>, losers: seq<Address>,
                   f: Slasher)
    requires AllSound(stakes) && NonNegative(owed) && workers != [] && SoundSlasher(f)
    requires amount + SumBy(stakes, Slashable) + SumBy(owed, Identity) <= I128_MAX
    ensures var bill := MakeBill(stakes, amount, |workers|, losers, f);
            && bill.Ok? && 0 <= bill.value.platformTake <= amount + SumBy(stakes, Slashable)
            && AllSound(bill.value.slashes.stakes) && bill.value.slashes.stakes.Keys == stakes.Keys
            && var credited := CreditAll(owed, workers, |workers|, bill.value.workerCredit);
            && credited.Ok? && NonNegative(credited.value)
            && SumBy(bill.value.slashes.stakes, Slashable) + SumBy(credited.value, Identity)
               == SumBy(stakes, Slashable) + SumBy(owed, Identity) + amount - bill.value.platformTake
  {
    var n := |workers|;
    SumNonNegative(owed, Identity);
    BillFits(stakes, amount, n, losers, f);
    BillConserves(stakes, amount, n, losers, f);
    BillStakes(stakes, amount, n, losers, f);
    var bill := MakeBill(stakes, amount, n, losers, f).value;
    CreditEffect(stakes, owed, amount, workers, bill);
  }

  /** Paying the winners of any balanced bill. */
  lemma CreditEffect(stakes: Bonds, owed: map<Address, int>, amount: nat, workers: seq<Address>, bill: Bill)
    requires NonNegative(owed) && bill.platformTake >= 0 && bill.workerCredit >= 0
    requires bill.platformTake + bill.workerCredit * |workers| == amount + bill.slashes.tally.total
    requires SumBy(bill.slashes.stakes, Slashable) == SumBy(stakes, Slashable) - bill.slashes.tally.total >= 0
    requires amount + SumBy(stakes, Slashable) + SumBy(owed, Identity) <= I128_MAX
    ensures var credited := CreditAll(owed, workers, |workers|, bill.workerCredit);
            && credited.Ok? && NonNegative(credited.value)
            && SumBy(bill.slashes.stakes, Slashable) + SumBy(credited.value, Identity)
               == SumBy(stakes, Slashable) + SumBy(owed, Identity) + amount - bill.platformTake
  {
    CreditAllFits(owed, workers, |workers|, bill.workerCredit);
    CreditAllSum(owed, workers, |workers|, bill.workerCredit);
  }

  lemma BillStakes(stakes: Bonds, amount: nat, n: nat, losers: seq<Address>, f: Slasher)
    requires AllSound(stakes) && n > 0 && SoundSlasher(f)
    ensures var slashes := UncheckedBill(stakes, amount, n, losers, f).slashes;
            && AllSound(slashes.stakes) && slashes.stakes.Keys == stakes.Keys
            && SumBy(slashes.stakes, Slashable) == SumBy(stakes, Slashable) - slashes.tally.total
            && 0 <= slashes.tally.total <= SumBy(stakes, Slashable)
  {
    SlashTotalBounded(stakes, losers, f, n);
    DistributeSound(stakes, losers, |losers|, f, n);
  }

  /** The stored state between paying a settlement's bill and closing its question. */
  lemma BillSound(s: Store, q: Question, workers: seq<Address>, losers: seq<Address>, f: Slasher,
                  contracts: set<Address>)
    requires SoundSansTables(s, contracts) && Claims(s) <= I128_MAX && workers != [] && SoundSlasher(f)
    requires q.amount > 0 && q.amount <= SumBy(s.questions, LiveAmount)
    ensures var bill := MakeBill(s.stakes, q.amount, |workers|, losers, f);
            && bill.Ok? && 0 <= bill.value.platformTake <= Claims(s)
            && var credited := CreditAll(s.owed, workers, |workers|, bill.value.workerCredit);
            && credited.Ok?
            && var s' := s.(stakes := bill.value.slashes.stakes, owed := credited.value);
            && SoundSansTables(s', contracts)
            && Claims(s') == Claims(s) + q.amount - bill.value.platformTake
  {
    ClaimParts(s);
    BillEffect(s.stakes, s.owed, q.amount, workers, losers, f);
  }

  /** Paying the winners, recording them and closing the question leaves a sound store. */
  lemma SettledStore(s: Store, id: QuestionId, q: Question, workers: seq<Address>, losers: seq<Address>, f: Slasher,
                     contracts: set<Address>)
    requires SoundSansTables(s, contracts) && Claims(s) <= I128_MAX && SoundSlasher(f)
    requires id in s.questions && q == s.questions[id] && q.Live() && workers != []
    requires Tables(s.questions[id := q.(status := Resolved)], s.resolutions, s.escalated, s.bonds)
    ensures var bill := MakeBill(s.stakes, q.amount, |workers|, losers, f);
            && bill.Ok? && 0 <= bill.value.platformTake <= Claims(s)
            && var paid := CreditAndRecord(s.owed, s.board, workers, |workers|, bill.value.workerCredit);
            && (paid.Err? ==> paid.error == Trap && RecordAll(s.board, workers, |workers|).Err?)
            && (paid.Ok? ==>
                var r := SettleQuestion(
                  s.(stakes := bill.value.slashes.stakes, owed := paid.value.0, board := paid.value.1),
                  id, q, Resolved);
                && r.Ok? && SoundStore(r.value, contracts) && r.value.me == s.me
                && Claims(r.value) == Claims(s) - bill.value.platformTake)
  {
    ClaimParts(s);
    SumMember(s.questions, id, LiveAmount);
    BillSound(s, q, workers, losers, f, contracts);
    var bill := MakeBill(s.stakes, q.amount, |workers|, losers, f).value;
    TogetherIsApart(s.owed, s.board, workers, |workers|, bill.workerCredit);
    var paid := CreditAndRecord(s.owed, s.board, workers, |workers|, bill.workerCredit);
    if paid.Ok? {
      SettledBooks(s.(stakes := bill.slashes.stakes, owed := paid.value.0, board := paid.value.1), id, q, Resolved,
                   contracts);
    }
  }

  /** What a settlement that pays everyone does to the world. */
  lemma SettleTogetherIs(w: World, id: QuestionId, q: Question, workers: seq<Address>, losers: seq<Address>,
                         forfeited: int, f: Slasher, bill: Bill, tok: Balances)
    requires workers != [] && MakeBill(w.esc.stakes, q.amount, |workers|, losers, f) == Ok(bill)
    requires Fits(bill.platformTake + forfeited)
    requires RouteTake(w.tok, w.esc.me, w.esc.config, bill.platformTake + forfeited) == Ok(tok)
    ensures var paid := CreditAndRecord(w.esc.owed, w.esc.board, workers, |workers|, bill.workerCredit);
            SettleTogether(w, id, q, workers, losers, forfeited, f) ==
            if paid.Err? then Err(paid.error)
            else
              match SettleQuestion(w.esc.(stakes := bill.slashes.stakes, owed := paid.value.0, board := paid.value.1),
                                   id, q, Resolved)
              case Ok(esc) => Ok(w.(tok := tok, esc := esc))
              case Err(e) => Err(e)
  {
  }

  lemma Reassembled(w: World, v: World, take: int, forfeited: int)
    requires w.now <= U32_MAX && v.now == w.now && v.contracts == w.contracts && v.esc.me == w.esc.me
    requires SoundStore(v.esc, w.contracts) && SoundToken(v.tok)
    requires Claims(v.esc) == Claims(w.esc) - take
    requires v.Held() >= w.Held() - (take + forfeited) && Surplus(w) >= forfeited
    ensures Inv(v) && Surplus(v) >= Surplus(w) - forfeited
    ensures v.Held() == w.Held() - (take + forfeited) ==> Surplus(v) == Surplus(w) - forfeited
  {
  }

  /** Settling a live question whose side tables are already dropped. */
  lemma SettleTogetherSafe(w: World, id: QuestionId, q: Question, workers: seq<Address>, losers: seq<Address>,
                           forfeited: int, f: Slasher)
    requires SoundSlasher(f) && w.now <= U32_MAX && SoundToken(w.tok) && SoundSansTables(w.esc, w.contracts)
    requires forfeited >= 0 && Surplus(w) >= forfeited
    requires id in w.esc.questions && q == w.esc.questions[id] && q.Live() && workers != []
    requires Tables(w.esc.questions[id := q.(status := Resolved)], w.esc.resolutions, w.esc.escalated, w.esc.bonds)
    ensures var r := SettleTogether(w, id, q, workers, losers, forfeited, f);
            && (r.Err? ==> r.error == Trap && RecordAll(w.esc.board, workers, |workers|).Err?)
            && (r.Ok? ==>
                && Inv(r.value) && r.value.now == w.now
                && r.value.contracts == w.contracts && r.value.esc.me == w.esc.me
                && Moved(w.contracts, w.esc.me, w.tok, r.value.tok)
                && Surplus(r.value) >= Surplus(w) - forfeited
                && (OutsidePayouts(w.esc.me, w.esc.config) ==> Surplus(r.value) == Surplus(w) - forfeited))
  {
    hide MakeBill, CreditAndRecord, RecordAll, SumBy, SettleTogether;
    HeldBounded(w.tok, w.esc.me);
    SettledStore(w.esc, id, q, workers, losers, f, w.contracts);
    var bill := MakeBill(w.esc.stakes, q.amount, |workers|, losers, f).value;
    var take := bill.platformTake + forfeited;
    RouteSound(w.contracts, w.tok, w.esc.me, w.esc.config, take);
    var tok := RouteTake(w.tok, w.esc.me, w.esc.config, take).value;
    SettleTogetherIs(w, id, q, workers, losers, forfeited, f, bill, tok);
    var r := SettleTogether(w, id, q, workers, losers, forfeited, f);
    if r.Ok? {
      Reassembled(w, r.value, bill.platformTake, forfeited);
    }
  }

  /** The one-call settlement and the two-step one do the same to the same state: same success, same
      resulting world. They may only differ in which of several errors is reported. */
  lemma ApartIsTogether(w: World, id: QuestionId, q: Question, workers: seq<Address>, losers: seq<Address>, f: Slasher)
    requires workers != []
    ensures var together := SettleTogether(w, id, q, workers, losers, 0, f);
            var paid := SettleAsset(w, q.amount, workers, losers, f);
            var recorded := RecordAll(w.esc.board, workers, |workers|);
            && (together.Ok? ==> paid.Ok? && recorded.Ok?)
            && (paid.Ok? && recorded.Ok? ==>
                together == (match SettleQuestion(paid.value.esc.(board := recorded.value), id, q, Resolved)
                             case Ok(esc) => Ok(paid.value.(esc := esc)) case Err(e) => Err(e)))
            && (paid.Err? && recorded.Ok? ==> together.Err?)
  {
    var bill := MakeBill(w.esc.stakes, q.amount, |workers|, losers, f);
    if bill.Ok? {
      TogetherIsApart(w.esc.owed, w.esc.board, workers, |workers|, bill.value.workerCredit);
    }
  }

  lemma CheckListsMeans(c: Config, workers: seq<Address>, losers: seq<Address>, bounded: bool)
    ensures CheckLists(c, workers, losers, bounded).Ok? ==> Acceptable(workers, losers)
    ensures CheckLists(c, workers, losers, bounded) != Err(ArithmeticOverflow)
    ensures CheckLists(c, workers, losers, bounded) != Err(Trap)
  {
  }

  lemma ResolveSafe(w: World, id: QuestionId, workers: seq<Address>, losers: seq<Address>)
    requires Inv(w)
    ensures var r := Resolve(w, id, workers, losers);
            && r != Err(ArithmeticOverflow)
            && (r.Ok? ==> Advances(w, r.value, OutsidePayouts(w.esc.me, w.esc.config)))
  {
    hide SumBy, SettleTogether, MakeBill, CreditAll, RouteTake, RecordAll, SlasherAt;
    CheckListsMeans(w.esc.config, workers, losers, true);
    if CheckLists(w.esc.config, workers, losers, true).Ok? && HasStatus(w.esc.questions, id, Pending) {
      var q := w.esc.questions[id];
      var f := LoserSlash(q.amount, w.now);
      SlasherAtSound(SlashCap(q.amount), w.now);
      TablesUntouched(w.esc.questions, w.esc.resolutions, w.esc.escalated, w.esc.bonds, id, q.(status := Resolved));
      SettleTogetherSafe(w, id, q, workers, losers, 0, f);
      ApartIsTogether(w, id, q, workers, losers, f);
      LegSafe(w, id, q, workers, losers, f);
    }
  }

  /** The leg itself never fails on a backed question. */
  lemma LegSafe(w: World, id: QuestionId, q: Question, workers: seq<Address>, losers: seq<Address>, f: Slasher)
    requires Inv(w) && SoundSlasher(f) && workers != []
    requires id in w.esc.questions && q == w.esc.questions[id] && q.Live()
    ensures SettleAsset(w, q.amount, workers, losers, f).Ok?
    ensures RecordAll(w.esc.board, workers, |workers|) != Err(ArithmeticOverflow)
  {
    EveryClaimBacked(w, 0, id);
    ClaimParts(w.esc);
    SumMember(w.esc.questions, id, LiveAmount);
    BillSound(w.esc, q, workers, losers, f, w.contracts);
    var bill := MakeBill(w.esc.stakes, q.amount, |workers|, losers, f).value;
    TogetherIsApart(w.esc.owed, w.esc.board, workers, |workers|, bill.workerCredit);
    RouteSound(w.contracts, w.tok, w.esc.me, w.esc.config, bill.platformTake);
  }

  /** Marking a live question leaves every claim where it was. */
  lemma MarkedBooks(s: Store, id: QuestionId, status: Status)
    requires id in s.questions && s.questions[id].Live() && s.questions[id].(status := status).Live()
    ensures var marked := s.questions[id := s.questions[id].(status := status)];
            SumBy(marked, LiveAmount) == SumBy(s.questions, LiveAmount) && LiveIds(marked) == LiveIds(s.questions)
  {
    hide SumBy;
    QuestionUpdate(s.questions, id, s.questions[id].(status := status));
    assert LiveIds(s.questions) + {id} == LiveIds(s.questions);
  }

  lemma TablesEscalated(questions: map<QuestionId, Question>, resolutions: map<QuestionId, Resolution>,
                        escalated: map<QuestionId, Verdict>, bonds: map<QuestionId, Bond>, id: QuestionId,
                        verdict: Verdict)
    requires Tables(questions, resolutions, escalated, bonds) && HasStatus(questions, id, Pending)
    ensures Tables(questions[id := questions[id].(status := Disputed)], resolutions, escalated[id := verdict], bonds)
  {
  }

  lemma TablesChallengeable(questions: map<QuestionId, Question>, resolutions: map<QuestionId, Resolution>,
                            escalated: map<QuestionId, Verdict>, bonds: map<QuestionId, Bond>, id: QuestionId,
                            res: Resolution)
    requires Tables(questions, resolutions, escalated, bonds) && HasStatus(questions, id, Pending)
    requires Acceptable(res.workers, res.losers)
    ensures Tables(questions[id := questions[id].(status := ResolvedPending)], resolutions[id := res], escalated, bonds)
  {
  }

  lemma TablesFinalized(questions: map<QuestionId, Question>, resolutions: map<QuestionId, Resolution>,
                        escalated: map<QuestionId, Verdict>, bonds: map<QuestionId, Bond>, id: QuestionId)
    requires Tables(questions, resolutions, escalated, bonds) && HasStatus(questions, id, ResolvedPending)
    ensures Tables(questions[id := questions[id].(status := Resolved)], resolutions - {id}, escalated, bonds - {id})
  {
  }

  lemma EscalateSafe(w: World, id: QuestionId, workers: seq<Address>, losers: seq<Address>)
    requires Inv(w)
    ensures var r := Escalate(w, id, workers, losers);
            r != Err(ArithmeticOverflow) && (r.Ok? ==> Advances(w, r.value, true))
  {
    hide SumBy, Enumerates, CheckLists, LiveIds, Tables;
    CheckListsMeans(w.esc.config, workers, losers, false);
    if HasStatus(w.esc.questions, id, Pending) {
      TablesEscalated(w.esc.questions, w.esc.resolutions, w.esc.escalated, w.esc.bonds, id, Verdict(workers, losers));
      MarkedBooks(w.esc, id, Disputed);
    }
  }

  lemma ResolveChallengeableSafe(w: World, id: QuestionId, workers: seq<Address>, losers: seq<Address>, window: nat)
    requires Inv(w)
    ensures var r := ResolveChallengeable(w, id, workers, losers, window);
            r != Err(ArithmeticOverflow) && (r.Ok? ==> Advances(w, r.value, true))
  {
    hide SumBy, Enumerates, CheckLists, LiveIds, Tables;
    CheckListsMeans(w.esc.config, workers, losers, true);
    if CheckLists(w.esc.config, workers, losers, true).Ok? && HasStatus(w.esc.questions, id, Pending) {
      TablesChallengeable(w.esc.questions, w.esc.resolutions, w.esc.escalated, w.esc.bonds, id,
                          Resolution(workers, losers, SatAdd(w.now, window), false));
      MarkedBooks(w.esc, id, ResolvedPending);
    }
  }

  lemma EscalateResolveSafe(w: World, id: QuestionId, workers: seq<Address>, losers: seq<Address>)
    requires Inv(w)
    ensures var r := EscalateResolve(w, id, workers, losers);
            && r != Err(ArithmeticOverflow)
            && (r.Ok? ==> Advances(w, r.value, OutsidePayouts(w.esc.me, w.esc.config)))
  {
    hide SumBy, SettleTogether, SettleAsset, RecordAll, SlasherAt;
    CheckListsMeans(w.esc.config, workers, losers, true);
    if workers != [] && HasStatus(w.esc.questions, id, Disputed) {
      var q := w.esc.questions[id];
      var ready := w.(esc := w.esc.(escalated := w.esc.escalated - {id}));
      SlasherAtSound(SlashCap(q.amount), w.now);
      SettleTogetherSafe(ready, id, q, workers, losers, 0, LoserSlash(q.amount, w.now));
    }
  }

  lemma DropBond(bonds: map<QuestionId, Bond>, id: QuestionId)
    ensures SumBy(bonds - {id}, BondValue) == SumBy(bonds, BondValue) - if id in bonds then bonds[id].amount else 0
  {
    if id in bonds {
      SumRemove(bonds, id, BondValue);
    } else {
      assert bonds - {id} == bonds;
    }
  }

  /** When a resolution is ready to finalize: its window has passed and nobody flagged it. */
  predicate Finalizable(w: World, id: QuestionId) {
    id in w.esc.resolutions && w.now > w.esc.resolutions[id].deadline && !w.esc.resolutions[id].disputed
  }

  lemma FinalizeSafe(w: World, id: QuestionId)
    requires Inv(w)
    ensures var r := FinalizeResolve(w, id);
            && r != Err(ArithmeticOverflow)
            && (r.Ok? ==> Finalizable(w, id) && Advances(w, r.value, OutsidePayouts(w.esc.me, w.esc.config)))
            && (Finalizable(w, id) && r.Err? ==>
                var ws := w.esc.resolutions[id].workers; RecordAll(w.esc.board, ws, |ws|).Err?)
  {
    hide SumBy, SettleTogether, SettleAsset, RecordAll, SlasherAt;
    if Finalizable(w, id) {
      var q, res := w.esc.questions[id], w.esc.resolutions[id];
      var ready := w.(esc := w.esc.(resolutions := w.esc.resolutions - {id}, bonds := w.esc.bonds - {id}));
      DropBond(w.esc.bonds, id);
      assert q.status == ResolvedPending by { assert HasStatus(w.esc.questions, id, ResolvedPending); }
      TablesFinalized(w.esc.questions, w.esc.resolutions, w.esc.escalated, w.esc.bonds, id);
      SlasherAtSound(SlashCap(q.amount), w.now);
      SettleTogetherSafe(ready, id, q, res.workers, res.losers, BondAmount(w.esc, id), LoserSlash(q.amount, w.now));
    }
  }

  lemma PostBondSafe(w: World, challenger: Address, id: QuestionId, amount: int)
    requires Inv(w)
    ensures var r := PostChallengeBond(w, challenger, id, amount);
            r != Err(ArithmeticOverflow) && (r.Ok? ==> Advances(w, r.value, true))
  {
    hide SumBy;
    if amount > 0 {
      PullSound(w, challenger, amount);
      SumUpdate(w.esc.bonds, id, Bond(challenger, amount), BondValue);
    }
  }

  lemma DisputeSafe(w: World, id: QuestionId)
    requires Inv(w)
    ensures var r := DisputeResolve(w, id);
            r != Err(ArithmeticOverflow) && (r.Ok? ==> Advances(w, r.value, true))
  {
  }

  // ---- stakes and earnings ----------------------------------------------------------------

  lemma StakeBounded(s: Store, a: Address)
    requires Books(s)
    ensures Sound(StakeOf(s, a)) && 0 <= Slashable(StakeOf(s, a)) <= Claims(s)
    ensures Slashable(StakeOf(s, a)) == if a in s.stakes then Slashable(s.stakes[a]) else 0
  {
    ClaimParts(s);
    ClaimsBounded(s, a);
  }

  /** Storing a sound bond changes the claims by the change in that bond. */
  lemma StakeStored(s: Store, contracts: set<Address>, a: Address, info: StakeInfo)
    requires SoundStore(s, contracts) && Sound(info) && a !in contracts
    ensures var s' := s.(stakes := s.stakes[a := info]);
            SoundStore(s', contracts) && Claims(s') == Claims(s) - Slashable(StakeOf(s, a)) + Slashable(info)
  {
    hide StakeOf;
    StakeBounded(s, a);
    SumUpdate(s.stakes, a, info, Slashable);
  }

  lemma PostStakeSafe(w: World, worker: Address, amount: int)
    requires Inv(w)
    ensures var r := PostStake(w, worker, amount);
            r != Err(ArithmeticOverflow) && (r.Ok? ==> Advances(w, r.value, true))
  {
    hide StakeOf;
    if amount > 0 && w.Signs(worker) {
      var stored := StakeOf(w.esc, worker);
      PullSound(w, worker, amount);
      StakeBounded(w.esc, worker);
      MatureSound(stored, w.now);
      if TopUp(stored, amount, w.now).Ok? {
        TopUpSound(stored, amount, w.now);
        StakeStored(w.esc, w.contracts, worker, TopUp(stored, amount, w.now).value);
      }
    }
  }

  lemma BeginUnstakeSafe(w: World, worker: Address, amount: int)
    requires Inv(w)
    ensures var r := BeginUnstake(w, worker, amount);
            && r != Err(ArithmeticOverflow) && (r.Ok? ==> Advances(w, r.value, true))
            && (w.Signs(worker) && 0 < amount <= Active(StakeOf(w.esc, worker)) ==> r.Ok?)
  {
    hide StakeOf;
    var stored := StakeOf(w.esc, worker);
    EveryClaimBacked(w, worker, 0);
    StakeBounded(w.esc, worker);
    MatureSound(stored, w.now);
    var r := Unstake(stored, amount, w.now, w.esc.config.timeout);
    if w.Signs(worker) && r.Ok? {
      UnstakeSound(stored, amount, w.now, w.esc.config.timeout);
      StakeStored(w.esc, w.contracts, worker, r.value);
    }
  }

  predicate Releasable(w: World, worker: Address) {
    StakeOf(w.esc, worker).unbonding > 0 && w.now >= StakeOf(w.esc, worker).releaseAt
  }

  lemma CompleteUnstakeSafe(w: World, worker: Address)
    requires Inv(w)
    ensures var r := CompleteUnstake(w, worker);
            && r != Err(ArithmeticOverflow) && (r.Ok? ==> Advances(w, r.value, true))
            && (w.Signs(worker) && Releasable(w, worker) ==> r.Ok?)
  {
    hide StakeOf;
    var stored := StakeOf(w.esc, worker);
    EveryClaimBacked(w, worker, 0);
    StakeBounded(w.esc, worker);
    MatureSound(stored, w.now);
    var r := Release(stored, w.now);
    if w.Signs(worker) && r.Ok? {
      ReleaseSound(stored, w.now);
      MatureSound(r.value.0, w.now);
      StakeStored(w.esc, w.contracts, worker, r.value.0);
      PayoutSound(w.contracts, w.tok, w.esc.me, worker, r.value.1);
    }
  }

  lemma WithdrawSafe(w: World, worker: Address, recipient: Address, amount: int)
    requires Inv(w)
    ensures var r := Withdraw(w, worker, recipient, amount);
            && r != Err(ArithmeticOverflow) && (r.Ok? ==> Advances(w, r.value, recipient != w.esc.me))
            && (w.Signs(worker) && 0 < amount <= Get(w.esc.owed, worker) ==> r.Ok?)
  {
    if 0 < amount <= Get(w.esc.owed, worker) {
      EveryClaimBacked(w, worker, 0);
      PayoutSound(w.contracts, w.tok, w.esc.me, recipient, amount);
      SumUpdate(w.esc.owed, worker, Get(w.esc.owed, worker) - amount, Identity);
    }
  }
}
