/** What every reachable state of the escrow satisfies. */
module Invariant {
  import opened Base
  import opened Stakes
  import opened StakeTotals
  import opened Settlement
  import opened PendingIndex
  import opened Ledger

  // ---- money -----------------------------------------------------------------------

  function LiveAmount(q: Question): int {
    if q.Live() then q.amount else 0
  }

  function BondValue(b: Bond): int { b.amount }

  /** Everything the contract owes: live questions, prepaid and owed balances, stakes and bonds. */
  ghost function Claims(s: Store): int {
    SumBy(s.questions, LiveAmount) + SumBy(s.prepaid, Identity) + SumBy(s.stakes, Slashable)
    + SumBy(s.owed, Identity) + SumBy(s.bonds, BondValue)
  }

  /** Tokens held beyond what is owed. */
  ghost function Surplus(w: World): int {
    w.Held() - Claims(w.esc)
  }

  /** The token never creates money, and all of it fits an i128. */
  ghost predicate SoundToken(tok: Balances) {
    NonNegative(tok) && SumBy(tok, Identity) <= I128_MAX
  }

  ghost predicate PositiveAmounts(questions: map<QuestionId, Question>, bonds: map<QuestionId, Bond>) {
    && (forall id :: id in questions ==> questions[id].amount > 0)
    && (forall id :: id in bonds ==> bonds[id].amount > 0)
  }

  ghost predicate Books(s: Store) {
    && NonNegative(s.prepaid) && NonNegative(s.owed) && AllSound(s.stakes)
    && PositiveAmounts(s.questions, s.bonds)
  }

  // ---- lifecycle ---------------------------------------------------------------------

  ghost function LiveIds(questions: map<QuestionId, Question>): set<QuestionId> {
    set id | id in questions && questions[id].Live()
  }

  ghost predicate HasStatus(questions: map<QuestionId, Question>, id: QuestionId, status: Status) {
    id in questions && questions[id].status == status
  }

  /** Side tables exist exactly while their question is in the matching status. */
  ghost predicate Tables(questions: map<QuestionId, Question>, resolutions: map<QuestionId, Resolution>,
                         escalated: map<QuestionId, Verdict>, bonds: map<QuestionId, Bond>) {
    && (forall id :: id in resolutions <==> HasStatus(questions, id, ResolvedPending))
    && (forall id :: id in escalated <==> HasStatus(questions, id, Disputed))
    && (forall id :: id in bonds ==> id in resolutions)
    && (forall id :: id in resolutions ==> Acceptable(resolutions[id].workers, resolutions[id].losers))
  }

  /** No payer is a contract, so no refund is a payment to the escrow itself. */
  ghost predicate OutsidePayers(questions: map<QuestionId, Question>, contracts: set<Address>) {
    forall id :: id in questions ==> questions[id].payer !in contracts
  }

  /** Nor does a contract hold a prepaid balance or a stake. */
  ghost predicate OutsideHolders(prepaid: map<Address, int>, stakes: Bonds, contracts: set<Address>) {
    (forall a :: a in prepaid ==> a !in contracts) && (forall a :: a in stakes ==> a !in contracts)
  }

  ghost predicate SaneConfig(c: Config) {
    && 0 < c.timeout <= MAX_TIMEOUT_LEDGERS
    && (c.goods.Some? ==> c.goods.value.bps <= BPS_DENOM)
  }

  /** The storage of one instance, on its own. */
  ghost predicate SoundStore(s: Store, contracts: set<Address>) {
    && Books(s)
    && Tables(s.questions, s.resolutions, s.escalated, s.bonds)
    && OutsidePayers(s.questions, contracts) && OutsideHolders(s.prepaid, s.stakes, contracts)
    && Enumerates(s.index, LiveIds(s.questions)) && s.openCount == s.index.count
    && SaneConfig(s.config) && s.me in contracts
  }

  ghost predicate Inv(w: World) {
    && w.now <= U32_MAX
    && SoundToken(w.tok)
    && SoundStore(w.esc, w.contracts)
    && Surplus(w) >= 0
  }

  // ---- steps ---------------------------------------------------------------------------

  /** Tokens of other contracts are never spent by this one. */
  ghost predicate Shelters(contracts: set<Address>, me: Address, before: Balances, after: Balances) {
    forall x :: x in contracts && x != me ==> Get(after, x) >= Get(before, x)
  }

  /** One step from `w` to `v`: the invariant holds again and no claim lost its backing. When no
      token reached the escrow from outside its books, the surplus is exactly what it was. */
  ghost predicate Advances(w: World, v: World, exact: bool) {
    && Inv(v) && v.contracts == w.contracts && v.esc.me == w.esc.me
    && Surplus(v) >= Surplus(w) && (exact ==> Surplus(v) == Surplus(w))
    && SumBy(v.tok, Identity) == SumBy(w.tok, Identity)
    && Shelters(w.contracts, w.esc.me, w.tok, v.tok)
  }

  // ---- consequences ----------------------------------------------------------------------

  lemma SlashableNonNegative(stakes: Bonds)
    requires AllSound(stakes)
    ensures forall x :: x in stakes ==> Slashable(stakes[x]) >= 0
  {
    forall x | x in stakes ensures Slashable(stakes[x]) >= 0 {
      MatureSound(stakes[x], 0);
    }
  }

  lemma ClaimParts(s: Store)
    requires Books(s)
    ensures SumBy(s.questions, LiveAmount) >= 0 && SumBy(s.prepaid, Identity) >= 0
    ensures SumBy(s.stakes, Slashable) >= 0 && SumBy(s.owed, Identity) >= 0 && SumBy(s.bonds, BondValue) >= 0
  {
    SumNonNegative(s.questions, LiveAmount);
    SumNonNegative(s.prepaid, Identity);
    SlashableNonNegative(s.stakes);
    SumNonNegative(s.stakes, Slashable);
    SumNonNegative(s.owed, Identity);
    SumNonNegative(s.bonds, BondValue);
  }

  lemma HeldBounded(tok: Balances, a: Address)
    requires SoundToken(tok)
    ensures 0 <= Get(tok, a) <= SumBy(tok, Identity) <= I128_MAX
  {
    SumNonNegative(tok, Identity);
    if a in tok {
      SumMember(tok, a, Identity);
    }
  }

  lemma ClaimsBounded(s: Store, a: Address)
    requires Books(s)
    ensures 0 <= Get(s.prepaid, a) <= Claims(s)
    ensures 0 <= Get(s.owed, a) <= Claims(s)
    ensures a in s.stakes ==> 0 <= Slashable(s.stakes[a]) <= Claims(s)
  {
    ClaimParts(s);
    SlashableNonNegative(s.stakes);
    if a in s.prepaid { SumMember(s.prepaid, a, Identity); }
    if a in s.owed { SumMember(s.owed, a, Identity); }
    if a in s.stakes { SumMember(s.stakes, a, Slashable); }
  }

  lemma QuestionBounded(s: Store, id: QuestionId)
    requires Books(s)
    ensures id in s.questions && s.questions[id].Live() ==> 0 < s.questions[id].amount <= Claims(s)
    ensures id in s.bonds ==> 0 < s.bonds[id].amount <= Claims(s)
  {
    ClaimParts(s);
    if id in s.questions { SumMember(s.questions, id, LiveAmount); }
    if id in s.bonds { SumMember(s.bonds, id, BondValue); }
  }

  /** Every single claim is backed by tokens the escrow holds, and so fits an i128. */
  lemma EveryClaimBacked(w: World, a: Address, id: QuestionId)
    requires Inv(w)
    ensures 0 <= Get(w.esc.prepaid, a) <= w.Held()
    ensures 0 <= Get(w.esc.owed, a) <= w.Held()
    ensures a in w.esc.stakes ==> 0 <= Slashable(w.esc.stakes[a]) <= w.Held()
    ensures id in w.esc.questions && w.esc.questions[id].Live() ==> 0 < w.esc.questions[id].amount <= w.Held()
    ensures id in w.esc.bonds ==> 0 < w.esc.bonds[id].amount <= w.Held()
    ensures 0 <= Claims(w.esc) <= w.Held() <= I128_MAX
  {
    ClaimsBounded(w.esc, a);
    QuestionBounded(w.esc, id);
    HeldBounded(w.tok, w.esc.me);
  }
}
