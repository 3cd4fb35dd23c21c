/** Integer widths, the error type, and sums over finite maps. */
module Base {

  const I128_MAX: int := 0x7FFF_FFFF_FFFF_FFFF_FFFF_FFFF_FFFF_FFFF
  const U32_MAX: int := 0xFFFF_FFFF
  const BPS_DENOM: int := 10_000

  type Address = nat
  type QuestionId = nat

  /** The contract errors the modelled entry points return. `Trap` stands for every
      host abort: a failed signature, an underfunded token transfer, a panicking `+` or `unwrap`. */
  datatype Error =
    | InvalidAmount | QuestionAlreadyExists | QuestionNotFound | QuestionNotPending
    | NoWorkers | TooEarlyForTimeout | InvalidTimeout | InsufficientStake | NothingOwed
    | InvalidWorkerLists | InsufficientBalance | InsufficientOwed | NothingUnbonding
    | UnbondingNotElapsed | MigrationNotAuthorized | InvalidMigrationTarget
    | QuorumTooLarge | QuorumOutOfBounds | NoPendingResolution | DisputeWindowNotElapsed
    | QuestionDisputed | EmptyAnswerSet | DuplicateAnswerAddress | ArithmeticOverflow
    | QuestionNotRefunded | InvalidBalanceMigrationTarget | QuestionNotPendingForEscalation
    | QuestionNotDisputed | NoChallengeableResolution | InvalidBondAmount | BondAlreadyPosted
    | NoUnanimousConsensus | ContractPaused | InvalidPublicGoodsBps
    | Trap

  datatype Option<+T> = None | Some(value: T)

  datatype Result<+T> = Ok(value: T) | Err(error: Error) {
    predicate IsFailure() { Err? }

    function PropagateFailure<U>(): Result<U>
      requires Err?
    {
      Err(error)
    }

    function Extract(): T
      requires Ok?
    {
      value
    }

    /** The result with its payload dropped: what the caller of an entry point sees. */
    function Status(): Result<()> {
      if Ok? then Ok(()) else Err(error)
    }
  }

  /** An i128 can hold `x`. */
  predicate Fits(x: int) {
    -I128_MAX - 1 <= x <= I128_MAX
  }

  function Min(a: int, b: int): int {
    if a <= b then a else b
  }

  function Max(a: int, b: int): int {
    if a <= b then b else a
  }

  /** `u32::saturating_add`. */
  function SatAdd(a: nat, b: nat): nat {
    if a + b > U32_MAX then U32_MAX else a + b
  }

  /** Basis points without the overflowing product. */
  function MulBps(value: int, bps: int): int {
    (value / BPS_DENOM) * bps + (value % BPS_DENOM) * bps / BPS_DENOM
  }

  lemma MulBpsIsFloor(value: nat, bps: nat)
    ensures MulBps(value, bps) == value * bps / BPS_DENOM
  {
  }

  lemma DivAddMultiple(a: int, k: int, d: int)
    requires d > 0
    ensures (k * d + a) / d == k + a / d
  {
    var q, r := a / d, a % d;
    assert k * d + a == (k + q) * d + r;
    DivUnique(k * d + a, d, k + q, r);
  }

  /** Euclidean quotient and remainder are the only pair with a remainder in range. */
  lemma DivUnique(x: int, d: int, q: int, r: int)
    requires d > 0 && 0 <= r < d && x == q * d + r
    ensures x / d == q && x % d == r
  {
    var q', r' := x / d, x % d;
    assert (q' - q) * d == r - r' by {
      assert x == q' * d + r';
      MulDistributes(q', q, d);
    }
    SmallMultiple(q' - q, d);
    assert (q - q') * d == r' - r by { MulDistributes(q, q', d); }
    SmallMultiple(q - q', d);
  }

  lemma MulDistributes(a: int, b: int, d: int)
    ensures (a - b) * d == a * d - b * d
  {
  }

  lemma MulNonNegative(a: nat, b: nat)
    ensures a * b >= 0
  {
  }

  /** A multiple of `d` below `d` is not a positive one. */
  lemma SmallMultiple(k: int, d: int)
    requires d > 0
    ensures k * d < d ==> k <= 0
  {
  }

  lemma MulBpsRange(value: nat, bps: nat)
    requires bps <= BPS_DENOM
    ensures 0 <= MulBps(value, bps) <= value
  {
  }

  /** Every intermediate of `mul_bps` is at most the value itself or 10^8, whichever is larger. */
  lemma MulBpsIntermediates(value: nat, bps: nat)
    requires bps <= BPS_DENOM
    ensures 0 <= value / BPS_DENOM * bps <= Max(value, 100_000_000)
    ensures 0 <= value % BPS_DENOM * bps <= Max(value, 100_000_000)
    ensures 0 <= MulBps(value, bps) <= Max(value, 100_000_000)
  {
    MulBpsRange(value, bps);
    var q, r := value / BPS_DENOM, value % BPS_DENOM;
    assert 0 <= q * bps <= q * BPS_DENOM;
    assert 0 <= r * bps <= BPS_DENOM * BPS_DENOM by {
      assert r * bps <= r * BPS_DENOM;
    }
  }

  /** Rounding down each part never exceeds rounding down the whole, and loses at most one. */
  lemma FloorSuperadditive(a: nat, b: nat, d: nat)
    requires d > 0
    ensures a / d + b / d <= (a + b) / d <= a / d + b / d + 1
  {
    var s := a % d + b % d;
    assert a + b == (a / d + b / d) * d + s;
    DivAddMultiple(s, a / d + b / d, d);
    if s < d {
      DivUnique(s, d, 0, s);
    } else {
      DivUnique(s, d, 1, s - d);
    }
  }

  lemma FloorBounds(x: int, d: int)
    requires d > 0
    ensures x / d * d <= x < (x / d + 1) * d
  {
  }

  lemma DivMonotone(a: int, b: int, d: int)
    requires d > 0 && a <= b
    ensures a / d <= b / d
  {
    var qa, qb := a / d, b / d;
    assert a == qa * d + a % d && b == qb * d + b % d;
    MulDistributes(qa, qb, d);
    SmallMultiple(qa - qb, d);
  }

  // ---- finite maps as ledgers -------------------------------------------------

  /** A stored i128, or 0 when the key is absent. */
  function Get(m: map<Address, int>, a: Address): int {
    if a in m then m[a] else 0
  }

  ghost predicate NonNegative(m: map<Address, int>) {
    forall a :: a in m ==> m[a] >= 0
  }

  function Identity(x: int): int { x }

  ghost function Pick<K(!new), V>(m: map<K, V>): K
    requires m != map[]
    ensures Pick(m) in m
  {
    assert m.Keys != {};
    var k :| k in m.Keys;
    k
  }

  /** Sum of `f` over the values of a finite map. */
  ghost function SumBy<K(!new), V(!new)>(m: map<K, V>, f: V -> int): int
    decreases |m|
  {
    if m == map[] then 0 else var k := Pick(m); f(m[k]) + SumBy(m - {k}, f)
  }

  lemma {:induction false} SumRemove<K(!new), V(!new)>(m: map<K, V>, k: K, f: V -> int)
    requires k in m
    ensures SumBy(m, f) == f(m[k]) + SumBy(m - {k}, f)
    decreases |m|
  {
    var p := Pick(m);
    if p != k {
      SumRemove(m - {p}, k, f);
      SumRemove(m - {k}, p, f);
      assert m - {p} - {k} == m - {k} - {p};
    }
  }

  lemma SumUpdate<K(!new), V(!new)>(m: map<K, V>, k: K, v: V, f: V -> int)
    ensures SumBy(m[k := v], f) == SumBy(m, f) - (if k in m then f(m[k]) else 0) + f(v)
  {
    SumRemove(m[k := v], k, f);
    assert m[k := v] - {k} == m - {k};
    if k in m {
      SumRemove(m, k, f);
    } else {
      assert m - {k} == m;
    }
  }

  lemma {:induction false} SumNonNegative<K(!new), V(!new)>(m: map<K, V>, f: V -> int)
    requires forall k :: k in m ==> f(m[k]) >= 0
    ensures SumBy(m, f) >= 0
    decreases |m|
  {
    if m != map[] {
      SumNonNegative(m - {Pick(m)}, f);
    }
  }

  lemma SumMember<K(!new), V(!new)>(m: map<K, V>, k: K, f: V -> int)
    requires forall j :: j in m ==> f(m[j]) >= 0
    requires k in m
    ensures 0 <= f(m[k]) <= SumBy(m, f)
  {
    SumRemove(m, k, f);
    SumNonNegative(m - {k}, f);
  }

  lemma {:induction false} SumZero<K(!new), V(!new)>(m: map<K, V>, f: V -> int)
    requires forall k :: k in m ==> f(m[k]) == 0
    ensures SumBy(m, f) == 0
    decreases |m|
  {
    if m != map[] {
      SumZero(m - {Pick(m)}, f);
    }
  }

  // ---- the token contract ------------------------------------------------------

  type Balances = map<Address, int>

  /** A transfer that fails on insufficient funds and otherwise moves exactly `amount`. */
  function Transfer(tok: Balances, from: Address, to: Address, amount: int): Result<Balances> {
    if amount < 0 || Get(tok, from) < amount then Err(Trap)
    else
      var debited := tok[from := Get(tok, from) - amount];
      Ok(debited[to := Get(debited, to) + amount])
  }

  lemma TransferConserves(tok: Balances, from: Address, to: Address, amount: int)
    ensures var r := Transfer(tok, from, to, amount);
            && (r.Ok? <==> 0 <= amount <= Get(tok, from))
            && (r.Ok? ==>
                && SumBy(r.value, Identity) == SumBy(tok, Identity)
                && (from != to ==> Get(r.value, from) == Get(tok, from) - amount)
                && (from != to ==> Get(r.value, to) == Get(tok, to) + amount)
                && (from == to ==> Get(r.value, to) == Get(tok, to))
                && forall a :: a != from && a != to ==> Get(r.value, a) == Get(tok, a))
  {
    if 0 <= amount <= Get(tok, from) {
      var debited := tok[from := Get(tok, from) - amount];
      SumUpdate(tok, from, Get(tok, from) - amount, Identity);
      SumUpdate(debited, to, Get(debited, to) + amount, Identity);
    }
  }

  /** Pairwise distinct entries. */
  predicate NoDup<T(==)>(s: seq<T>) {
    forall i, j :: 0 <= i < j < |s| ==> s[i] != s[j]
  }
}
