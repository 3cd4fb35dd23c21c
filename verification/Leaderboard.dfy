/** The bounded on-chain leaderboard, and why it is the exact top of an unbounded ranking. */
module Leaderboard {
  import opened Base

  const LEADERBOARD_CAP: nat := 20

  datatype Entry = Entry(worker: Address, count: nat)

  /** The stored entries, best first. */
  datatype Rows = Foot | Row(top: Entry, below: Rows)

  /** ResolvedCount per worker and the leaderboard. */
  datatype Board = Board(counts: map<Address, nat>, rows: Rows)

  const EMPTY_BOARD: Board := Board(map[], Foot)

  function CountOf(board: Board, w: Address): nat {
    if w in board.counts then board.counts[w] else 0
  }

  function Size(rows: Rows): nat {
    match rows case Foot => 0 case Row(_, below) => Size(below) + 1
  }

  predicate Listed(rows: Rows, w: Address) {
    rows.Row? && (rows.top.worker == w || Listed(rows.below, w))
  }

  /** Removes the first entry of `w`. */
  function Strike(rows: Rows, w: Address): Rows {
    match rows
    case Foot => Foot
    case Row(top, below) => if top.worker == w then below else Row(top, Strike(below, w))
  }

  /** Inserts just before the first entry with a strictly smaller count. */
  function Enter(rows: Rows, e: Entry): Rows {
    match rows
    case Foot => Row(e, Foot)
    case Row(top, below) => if top.count < e.count then Row(e, rows) else Row(top, Enter(below, e))
  }

  function DropLast(rows: Rows): Rows
    requires rows.Row?
  {
    if rows.below.Foot? then Foot else Row(rows.top, DropLast(rows.below))
  }

  function Reranked(rows: Rows, e: Entry): Rows {
    var entered := Enter(Strike(rows, e.worker), e);
    if Size(entered) > LEADERBOARD_CAP then DropLast(entered) else entered
  }

  /** One credited resolution; the stored u32 count traps when it would wrap. */
  function Record(board: Board, w: Address): Result<Board> {
    var count := CountOf(board, w) + 1;
    if count > U32_MAX then Err(Trap)
    else Ok(Board(board.counts[w := count], Reranked(board.rows, Entry(w, count))))
  }

  /** Credits to the first `k` of `workers`, in order. */
  function RecordAll(board: Board, workers: seq<Address>, k: nat): Result<Board>
    requires k <= |workers|
  {
    if k == 0 then Ok(board)
    else
      var before :- RecordAll(board, workers, k - 1);
      Record(before, workers[k - 1])
  }

  // ---- the ideal ranking -----------------------------------------------------------

  /** Every credit ever recorded, newest outermost. */
  datatype History = Nobody | Credit(earlier: History, worker: Address)

  function Length(h: History): nat {
    match h case Nobody => 0 case Credit(earlier, _) => Length(earlier) + 1
  }

  function Times(h: History, w: Address): nat {
    match h case Nobody => 0
    case Credit(earlier, x) => Times(earlier, w) + if x == w then 1 else 0
  }

  /** When `w` reached its present count. */
  function ReachedAt(h: History, w: Address): nat {
    match h case Nobody => 0
    case Credit(earlier, x) => if x == w then Length(h) else ReachedAt(earlier, w)
  }

  /** More credits first; among equals, whoever got there first. */
  predicate Before(h: History, a: Address, b: Address) {
    Times(h, a) > Times(h, b) || (Times(h, a) == Times(h, b) && ReachedAt(h, a) < ReachedAt(h, b))
  }

  /** Every listed count is the true one and each row ranks before the next. */
  predicate Ranked(h: History, rows: Rows) {
    rows.Row? ==>
      && rows.top.count == Times(h, rows.top.worker) > 0
      && (rows.below.Row? ==> Before(h, rows.top.worker, rows.below.top.worker))
      && Ranked(h, rows.below)
  }

  /** `x` ranks after every listed worker. */
  predicate LosesToAll(h: History, rows: Rows, x: Address) {
    rows.Row? ==> Before(h, rows.top.worker, x) && LosesToAll(h, rows.below, x)
  }

  /** A credited worker is listed, or the board is full and everyone on it ranks above. */
  ghost predicate Placed(h: History, rows: Rows, x: Address) {
    Times(h, x) > 0 ==>
      Listed(rows, x) || (Size(rows) == 20 && LosesToAll(h, rows, x))
  }

  ghost predicate ExactTop(h: History, board: Board) {
    && (forall w :: CountOf(board, w) == Times(h, w))
    && Ranked(h, board.rows)
    && Size(board.rows) <= 20
    && (forall x :: Placed(h, board.rows, x))
  }

  // ---- ranking lemmas -----------------------------------------------------------------

  lemma {:induction false} ReachedWithin(h: History, w: Address)
    ensures ReachedAt(h, w) <= Length(h)
  {
    if h.Credit? {
      ReachedWithin(h.earlier, w);
    }
  }

  /** The new count puts the credited worker after everyone with as many and before everyone with fewer. */
  lemma WinnerAgainst(h: History, w: Address, a: Address)
    requires a != w
    ensures if Times(h, a) >= Times(h, w) + 1 then Before(Credit(h, w), a, w) else Before(Credit(h, w), w, a)
  {
    ReachedWithin(h, a);
  }

  /** A ranking lists nobody twice. */
  lemma {:induction false} RankedTopWins(h: History, rows: Rows, a: Address)
    requires Ranked(h, rows)
    requires rows.Row? ==> Before(h, a, rows.top.worker)
    ensures !Listed(rows, a)
  {
    if rows.Row? {
      RankedTopWins(h, rows.below, a);
    }
  }

  lemma {:induction false} StrikeRanked(h: History, rows: Rows, w: Address)
    requires Ranked(h, rows)
    ensures var rest := Strike(rows, w);
            && Ranked(h, rest) && !Listed(rest, w)
            && Size(rest) == Size(rows) - (if Listed(rows, w) then 1 else 0)
            && (rows.Row? && rest.Row? ==> rest.top == rows.top || Before(h, rows.top.worker, rest.top.worker))
            && (!Listed(rows, w) ==> rest == rows)
  {
    if rows.Row? {
      StrikeRanked(h, rows.below, w);
      if rows.top.worker == w {
        RankedTopWins(h, rows.below, w);
      }
    }
  }

  lemma {:induction false} StrikeOthers(h: History, rows: Rows, w: Address, x: Address)
    ensures x != w ==> (Listed(Strike(rows, w), x) <==> Listed(rows, x))
    ensures LosesToAll(h, rows, x) ==> LosesToAll(h, Strike(rows, w), x)
  {
    if rows.Row? {
      StrikeOthers(h, rows.below, w, x);
    }
  }

  lemma {:induction false} EnterRanked(h: History, rest: Rows, w: Address)
    requires Ranked(h, rest) && !Listed(rest, w)
    ensures Ranked(Credit(h, w), Enter(rest, Entry(w, Times(h, w) + 1)))
    ensures Ranked(Credit(h, w), rest)
    ensures Size(Enter(rest, Entry(w, Times(h, w) + 1))) == Size(rest) + 1
  {
    if rest.Row? {
      EnterRanked(h, rest.below, w);
      WinnerAgainst(h, w, rest.top.worker);
    }
  }

  lemma {:induction false} EnterListed(rest: Rows, e: Entry, x: Address)
    ensures Listed(Enter(rest, e), x) <==> x == e.worker || Listed(rest, x)
  {
    if rest.Row? {
      EnterListed(rest.below, e, x);
    }
  }

  lemma {:induction false} EnterLoses(h: History, rest: Rows, w: Address, x: Address)
    requires LosesToAll(h, rest, x) && !Listed(rest, w) && x != w
    ensures LosesToAll(Credit(h, w), rest, x)
    ensures Before(Credit(h, w), w, x) ==> LosesToAll(Credit(h, w), Enter(rest, Entry(w, Times(h, w) + 1)), x)
  {
    if rest.Row? {
      EnterLoses(h, rest.below, w, x);
    }
  }

  lemma {:induction false} ListedWins(h: History, rows: Rows, a: Address, x: Address)
    requires LosesToAll(h, rows, x) && Listed(rows, a)
    ensures Before(h, a, x)
  {
    if rows.top.worker != a {
      ListedWins(h, rows.below, a, x);
    }
  }

  function Last(rows: Rows): Entry
    requires rows.Row?
  {
    if rows.below.Foot? then rows.top else Last(rows.below)
  }

  lemma {:induction false} DropLastRanked(h: History, rows: Rows)
    requires rows.Row? && Ranked(h, rows)
    ensures var kept, foot := DropLast(rows), Last(rows).worker;
            && Ranked(h, kept) && Size(kept) == Size(rows) - 1 && LosesToAll(h, kept, foot)
            && (kept.Row? ==> kept.top == rows.top)
  {
    if rows.below.Row? {
      DropLastRanked(h, rows.below);
      LosesThrough(h, rows.below, Last(rows.below).worker, rows.top.worker);
    }
  }

  /** Whoever ranks before the top of a ranking ranks before its last. */
  lemma {:induction false} LosesThrough(h: History, rows: Rows, foot: Address, a: Address)
    requires rows.Row? && Ranked(h, rows) && foot == Last(rows).worker
    requires Before(h, a, rows.top.worker)
    ensures Before(h, a, foot)
  {
    if rows.below.Row? {
      LosesThrough(h, rows.below, foot, a);
    }
  }

  lemma {:induction false} DropLastListed(rows: Rows, x: Address)
    requires rows.Row?
    ensures Listed(rows, x) <==> Listed(DropLast(rows), x) || x == Last(rows).worker
  {
    if rows.below.Row? {
      DropLastListed(rows.below, x);
    }
  }

  lemma {:induction false} LosesTransitively(h: History, rows: Rows, a: Address, x: Address)
    requires LosesToAll(h, rows, a) && Before(h, a, x)
    ensures LosesToAll(h, rows, x)
  {
    if rows.Row? {
      LosesTransitively(h, rows.below, a, x);
    }
  }

  lemma {:induction false} EnteredLast(rows: Rows, e: Entry)
    requires !Listed(rows, e.worker) && Last(Enter(rows, e)).worker == e.worker
    ensures DropLast(Enter(rows, e)) == rows
  {
    if rows.Row? {
      if rows.top.count < e.count {
        LastListed(rows);
      } else {
        EnteredLast(rows.below, e);
      }
    }
  }

  lemma {:induction false} LastListed(rows: Rows)
    requires rows.Row?
    ensures Listed(rows, Last(rows).worker)
  {
    if rows.below.Row? {
      LastListed(rows.below);
    }
  }

  // ---- one credit ------------------------------------------------------------------------

  /** If the board had room, or the credited worker was on it, nobody falls off. */
  lemma PlacedUntrimmed(h: History, rows: Rows, w: Address, x: Address)
    requires Ranked(h, rows) && Placed(h, rows, x)
    requires Listed(rows, w) || Size(rows) < LEADERBOARD_CAP
    ensures Placed(Credit(h, w), Enter(Strike(rows, w), Entry(w, Times(h, w) + 1)), x)
  {
    var rest, e := Strike(rows, w), Entry(w, Times(h, w) + 1);
    StrikeRanked(h, rows, w);
    StrikeOthers(h, rows, w, x);
    EnterRanked(h, rest, w);
    EnterListed(rest, e, x);
    if Times(h, x) > 0 && x != w && !Listed(rows, x) {
      ListedWins(h, rows, w, x);
      EnterLoses(h, rest, w, x);
    }
  }

  /** On a full board the row that falls off, and everyone already off, rank below all that stay. */
  lemma PlacedTrimmed(h: History, rows: Rows, w: Address, x: Address)
    requires Ranked(h, rows) && Placed(h, rows, x)
    requires !Listed(rows, w) && Size(rows) == LEADERBOARD_CAP
    ensures Placed(Credit(h, w), DropLast(Enter(rows, Entry(w, Times(h, w) + 1))), x)
  {
    var h', e := Credit(h, w), Entry(w, Times(h, w) + 1);
    var entered := Enter(rows, e);
    var foot := Last(entered).worker;
    EnterRanked(h, rows, w);
    EnterListed(rows, e, x);
    EnterListed(rows, e, foot);
    LastListed(entered);
    DropLastRanked(h', entered);
    DropLastListed(entered, x);
    if Times(h', x) > 0 && !Listed(entered, x) {
      EnterLoses(h, rows, w, x);
      if foot == w {
        EnteredLast(rows, e);
      } else {
        ListedWins(h, rows, foot, x);
        LosesTransitively(h', DropLast(entered), foot, x);
      }
    }
  }

  lemma RerankedExact(h: History, rows: Rows, w: Address, x: Address)
    requires Ranked(h, rows) && Size(rows) <= LEADERBOARD_CAP && Placed(h, rows, x)
    ensures var top := Reranked(rows, Entry(w, Times(h, w) + 1));
            Ranked(Credit(h, w), top) && Size(top) <= LEADERBOARD_CAP && Placed(Credit(h, w), top, x)
  {
    StrikeRanked(h, rows, w);
    EnterRanked(h, Strike(rows, w), w);
    if Listed(rows, w) || Size(rows) < LEADERBOARD_CAP {
      PlacedUntrimmed(h, rows, w, x);
    } else {
      PlacedTrimmed(h, rows, w, x);
      DropLastRanked(Credit(h, w), Enter(rows, Entry(w, Times(h, w) + 1)));
    }
  }

  // ---- whole runs ------------------------------------------------------------------

  /** The board after every credit of a history, from an empty contract. */
  function BoardAfter(h: History): Result<Board> {
    match h
    case Nobody => Ok(EMPTY_BOARD)
    case Credit(earlier, w) =>
      var board :- BoardAfter(earlier);
      Record(board, w)
  }

  /** In every run the stored board is the exact top twenty of everyone ever credited,
      although dropped workers are never looked at again. */
  lemma {:induction false} BoardIsExactTop(h: History, board: Board)
    requires BoardAfter(h) == Ok(board)
    ensures ExactTop(h, board)
  {
    if h.Credit? {
      var before := BoardAfter(h.earlier).value;
      BoardIsExactTop(h.earlier, before);
      assert CountOf(before, h.worker) == Times(h.earlier, h.worker);
      RerankedExact(h.earlier, before.rows, h.worker, h.worker);
      forall x ensures Placed(h, board.rows, x) {
        RerankedExact(h.earlier, before.rows, h.worker, x);
      }
    }
  }

  /** The history after the first `k` credits of `workers`. */
  function WithCredits(h: History, workers: seq<Address>, k: nat): History
    requires k <= |workers|
  {
    if k == 0 then h else Credit(WithCredits(h, workers, k - 1), workers[k - 1])
  }

  /** A settlement's credits extend the history. */
  lemma {:induction false} RecordAllExtends(h: History, board: Board, workers: seq<Address>, k: nat)
    requires k <= |workers| && BoardAfter(h) == Ok(board)
    ensures BoardAfter(WithCredits(h, workers, k)) == RecordAll(board, workers, k)
  {
    if k > 0 {
      RecordAllExtends(h, board, workers, k - 1);
    }
  }

  // ---- the stored board, edited in place ----------------------------------------------

  /** The entries of a vector from slot `i` on. */
  function RowsOf(es: seq<Entry>, i: nat): Rows
    requires i <= |es|
    decreases |es| - i
  {
    if i == |es| then Foot else Row(es[i], RowsOf(es, i + 1))
  }

  lemma {:induction false} RowsSame(s: seq<Entry>, i: nat, t: seq<Entry>, j: nat)
    requires i <= |s| && j <= |t| && |s| - i == |t| - j
    requires forall m :: i <= m < |s| ==> s[m] == t[m - i + j]
    ensures RowsOf(s, i) == RowsOf(t, j) && Size(RowsOf(s, i)) == |s| - i
    decreases |s| - i
  {
    if i < |s| {
      RowsSame(s, i + 1, t, j + 1);
    }
  }

  /** `Vec::remove`. */
  lemma {:induction false} RowsWithout(s: seq<Entry>, k: nat, t: seq<Entry>, i: nat)
    requires i <= k < |s| && t == s[..k] + s[k + 1..]
    requires forall j :: i <= j < k ==> s[j].worker != s[k].worker
    ensures RowsOf(t, i) == Strike(RowsOf(s, i), s[k].worker)
    decreases k - i
  {
    if i == k {
      RowsSame(t, k, s, k + 1);
    } else {
      RowsWithout(s, k, t, i + 1);
    }
  }

  /** `Vec::insert`. */
  lemma {:induction false} RowsWith(s: seq<Entry>, p: nat, e: Entry, t: seq<Entry>, i: nat)
    requires i <= p <= |s| && (forall j :: i <= j < p ==> s[j].count >= e.count)
    requires p < |s| ==> s[p].count < e.count
    requires t == s[..p] + [e] + s[p..]
    ensures RowsOf(t, i) == Enter(RowsOf(s, i), e)
    decreases p - i
  {
    if i == p {
      RowsSame(t, p + 1, s, p);
    } else {
      RowsWith(s, p, e, t, i + 1);
    }
  }

  lemma {:induction false} RowsDropLast(s: seq<Entry>, i: nat)
    requires i < |s|
    ensures RowsOf(s[..|s| - 1], i) == DropLast(RowsOf(s, i))
    decreases |s| - i
  {
    if i + 1 < |s| {
      RowsDropLast(s, i + 1);
    }
  }

  lemma {:induction false} RowsUnlisted(s: seq<Entry>, w: Address, i: nat)
    requires i <= |s| && forall j :: i <= j < |s| ==> s[j].worker != w
    ensures Strike(RowsOf(s, i), w) == RowsOf(s, i)
    decreases |s| - i
  {
    if i < |s| {
      RowsUnlisted(s, w, i + 1);
    }
  }

  class BoardStore {
    var counts: map<Address, nat>
    var entries: seq<Entry>

    constructor ()
      ensures Value() == EMPTY_BOARD
    {
      counts, entries := map[], [];
    }

    function Value(): Board
      reads this
    {
      Board(counts, RowsOf(entries, 0))
    }

    method Restore(savedCounts: map<Address, nat>, savedEntries: seq<Entry>)
      modifies this
      ensures counts == savedCounts && entries == savedEntries
    {
      counts, entries := savedCounts, savedEntries;
    }

    method RecordResolvedCredit(w: Address) returns (r: Result<()>)
      modifies this
      ensures r == Record(old(Value()), w).Status()
      ensures r.Ok? ==> Value() == Record(old(Value()), w).value
    {
      var count := (if w in counts then counts[w] else 0) + 1;
      if count > U32_MAX {
        return Err(Trap);
      }
      counts := counts[w := count];
      UpdateLeaderboard(w, count);
      return Ok(());
    }

    method UpdateLeaderboard(w: Address, count: nat)
      modifies this`entries
      ensures RowsOf(entries, 0) == Reranked(RowsOf(old(entries), 0), Entry(w, count))
    {
      var rows := entries;
      var existing := |rows|;
      for i := 0 to |rows|
        invariant existing == |rows|
        invariant forall j :: 0 <= j < i ==> rows[j].worker != w
      {
        if rows[i].worker == w {
          existing := i;
          break;
        }
      }
      if existing < |rows| {
        RowsWithout(rows, existing, rows[..existing] + rows[existing + 1..], 0);
        rows := rows[..existing] + rows[existing + 1..];
      } else {
        RowsUnlisted(rows, w, 0);
      }
      assert RowsOf(rows, 0) == Strike(RowsOf(entries, 0), w);

      var insertAt := |rows|;
      for i := 0 to |rows|
        invariant insertAt == |rows|
        invariant forall j :: 0 <= j < i ==> rows[j].count >= count
      {
        if rows[i].count < count {
          insertAt := i;
          break;
        }
      }
      ghost var struck := rows;
      rows := rows[..insertAt] + [Entry(w, count)] + rows[insertAt..];
      RowsWith(struck, insertAt, Entry(w, count), rows, 0);
      RowsSame(rows, 0, rows, 0);
      if |rows| > LEADERBOARD_CAP {
        RowsDropLast(rows, 0);
        rows := rows[..|rows| - 1];
      }
      entries := rows;
    }
  }
}
