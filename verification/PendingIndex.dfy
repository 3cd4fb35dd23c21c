/** The pending-question index: a dense array with swap-remove and its reverse map. */
module PendingIndex {
  import opened Base

  const MAX_PENDING_PAGE: nat := 100

  /** PendingAt, PendingPos and PendingCount as they are stored. */
  datatype Index = Index(at: map<nat, QuestionId>, pos: map<QuestionId, nat>, count: nat)

  const EMPTY_INDEX: Index := Index(map[], map[], 0)

  function Add(idx: Index, id: QuestionId): Result<Index> {
    if idx.count >= U32_MAX then Err(Trap)
    else Ok(Index(idx.at[idx.count := id], idx.pos[id := idx.count], idx.count + 1))
  }

  /** Swap-remove: the last id moves into the removed id's slot. The traps are the panicking
      `count - 1` and the `unwrap` on the last slot. */
  function Remove(idx: Index, id: QuestionId): Result<Index> {
    if id !in idx.pos then Ok(idx)
    else if idx.count == 0 then Err(Trap)
    else
      var slot, last := idx.pos[id], idx.count - 1;
      if slot == last then Ok(Index(idx.at - {last}, idx.pos - {id}, last))
      else if last !in idx.at then Err(Trap)
      else
        var moved := idx.at[last];
        Ok(Index(idx.at[slot := moved] - {last}, idx.pos[moved := slot] - {id}, last))
  }

  /** The array enumerates exactly `live`, once each, and the reverse map inverts it. */
  ghost predicate Enumerates(idx: Index, live: set<QuestionId>) {
    && idx.pos.Keys == live
    && (forall i: nat :: i in idx.at <==> i < idx.count)
    && (forall i: nat :: i in idx.at ==> idx.at[i] in idx.pos && idx.pos[idx.at[i]] == i)
    && (forall id :: id in idx.pos ==> idx.pos[id] in idx.at && idx.at[idx.pos[id]] == id)
    && idx.count <= U32_MAX
  }

  lemma AddEnumerates(idx: Index, live: set<QuestionId>, id: QuestionId)
    requires Enumerates(idx, live) && id !in live
    ensures Add(idx, id).Ok? <==> idx.count < U32_MAX
    ensures Add(idx, id).Ok? ==> Enumerates(Add(idx, id).value, live + {id})
    ensures Add(idx, id).Ok? ==> Add(idx, id).value.count == idx.count + 1
  {
  }

  /** Removing never traps, and removes exactly the id. */
  lemma RemoveEnumerates(idx: Index, live: set<QuestionId>, id: QuestionId)
    requires Enumerates(idx, live) && id in live
    ensures Remove(idx, id).Ok?
    ensures Enumerates(Remove(idx, id).value, live - {id})
    ensures Remove(idx, id).value.count == idx.count - 1
  {
  }

  /** The index holds as many slots as there are live ids. */
  lemma {:induction false} EnumeratesCount(idx: Index, live: set<QuestionId>)
    requires Enumerates(idx, live)
    ensures |live| == idx.count
    decreases idx.count
  {
    if idx.count == 0 {
      assert forall id :: id !in idx.pos;
    } else {
      var id := idx.at[idx.count - 1];
      RemoveEnumerates(idx, live, id);
      EnumeratesCount(Remove(idx, id).value, live - {id});
    }
  }

  // ---- paging ---------------------------------------------------------------------

  /** The ids in slots `i..j`; a missing slot is skipped, as in the source. */
  function Slots(idx: Index, i: nat, j: nat): seq<QuestionId>
    decreases j
  {
    if j <= i then []
    else Slots(idx, i, j - 1) + if j - 1 in idx.at then [idx.at[j - 1]] else []
  }

  function PageEnd(idx: Index, start: nat, limit: nat): nat {
    Min(SatAdd(start, Min(limit, MAX_PENDING_PAGE)), idx.count)
  }

  /** Reading page after page from `start` over an unchanged index. */
  function Pages(idx: Index, start: nat, limit: nat): seq<QuestionId>
    requires limit > 0 && idx.count <= U32_MAX
    decreases idx.count - start
  {
    if start >= idx.count then []
    else Slots(idx, start, PageEnd(idx, start, limit)) + Pages(idx, PageEnd(idx, start, limit), limit)
  }

  lemma {:induction false} SlotsConcat(idx: Index, i: nat, j: nat, k: nat)
    requires i <= j <= k
    ensures Slots(idx, i, j) + Slots(idx, j, k) == Slots(idx, i, k)
    decreases k
  {
    if j < k {
      SlotsConcat(idx, i, j, k - 1);
    }
  }

  lemma {:induction false} PagesAreEverything(idx: Index, start: nat, limit: nat)
    requires limit > 0 && idx.count <= U32_MAX && start <= idx.count
    ensures Pages(idx, start, limit) == Slots(idx, start, idx.count)
    decreases idx.count - start
  {
    if start < idx.count {
      var end := PageEnd(idx, start, limit);
      PagesAreEverything(idx, end, limit);
      SlotsConcat(idx, start, end, idx.count);
    }
  }

  lemma {:induction false} SlotsBetween(idx: Index, live: set<QuestionId>, i: nat, j: nat)
    requires Enumerates(idx, live) && i <= j <= idx.count
    ensures |Slots(idx, i, j)| == j - i
    ensures forall k: nat :: k < j - i ==> i + k in idx.at && Slots(idx, i, j)[k] == idx.at[i + k]
    decreases j
  {
    if i < j {
      SlotsBetween(idx, live, i, j - 1);
    }
  }

  /** A page holds as many ids as asked for, but at most 100 and no more than remain, in slot order. */
  lemma PageHolds(idx: Index, live: set<QuestionId>, start: nat, limit: nat)
    requires Enumerates(idx, live)
    ensures var page := Slots(idx, start, PageEnd(idx, start, limit));
            && |page| == Max(0, Min(Min(limit, 100), idx.count - start))
            && forall k: nat :: k < |page| ==> start + k in idx.at && page[k] == idx.at[start + k]
  {
    hide Slots;
    if start <= PageEnd(idx, start, limit) {
      SlotsBetween(idx, live, start, PageEnd(idx, start, limit));
    } else {
      NoSlots(idx, start, PageEnd(idx, start, limit));
    }
  }

  lemma NoSlots(idx: Index, i: nat, j: nat)
    requires j <= i
    ensures Slots(idx, i, j) == []
  {
  }

  /** The pages of an unchanged index, for any page size, list every live id exactly once. */
  lemma PagesListLiveOnce(idx: Index, live: set<QuestionId>, limit: nat)
    requires Enumerates(idx, live) && limit > 0
    ensures var all := Pages(idx, 0, limit);
            && |all| == |live| && NoDup(all)
            && forall id :: id in all <==> id in live
  {
    hide Pages, Slots;
    PagesAreEverything(idx, 0, limit);
    SlotsBetween(idx, live, 0, idx.count);
    EnumeratesCount(idx, live);
    var all := Slots(idx, 0, idx.count);
    forall id | id in live ensures id in all {
      assert all[idx.pos[id]] == id;
    }
    forall i, j | 0 <= i < j < |all| ensures all[i] != all[j] {
      assert idx.pos[idx.at[i]] == i && idx.pos[idx.at[j]] == j;
    }
  }

  // ---- the stored index, edited in place -------------------------------------------------

  class PendingStore {
    var at: map<nat, QuestionId>
    var pos: map<QuestionId, nat>
    var count: nat

    constructor ()
      ensures Value() == EMPTY_INDEX
    {
      at, pos, count := map[], map[], 0;
    }

    function Value(): Index
      reads this
    {
      Index(at, pos, count)
    }

    method Restore(idx: Index)
      modifies this
      ensures Value() == idx
    {
      at, pos, count := idx.at, idx.pos, idx.count;
    }

    method IndexAdd(id: QuestionId) returns (r: Result<()>)
      modifies this
      ensures r == Add(old(Value()), id).Status()
      ensures r.Ok? ==> Value() == Add(old(Value()), id).value
    {
      if count >= U32_MAX {
        return Err(Trap);
      }
      at := at[count := id];
      pos := pos[id := count];
      count := count + 1;
      return Ok(());
    }

    method IndexRemove(id: QuestionId) returns (r: Result<()>)
      modifies this
      ensures r == Remove(old(Value()), id).Status()
      ensures r.Ok? ==> Value() == Remove(old(Value()), id).value
    {
      if id !in pos {
        return Ok(());
      }
      if count == 0 {
        return Err(Trap);
      }
      var slot, last := pos[id], count - 1;
      if slot != last {
        if last !in at {
          return Err(Trap);
        }
        var lastId := at[last];
        at := at[slot := lastId];
        pos := pos[lastId := slot];
      }
      at := at - {last};
      pos := pos - {id};
      count := last;
      return Ok(());
    }

    method ListPending(start: nat, limit: nat) returns (ids: seq<QuestionId>)
      ensures ids == Slots(Value(), start, PageEnd(Value(), start, limit))
      ensures |ids| <= Max(0, Min(Min(limit, 100), count - start))
    {
      var end := Min(SatAdd(start, Min(limit, MAX_PENDING_PAGE)), count);
      ids := [];
      var i := start;
      while i < end
        invariant start <= i && (i <= end || i == start)
        invariant ids == Slots(Value(), start, i) && |ids| <= i - start
      {
        if i in at {
          ids := ids + [at[i]];
        }
        i := i + 1;
      }
    }
  }
}
