/** The batch refund: what it pays, what it reports, and that the order of the batch is irrelevant. */
module SweepTimeouts {
  import opened Base
  import opened PendingIndex
  import opened Ledger
  import opened Invariant
  import opened Solvency

  /** The distinct eligible ids among the first `k` of the batch. */
  ghost function Due(w: World, ids: seq<QuestionId>, k: nat): set<QuestionId>
    requires k <= |ids|
  {
    set i | 0 <= i < k && Refundable(w, ids[i]) :: ids[i]
  }

  ghost function Selected(questions: map<QuestionId, Question>, chosen: set<QuestionId>): map<QuestionId, Question> {
    map id | id in chosen && id in questions :: questions[id]
  }

  function AmountOf(q: Question): int { q.amount }

  function PaidTo(a: Address): Question -> int {
    (q: Question) => if q.payer == a then q.amount else 0
  }

  /** The questions once `chosen` are refunded. */
  ghost function Refunds(questions: map<QuestionId, Question>, chosen: set<QuestionId>): map<QuestionId, Question> {
    map id | id in questions :: if id in chosen then questions[id].(status := Refunded) else questions[id]
  }

  /** The change in an address's tokens when `chosen` are refunded by `me`. */
  ghost function Received(questions: map<QuestionId, Question>, chosen: set<QuestionId>, me: Address, a: Address): int {
    SumBy(Selected(questions, chosen), PaidTo(a))
    - (if a == me then SumBy(Selected(questions, chosen), AmountOf) else 0)
  }

  /** `v` is `w` with exactly `chosen` refunded; only the index order is left open. */
  ghost predicate RefundedExactly(w: World, v: World, chosen: set<QuestionId>) {
    && v == w.(tok := v.tok,
               esc := w.esc.(questions := v.esc.questions, index := v.esc.index, openCount := v.esc.openCount))
    && v.esc.questions == Refunds(w.esc.questions, chosen)
    && (forall a :: Get(v.tok, a) == Get(w.tok, a) + Received(w.esc.questions, chosen, w.esc.me, a))
  }

  lemma SelectMore(questions: map<QuestionId, Question>, chosen: set<QuestionId>, id: QuestionId, f: Question -> int)
    requires id in questions && id !in chosen
    ensures SumBy(Selected(questions, chosen + {id}), f) == SumBy(Selected(questions, chosen), f) + f(questions[id])
  {
    assert Selected(questions, chosen + {id}) == Selected(questions, chosen)[id := questions[id]];
    SumUpdate(Selected(questions, chosen), id, questions[id], f);
  }

  /** One more refund, of an id not yet refunded. */
  lemma RefundOne(w: World, v: World, chosen: set<QuestionId>, id: QuestionId)
    requires Inv(v) && OutsidePayers(w.esc.questions, w.contracts) && w.esc.me in w.contracts
    requires RefundedExactly(w, v, chosen)
    ensures Refundable(v, id) <==> Refundable(w, id) && id !in chosen
    ensures Refundable(v, id) ==>
              RefundTimeout(v, id).Ok? && RefundedExactly(w, RefundTimeout(v, id).value, chosen + {id})
  {
    hide SumBy, Inv, RefundTimeout;
    RefundTimeoutSafe(v, id);
    if Refundable(v, id) {
      var u := RefundTimeout(v, id).value;
      var q := w.esc.questions[id];
      RefundIs(v, id);
      forall a ensures Get(u.tok, a) == Get(w.tok, a) + Received(w.esc.questions, chosen + {id}, w.esc.me, a) {
        SelectMore(w.esc.questions, chosen, id, PaidTo(a));
        SelectMore(w.esc.questions, chosen, id, AmountOf);
        TransferPointwise(v.tok, v.esc.me, q.payer, q.amount, a);
      }
      assert u.esc.questions == Refunds(w.esc.questions, chosen + {id});
    }
  }

  lemma RefundIs(v: World, id: QuestionId)
    requires RefundTimeout(v, id).Ok?
    ensures var u := RefundTimeout(v, id).value;
            && u == v.(tok := u.tok,
                       esc := v.esc.(questions := u.esc.questions, index := u.esc.index, openCount := u.esc.openCount))
            && u.esc.questions == v.esc.questions[id := v.esc.questions[id].(status := Refunded)]
            && Transfer(v.tok, v.esc.me, v.esc.questions[id].payer, v.esc.questions[id].amount) == Ok(u.tok)
  {
    hide Transfer, Remove;
  }

  lemma TransferPointwise(tok: Balances, from: Address, to: Address, amount: int, a: Address)
    requires from != to && Transfer(tok, from, to, amount).Ok?
    ensures Get(Transfer(tok, from, to, amount).value, a)
            == Get(tok, a) + (if a == to then amount else 0) - (if a == from then amount else 0)
  {
  }

  lemma {:induction false} SweepRefundsExactly(w: World, ids: seq<QuestionId>, k: nat)
    requires Inv(w) && k <= |ids|
    ensures Sweep(w, ids, k).Ok? && |Sweep(w, ids, k).value.1| == k
    ensures RefundedExactly(w, Sweep(w, ids, k).value.0, Due(w, ids, k))
    ensures forall i :: 0 <= i < k ==>
              (Sweep(w, ids, k).value.1[i].Ok? <==> Refundable(w, ids[i]) && ids[i] !in Due(w, ids, i))
  {
    hide SumBy, Inv, RefundTimeout, Refundable, RefundedExactly;
    SweepSafe(w, ids, k);
    if k == 0 {
      NothingDue(w, ids);
    } else {
      SweepRefundsExactly(w, ids, k - 1);
      SweepSafe(w, ids, k - 1);
      SweepEntry(w, ids, k);
    }
  }

  lemma NothingDue(w: World, ids: seq<QuestionId>)
    ensures RefundedExactly(w, w, Due(w, ids, 0))
  {
    hide Refundable;
    assert Due(w, ids, 0) == {};
    assert Selected(w.esc.questions, {}) == map[];
    assert Refunds(w.esc.questions, {}) == w.esc.questions;
  }

  lemma SweepEntry(w: World, ids: seq<QuestionId>, k: nat)
    requires Inv(w) && 0 < k <= |ids| && Sweep(w, ids, k - 1).Ok?
    requires Advances(w, Sweep(w, ids, k - 1).value.0, true)
    requires RefundedExactly(w, Sweep(w, ids, k - 1).value.0, Due(w, ids, k - 1))
    ensures Sweep(w, ids, k).Ok?
    ensures RefundedExactly(w, Sweep(w, ids, k).value.0, Due(w, ids, k))
    ensures var r := RefundTimeout(Sweep(w, ids, k - 1).value.0, ids[k - 1]);
            && Sweep(w, ids, k).value.1 == Sweep(w, ids, k - 1).value.1 + [r.Status()]
            && (r.Ok? <==> Refundable(w, ids[k - 1]) && ids[k - 1] !in Due(w, ids, k - 1))
  {
    hide SumBy, RefundTimeout, Refundable, RefundedExactly, Books, Tables, Enumerates;
    var v, id := Sweep(w, ids, k - 1).value.0, ids[k - 1];
    RefundTimeoutSafe(v, id);
    RefundOne(w, v, Due(w, ids, k - 1), id);
    assert Due(w, ids, k) == if Refundable(w, id) then Due(w, ids, k - 1) + {id} else Due(w, ids, k - 1);
    assert id in Due(w, ids, k - 1) ==> Due(w, ids, k - 1) + {id} == Due(w, ids, k - 1);
  }

  /** The whole batch, duplicates included: each distinct eligible id is refunded exactly once, entry
      `i` succeeds exactly when its id was still eligible at its turn, and the escrow pays out the sum
      of the distinct eligible amounts. Nothing aborts the batch. */
  lemma SweepPaysEachOnce(w: World, ids: seq<QuestionId>)
    requires Inv(w)
    ensures Sweep(w, ids, |ids|).Ok?
    ensures var (v, results) := Sweep(w, ids, |ids|).value;
            && Inv(v) && |results| == |ids|
            && v.esc.questions == Refunds(w.esc.questions, Due(w, ids, |ids|))
            && v.Held() == w.Held() - SumBy(Selected(w.esc.questions, Due(w, ids, |ids|)), AmountOf)
            && forall i :: 0 <= i < |ids| ==>
                 (results[i].Ok? <==> Refundable(w, ids[i]) && forall j :: 0 <= j < i ==> ids[j] != ids[i])
  {
    hide Refundable, Inv;
    SweepRefundsExactly(w, ids, |ids|);
    SweepSafe(w, ids, |ids|);
    NothingToSelf(w, Due(w, ids, |ids|));
    forall i | 0 <= i < |ids| && Refundable(w, ids[i])
      ensures ids[i] !in Due(w, ids, i) <==> forall j :: 0 <= j < i ==> ids[j] != ids[i]
    {
    }
  }

  lemma NothingToSelf(w: World, chosen: set<QuestionId>)
    requires Inv(w)
    ensures SumBy(Selected(w.esc.questions, chosen), PaidTo(w.esc.me)) == 0
  {
    hide SumBy, Books, Tables, Enumerates;
    SumZero(Selected(w.esc.questions, chosen), PaidTo(w.esc.me));
  }

  /** Only which ids are in the batch matters: any reordering, or repetition, of it leaves the same
      questions, the same balance for every address and the same everything else, up to the order of
      the index, which lists the same ids. */
  lemma SweepOrderIrrelevant(w: World, ids: seq<QuestionId>, others: seq<QuestionId>)
    requires Inv(w)
    requires forall id :: id in ids <==> id in others
    ensures Sweep(w, ids, |ids|).Ok? && Sweep(w, others, |others|).Ok?
    ensures var v, u := Sweep(w, ids, |ids|).value.0, Sweep(w, others, |others|).value.0;
            && u.esc == v.esc.(index := u.esc.index) && u.now == v.now && u.contracts == v.contracts
            && (forall a :: Get(u.tok, a) == Get(v.tok, a))
            && u.esc.index.count == v.esc.index.count && u.esc.index.pos.Keys == v.esc.index.pos.Keys
  {
    hide Refundable, SumBy, Sweep, Books, Tables;
    SweepRefundsExactly(w, ids, |ids|);
    SweepRefundsExactly(w, others, |others|);
    SweepSafe(w, ids, |ids|);
    SweepSafe(w, others, |others|);
    DueSame(w, ids, others);
    var v, u := Sweep(w, ids, |ids|).value.0, Sweep(w, others, |others|).value.0;
    EnumeratesCount(v.esc.index, LiveIds(v.esc.questions));
    EnumeratesCount(u.esc.index, LiveIds(u.esc.questions));
  }

  lemma DueSame(w: World, ids: seq<QuestionId>, others: seq<QuestionId>)
    requires forall id :: id in ids <==> id in others
    ensures Due(w, ids, |ids|) == Due(w, others, |others|)
  {
    hide Refundable;
    forall id ensures id in Due(w, ids, |ids|) <==> id in Due(w, others, |others|) {
      assert id in ids <==> id in others;
      assert id in Due(w, ids, |ids|) <==> id in ids && Refundable(w, id);
      assert id in Due(w, others, |others|) <==> id in others && Refundable(w, id);
    }
  }
}
