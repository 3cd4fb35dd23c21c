/** The life of a question: which statuses follow which, and where its money ends up. */
module Lifecycle {
  import opened Base
  import opened Ledger
  import opened Calls
  import opened Invariant
  import opened Solvency
  import opened Frames

  // ---- every question over every run ------------------------------------------------------

  /** One call's effect on one question: nothing, or a legal rewrite; a sweep only ever refunds. */
  predicate Evolves(before: Option<Question>, after: Option<Question>, now: nat) {
    after == before || (after.Some? && Legal(before, after.value, now))
  }

  lemma {:induction false} SweepEvolves(w: World, ids: seq<QuestionId>, k: nat, id: QuestionId)
    requires k <= |ids| && Sweep(w, ids, k).Ok?
    ensures var v := Sweep(w, ids, k).value.0;
            && v.now == w.now
            && (Lookup(v, id) == Lookup(w, id)
                || (HasStatus(w.esc.questions, id, Pending)
                    && Lookup(v, id) == Some(w.esc.questions[id].(status := Refunded))))
  {
    hide RefundTimeout;
    if k > 0 {
      SweepEvolves(w, ids, k - 1, id);
      RefundTimeoutWrites(Sweep(w, ids, k - 1).value.0, ids[k - 1]);
    }
  }

  lemma StepEvolves(w: World, call: Call, id: QuestionId)
    ensures Evolves(Lookup(w, id), Lookup(After(w, call), id), w.now)
  {
    hide Step;
    if Step(w, call).Ok? {
      if call.DoSweep? {
        SweepStep(w, call.ids);
        SweepEvolves(w, call.ids, |call.ids|, id);
      } else {
        StepFramed(w, call);
      }
    }
  }

  lemma SweepStep(w: World, ids: seq<QuestionId>)
    ensures var r := Sweep(w, ids, |ids|);
            Step(w, DoSweep(ids)) == if r.Ok? then Ok(r.value.0) else Err(r.error)
  {
    hide Sweep;
  }

  predicate Terminal(q: Option<Question>) {
    q.Some? && (q.value.status == Resolved || q.value.status == Migrated)
  }

  /** Settled means settled: in any run a resolved or migrated question keeps its record for ever. */
  lemma {:induction false} TerminalIsForever(w: World, calls: seq<Call>, i: nat, k: nat, id: QuestionId)
    requires i <= k <= |calls| && Terminal(Lookup(Run(w, calls, i), id))
    ensures Lookup(Run(w, calls, k), id) == Lookup(Run(w, calls, i), id)
    decreases k
  {
    hide After;
    if i < k {
      TerminalIsForever(w, calls, i, k - 1, id);
      StepEvolves(Run(w, calls, k - 1), calls[k - 1], id);
    }
  }

  /** A refunded question only ever changes by its own payer reopening it. */
  lemma RefundedOnlyReopens(w: World, call: Call, id: QuestionId)
    requires HasStatus(w.esc.questions, id, Refunded) && Lookup(After(w, call), id) != Lookup(w, id)
    ensures call.DoReopen? && call.id == id && call.payer == w.esc.questions[id].payer && w.Signs(call.payer)
    ensures HasStatus(After(w, call).esc.questions, id, Pending)
  {
    hide Step;
    if call.DoSweep? {
      SweepStep(w, call.ids);
      SweepEvolves(w, call.ids, |call.ids|, id);
    } else {
      StepFramed(w, call);
    }
  }

  /** A payer's exit never moves: while a question stays live its payer, amount and deadline are those
      it was opened with, whatever the admin does in between. */
  lemma {:induction false} LiveTermsFixed(w: World, calls: seq<Call>, i: nat, k: nat, id: QuestionId)
    requires i <= k <= |calls| && id in Run(w, calls, i).esc.questions
    requires forall j :: i <= j <= k ==>
               id in Run(w, calls, j).esc.questions && Run(w, calls, j).esc.questions[id].Live()
    ensures var first, last := Run(w, calls, i).esc.questions[id], Run(w, calls, k).esc.questions[id];
            && last.payer == first.payer && last.amount == first.amount && last.Deadline() == first.Deadline()
            && last == first.(status := last.status)
    decreases k
  {
    hide After;
    if i < k {
      LiveTermsFixed(w, calls, i, k - 1, id);
      StepEvolves(Run(w, calls, k - 1), calls[k - 1], id);
    }
  }

  // ---- where the money goes -----------------------------------------------------------------

  /** Amounts of questions opened, resolved and refunded. */
  datatype Flow = Flow(opening: int, resolved: int, refunded: int)

  function Plus(a: Flow, b: Flow): Flow {
    Flow(a.opening + b.opening, a.resolved + b.resolved, a.refunded + b.refunded)
  }

  function WriteFlow(write: Option<Write>): Flow {
    match write
    case None => Flow(0, 0, 0)
    case Some(x) =>
      Flow(if x.q.status == Pending then x.q.amount else 0,
           if x.q.status == Resolved then x.q.amount else 0,
           if x.q.status == Refunded then x.q.amount else 0)
  }

  /** What the first `k` entries of a sweep refund. */
  function SweepFlow(w: World, ids: seq<QuestionId>, k: nat): Flow
    requires k <= |ids|
  {
    if k == 0 then Flow(0, 0, 0)
    else
      var before := SweepFlow(w, ids, k - 1);
      var u := Sweep(w, ids, k - 1);
      if u.Ok? && RefundTimeout(u.value.0, ids[k - 1]).Ok?
      then Plus(before, WriteFlow(Restatus(u.value.0, ids[k - 1], Refunded))) else before
  }

  function CallFlow(w: World, call: Call): Flow {
    if Step(w, call).Err? then Flow(0, 0, 0)
    else if call.DoSweep? then SweepFlow(w, call.ids, |call.ids|)
    else WriteFlow(Writes(w, call))
  }

  function RunFlow(w: World, calls: seq<Call>, k: nat): Flow
    requires k <= |calls|
  {
    if k == 0 then Flow(0, 0, 0)
    else Plus(RunFlow(w, calls, k - 1), CallFlow(Run(w, calls, k - 1), calls[k - 1]))
  }

  ghost function InEscrow(w: World): int {
    SumBy(w.esc.questions, LiveAmount)
  }

  lemma WriteBalances(questions: map<QuestionId, Question>, write: Option<Write>, now: nat)
    requires write.Some? ==>
               Legal(if write.value.id in questions then Some(questions[write.value.id]) else None, write.value.q, now)
    ensures var flow := WriteFlow(write);
            SumBy(Apply(questions, write), LiveAmount)
            == SumBy(questions, LiveAmount) + flow.opening - flow.resolved - flow.refunded
  {
    hide SumBy;
    if write.Some? {
      QuestionUpdate(questions, write.value.id, write.value.q);
    }
  }

  lemma {:induction false} SweepBalances(w: World, ids: seq<QuestionId>, k: nat)
    requires k <= |ids| && Sweep(w, ids, k).Ok?
    ensures var flow := SweepFlow(w, ids, k);
            && InEscrow(Sweep(w, ids, k).value.0) == InEscrow(w) - flow.refunded
            && flow.opening == 0 && flow.resolved == 0
  {
    hide RefundTimeout, SumBy;
    if k > 0 {
      SweepBalances(w, ids, k - 1);
      var u := Sweep(w, ids, k - 1).value.0;
      RefundTimeoutWrites(u, ids[k - 1]);
      if RefundTimeout(u, ids[k - 1]).Ok? {
        WriteBalances(u.esc.questions, Restatus(u, ids[k - 1], Refunded), u.now);
      }
    }
  }

  lemma CallBalances(w: World, call: Call)
    ensures var flow := CallFlow(w, call);
            InEscrow(After(w, call)) == InEscrow(w) + flow.opening - flow.resolved - flow.refunded
  {
    hide Step, SumBy, Sweep, SweepFlow, Writes;
    if Step(w, call).Ok? {
      if call.DoSweep? {
        SweepStep(w, call.ids);
        SweepBalances(w, call.ids, |call.ids|);
      } else {
        StepFramed(w, call);
        WriteBalances(w.esc.questions, Writes(w, call), w.now);
      }
    }
  }

  /** Exactly once: over any run, everything opened is still in escrow, or was resolved, or was
      refunded; no opening is settled twice and none is lost. */
  lemma {:induction false} EveryOpeningSettledOnce(w: World, calls: seq<Call>, k: nat)
    requires k <= |calls| && w.esc.questions == map[]
    ensures var flow := RunFlow(w, calls, k);
            flow.opening == InEscrow(Run(w, calls, k)) + flow.resolved + flow.refunded
  {
    hide CallFlow, After;
    if k > 0 {
      EveryOpeningSettledOnce(w, calls, k - 1);
      CallBalances(Run(w, calls, k - 1), calls[k - 1]);
    }
  }
}
